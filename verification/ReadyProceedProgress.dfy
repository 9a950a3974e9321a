/** Absence of deadlock and a bound on the length of every run of the ready/proceed protocol. */
module ReadyProceedProgress {
  import opened Sequences
  import opened ReadyRing
  import opened ReadyProceed
  import opened ReadyProceedInvariant

  /** The whole program is over: main has left and so has every worker. */
  ghost predicate Final(s: State) {
    s.main.Exited? && forall i :: 0 <= i < |s.ws| ==> s.ws[i].pc.Gone?
  }

  /** A move that gets work done: no spurious wakeup and no try-join on a running worker. */
  ghost predicate Productive(s: State, m: Move) {
    Enabled(s, m) && !Spurious(m) && !BusyPoll(s, m)
  }

  // ----- Some productive move is always there -----

  /** Whoever holds the global mutex can move. */
  lemma GlobalHolderMoves(s: State) returns (m: Move)
    requires Inv(s) && !s.global.Free?
    ensures Productive(s, m)
  {
    m := if s.global.HeldByMain? then MainMove else WorkerMove(s.global.id);
  }

  /** Whoever holds worker i's own mutex can move. */
  lemma OwnHolderMoves(s: State, i: nat) returns (m: Move)
    requires Inv(s) && i < |s.ws| && !s.ws[i].lock.Free?
    ensures Productive(s, m)
  {
    assert LockOk(s.main, s.global, s.ws[i], i);
    m := if s.ws[i].lock.HeldByMain? then MainMove else WorkerMove(i);
  }

  /** A started, unfinished worker that is not asleep can move, or someone it waits for can. */
  lemma AwakeMoves(s: State, i: nat) returns (m: Move)
    requires Inv(s) && i < |s.ws|
    requires !s.ws[i].pc.Unborn? && !s.ws[i].pc.Sleeping? && !s.ws[i].pc.Gone?
    ensures Productive(s, m)
  {
    if !s.ws[i].lock.Free? {
      m := OwnHolderMoves(s, i);
    } else if !s.global.Free? {
      m := GlobalHolderMoves(s);
    } else {
      m := WorkerMove(i);
    }
  }

  /** While main sleeps, some worker has not pushed yet. */
  lemma SomeoneStillToPush(s: State) returns (i: nat)
    requires Inv(s) && s.main.Asleep? && s.ring.IsEmpty()
    ensures i < |s.ws| && !HasPushed(s.ws[i].pc) && !s.ws[i].pc.Unborn?
  {
    EmptyIff(s.ring);
    assert s.pushed == s.granted;
    i := PigeonMissing(s.pushed, |s.ws|);
    assert RecordOk(s.pushed, s.granted, s.ws[i], i);
    assert LifeOk(s.main, s.ws[i], i);
  }

  lemma AsleepMoves(s: State) returns (m: Move)
    requires Inv(s) && s.main.Asleep?
    ensures Productive(s, m)
  {
    if s.ring.IsEmpty() {
      var i := SomeoneStillToPush(s);
      m := AwakeMoves(s, i);
    } else {
      m := GlobalHolderMoves(s);
    }
  }

  /** Once main joins, every worker has its permission, so an unfinished one can move. */
  lemma JoiningMoves(s: State, i: nat) returns (m: Move)
    requires Inv(s) && Joining(s.main) && i < |s.ws| && !s.ws[i].pc.Gone?
    ensures Productive(s, m)
  {
    assert LifeOk(s.main, s.ws[i], i);
    AllGranted(s);
    assert WakeOk(s.main, s.ws[i], i);
    m := AwakeMoves(s, i);
  }

  lemma AllGranted(s: State)
    requires Inv(s) && s.count == |s.ws|
    ensures s.granted == s.pushed
    ensures forall i :: 0 <= i < |s.ws| ==> i in s.granted && s.ws[i].toProceed
  {
    PigeonLength(s.pushed, |s.ws|);
    assert s.granted + Hand(s.main) + s.ring.Contents() == s.granted;
    PigeonFull(s.pushed, |s.ws|);
    forall i | 0 <= i < |s.ws| ensures i in s.granted && s.ws[i].toProceed {
      assert RecordOk(s.pushed, s.granted, s.ws[i], i);
    }
  }

  /** No deadlock and no lost wakeup: unless everything is over, some productive move is possible. */
  lemma NoDeadlock(s: State) returns (m: Move)
    requires Inv(s) && !Final(s)
    ensures Productive(s, m)
  {
    if MainEnabled(s) && !BusyPoll(s, MainMove) {
      m := MainMove;
    } else if s.main.JoinScan? {
      m := JoiningMoves(s, s.main.i);
    } else if s.main.Exited? {
      var i :| 0 <= i < |s.ws| && !s.ws[i].pc.Gone?;
      m := JoiningMoves(s, i);
    } else if s.main.Asleep? {
      m := AsleepMoves(s);
    } else if s.main.LockOwn? {
      m := OwnHolderMoves(s, s.main.id);
    } else {
      m := GlobalHolderMoves(s);
    }
  }

  // ----- A measure that every productive move lowers -----

  function WorkerRank(w: Worker): int {
    match w.pc
    case Unborn => 18
    case LockReady => 17
    case SetReady => 16
    case SignalReady => 15
    case UnlockReady => 14
    case LockPush => 13
    case PushId => 12
    case SignalMain => 11
    case UnlockPush => 7
    case LockGo => 6
    case Waking => 6
    case TestGo => 5
    case WaitCall => 4
    case Sleeping => 3
    case UnlockGo => 2
    case Leaving => 1
    case Gone => 0
  }

  /** Main before the joins: `left` ids are still to be popped; a non-empty queue at PopNext is about to be. */
  function GrantRank(pc: MainPC, n: int, left: int, empty: bool): int
    requires !Joining(pc)
  {
    5 * n + 4 + 18 * left +
    match pc
    case Creating(i) => 7 + n - i
    case GrantLoop => 6
    case LockGlobal => 5
    case Woken => 5
    case CheckEmpty => 4
    case CallWait => 3
    case Asleep => 2
    case PopNext => if empty then 8 else 1
    case ReleaseGlobal(_) => 18
    case LockOwn(_) => 17
    case TestProceed(_) => 16
    case Grant(_) => 15
    case SignalGrant(_) => 14
    case ReleaseOwn(_) => 10
    case RelockGlobal => 9
    case LeaveGlobal => 7
  }

  /** Main during the joins: `open` handles are left; `again` says that this pass already skipped one of them. */
  function JoinRank(pc: MainPC, n: int, open: int, again: bool): int
    requires Joining(pc)
  {
    var back := if again then n + 3 else 0;
    4 * open +
    match pc
    case JoinLoop => if open > 0 then n + 3 else 1
    case JoinScan(i) => n - i + 2 + back
    case Cleanup(i) => n - i + 1 + back
    case DestroyMutex(i) => n - i + 4 + back
    case DestroyCondTo(i) => n - i + 3 + back
    case DestroyCondFrom(i) => n - i + 2 + back
    case Exited => 0
  }

  ghost predicate SkippedBefore(ws: seq<Worker>, i: int) {
    exists j :: 0 <= j < i && j < |ws| && !ws[j].joined
  }

  ghost predicate Skipped(pc: MainPC, ws: seq<Worker>) {
    match pc
    case JoinScan(i) => SkippedBefore(ws, i)
    case Cleanup(i) => SkippedBefore(ws, i)
    case DestroyMutex(i) => SkippedBefore(ws, i)
    case DestroyCondTo(i) => SkippedBefore(ws, i)
    case DestroyCondFrom(i) => SkippedBefore(ws, i)
    case _ => false
  }

  ghost function MainRank(s: State): int {
    var n := |s.ws|;
    if Joining(s.main) then JoinRank(s.main, n, n - s.finished, Skipped(s.main, s.ws))
    else GrantRank(s.main, n, n - |s.granted| - |Hand(s.main)|, s.ring.IsEmpty())
  }

  ghost function Measure(s: State): int {
    MainRank(s) + SumBy(WorkerRank, s.ws)
  }

  lemma LeftNonNegative(s: State)
    requires Queue(s)
    ensures |s.granted| + |Hand(s.main)| <= |s.ws|
  {
    PigeonLength(s.pushed, |s.ws|);
    assert |s.granted + Hand(s.main) + s.ring.Contents()| <= |s.ws|;
  }

  lemma OpenNonNegative(s: State)
    requires Lives(s)
    ensures 0 <= s.finished <= |s.ws|
  {
    SumAtLeast(JoinedBit, s.ws);
    SumFull(JoinedBit, s.ws, 1);
  }

  lemma MainRankNonNegative(s: State)
    requires MainInRange(s.main, |s.ws|)
    requires |s.granted| + |Hand(s.main)| <= |s.ws| && s.finished <= |s.ws|
    ensures 0 <= MainRank(s)
  {
  }

  lemma RankNonNegative(s: State)
    requires Inv(s)
    ensures 0 <= Measure(s)
  {
    LeftNonNegative(s);
    OpenNonNegative(s);
    MainRankNonNegative(s);
    SumAtLeast(WorkerRank, s.ws);
  }

  /** How much a move may raise the measure: a wakeup without a signal by 3, an unsuccessful try-join by n + 2. */
  function Allowance(s: State, m: Move): int {
    if Spurious(m) then 3 else if BusyPoll(s, m) then |s.ws| + 2 else -1
  }

  lemma SkippedSame(ws: seq<Worker>, us: seq<Worker>, i: int)
    requires |ws| == |us| && forall j :: 0 <= j < |ws| && j < i ==> ws[j].joined == us[j].joined
    ensures SkippedBefore(ws, i) == SkippedBefore(us, i)
  {
    if SkippedBefore(ws, i) {
      var j :| 0 <= j < i && j < |ws| && !ws[j].joined;
      assert !us[j].joined;
    }
    if SkippedBefore(us, i) {
      var j :| 0 <= j < i && j < |us| && !us[j].joined;
      assert !ws[j].joined;
    }
  }

  /** A worker touches main's rank only by waking it. */
  lemma WorkerOnMain(s: State, i: nat)
    requires i < |s.ws| && WorkerEnabled(s, i) && WorkerLegal(s, i)
    requires s.global.HeldByMain? <==> MainHoldsGlobal(s.main)
    ensures MainRank(WorkerNext(s, i)) <= MainRank(s) + if s.ws[i].pc.SignalMain? then 3 else 0
  {
    var t := WorkerNext(s, i);
    if Joining(s.main) {
      WorkerOnJoins(s, i);
    }
  }

  lemma WorkerOnJoins(s: State, i: nat)
    requires i < |s.ws| && WorkerEnabled(s, i) && WorkerLegal(s, i) && Joining(s.main)
    ensures Skipped(s.main, WorkerNext(s, i).ws) == Skipped(s.main, s.ws)
  {
    if !s.main.JoinLoop? && !s.main.Exited? {
      SkippedSame(s.ws, WorkerNext(s, i).ws, s.main.i);
    }
  }

  lemma WorkerOnItself(s: State, i: nat)
    requires i < |s.ws| && WorkerEnabled(s, i) && WorkerLegal(s, i)
    ensures WorkerRank(WorkerNext(s, i).ws[i]) + (if s.ws[i].pc.SignalMain? then 3 else 0) < WorkerRank(s.ws[i])
    ensures WorkerNext(s, i).ws == s.ws[i := WorkerNext(s, i).ws[i]]
  {
  }

  lemma WorkerLowers(s: State, i: nat)
    requires Inv(s) && i < |s.ws| && WorkerEnabled(s, i) && WorkerLegal(s, i)
    ensures Measure(WorkerNext(s, i)) < Measure(s)
  {
    hide WorkerEnabled, WorkerLegal, WorkerNext, MainRank, WorkerRank;
    WorkerOnMain(s, i);
    WorkerOnItself(s, i);
    SumUpdate(WorkerRank, s.ws, i, WorkerNext(s, i).ws[i]);
  }

  /** Main before the joins touches the workers' ranks only by starting one and by waking one. */
  lemma GrantingOnWorkers(s: State)
    requires MainEnabled(s) && MainLegal(s) && !Joining(s.main)
    ensures SumBy(WorkerRank, MainNext(s).ws) <= SumBy(WorkerRank, s.ws) + if s.main.SignalGrant? then 3 else 0
  {
    var t := MainNext(s);
    if s.main.Creating? && s.main.i < |s.ws| {
      SumUpdate(WorkerRank, s.ws, s.main.i, t.ws[s.main.i]);
    } else if s.main.SignalGrant? {
      SumUpdate(WorkerRank, s.ws, s.main.id, s.ws[s.main.id].(pc := Waking));
    } else {
      SumSame(WorkerRank, s.ws, t.ws);
    }
  }

  lemma GrantingOnMain(s: State)
    requires Lives(s) && MainEnabled(s) && MainLegal(s) && !Joining(s.main) && !s.main.GrantLoop?
    requires s.main.TestProceed? ==> !s.ws[s.main.id].toProceed
    ensures MainRank(MainNext(s)) + (if s.main.SignalGrant? then 3 else 0) < MainRank(s)
  {
  }

  lemma GrantingLowers(s: State)
    requires Inv(s) && MainEnabled(s) && MainLegal(s) && !Joining(s.main) && !s.main.GrantLoop?
    ensures Measure(MainNext(s)) < Measure(s)
  {
    GrantingOnWorkers(s);
    if s.main.TestProceed? {
      PoppedIsNew(s);
    }
    GrantingOnMain(s);
  }

  lemma LoopLowers(s: State)
    requires Inv(s) && s.main.GrantLoop?
    ensures Measure(MainNext(s)) < Measure(s)
  {
    OpenNonNegative(s);
    LeftNonNegative(s);
  }

  /** A pass that skipped nothing before `i` with all later handles closed has closed them all. */
  lemma NothingSkipped(s: State)
    requires Lives(s) && Joining(s.main) && s.main.JoinScan? && s.main.i == |s.ws|
    requires !SkippedBefore(s.ws, s.main.i)
    ensures s.finished == |s.ws|
  {
    SumFull(JoinedBit, s.ws, 1);
  }

  lemma JoinedStays(ws: seq<Worker>, i: nat)
    requires i < |ws| && ws[i].joined
    ensures SkippedBefore(ws, i + 1) == SkippedBefore(ws, i)
  {
    if SkippedBefore(ws, i + 1) {
      var j :| 0 <= j < i + 1 && j < |ws| && !ws[j].joined;
      assert j < i;
    }
  }

  lemma ScanLowers(s: State)
    requires Lives(s) && MainLegal(s) && s.main.JoinScan?
    ensures MainRank(MainNext(s)) <= MainRank(s) + Allowance(s, MainMove)
  {
    SumFull(JoinedBit, s.ws, 1);
    if s.main.i == |s.ws| {
      if !SkippedBefore(s.ws, s.main.i) {
        NothingSkipped(s);
      }
    } else if s.ws[s.main.i].joined {
      JoinedStays(s.ws, s.main.i);
    }
  }

  lemma CleanupLowers(s: State)
    requires Lives(s) && MainLegal(s) && (s.main.Cleanup? || CleaningUp(s.main))
    ensures MainRank(MainNext(s)) < MainRank(s)
  {
    SkippedSame(s.ws, MainNext(s).ws, s.main.i);
    if s.main.DestroyCondFrom? {
      JoinedStays(MainNext(s).ws, s.main.i);
    }
  }

  lemma JoiningLowers(s: State)
    requires Lives(s) && MainEnabled(s) && MainLegal(s) && Joining(s.main)
    ensures Measure(MainNext(s)) <= Measure(s) + Allowance(s, MainMove)
  {
    SumSame(WorkerRank, s.ws, MainNext(s).ws);
    if s.main.JoinScan? {
      ScanLowers(s);
    } else if s.main.Cleanup? || CleaningUp(s.main) {
      CleanupLowers(s);
    }
  }

  lemma SpuriousRaises(s: State, m: Move)
    requires Enabled(s, m) && Spurious(m) && Legal(s, m)
    ensures Measure(Next(s, m)) <= Measure(s) + 3
  {
    if m.WorkerSpurious? {
      var t := Next(s, m);
      SumUpdate(WorkerRank, s.ws, m.i, t.ws[m.i]);
      if Joining(s.main) && !s.main.JoinLoop? && !s.main.Exited? {
        SkippedSame(s.ws, t.ws, s.main.i);
      }
    }
  }

  /** Every productive move lowers the measure; the others raise it by a fixed amount at most. */
  lemma StepLowers(s: State, m: Move, t: State)
    requires Inv(s) && IsStep(s, m, t)
    ensures Measure(t) <= Measure(s) + Allowance(s, m)
  {
    hide Measure;
    if Spurious(m) {
      SpuriousRaises(s, m);
    } else if m.WorkerMove? {
      WorkerLowers(s, m.i);
    } else if Joining(s.main) {
      JoiningLowers(s);
    } else if s.main.GrantLoop? {
      LoopLowers(s);
    } else {
      GrantingLowers(s);
    }
  }
}

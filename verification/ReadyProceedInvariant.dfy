/** The invariant of the ready/proceed protocol, kept by every move. */
module ReadyProceedInvariant {
  import opened Sequences
  import opened ReadyRing
  import opened ReadyProceed

  // ----- Mutual exclusion: the holder of a mutex is the agent inside its critical section -----

  predicate LockOk(main: MainPC, global: Holder, w: Worker, i: int) {
    && (global.HeldByWorker? && global.id == i <==> HoldsGlobal(w.pc))
    && (w.lock.HeldByMain? <==> MainHoldsOwn(main, i))
    && (w.lock.HeldByWorker? <==> HoldsOwn(w.pc))
    && (w.lock.HeldByWorker? ==> w.lock.id == i)
  }

  ghost predicate Locks(s: State) {
    && (s.global.HeldByMain? <==> MainHoldsGlobal(s.main))
    && (s.global.HeldByWorker? ==> s.global.id < |s.ws|)
    && forall i :: 0 <= i < |s.ws| ==> LockOk(s.main, s.global, s.ws[i], i)
  }

  // ----- Life cycle: creation, join and destruction -----

  predicate Joining(pc: MainPC) {
    pc.JoinLoop? || pc.JoinScan? || pc.Cleanup? || pc.DestroyMutex? || pc.DestroyCondTo? || pc.DestroyCondFrom?
    || pc.Exited?
  }

  predicate MainInRange(pc: MainPC, n: nat) {
    match pc
    case Creating(i) => i <= n
    case ReleaseGlobal(id) => 0 <= id < n
    case LockOwn(id) => 0 <= id < n
    case TestProceed(id) => 0 <= id < n
    case Grant(id) => 0 <= id < n
    case SignalGrant(id) => 0 <= id < n
    case ReleaseOwn(id) => 0 <= id < n
    case JoinScan(i) => i <= n
    case Cleanup(i) => i < n
    case DestroyMutex(i) => i < n
    case DestroyCondTo(i) => i < n
    case DestroyCondFrom(i) => i < n
    case _ => true
  }

  predicate LifeOk(main: MainPC, w: Worker, i: nat) {
    && (w.pc.Unborn? <==> main.Creating? && main.i <= i)
    && (w.joined ==> w.pc.Gone? && Joining(main))
    && (main.Cleanup? && main.i == i ==> w.pc.Gone? && !w.joined)
    && (CleaningUp(main) && main.i == i ==> w.joined)
    && w.mutexDestroys == Destroys(w.joined && !(main.DestroyMutex? && main.i == i))
    && w.condToDestroys == Destroys(w.joined && !((main.DestroyMutex? || main.DestroyCondTo?) && main.i == i))
    && w.condFromDestroys == Destroys(w.joined && !(CleaningUp(main) && main.i == i))
  }

  predicate CleaningUp(pc: MainPC) {
    pc.DestroyMutex? || pc.DestroyCondTo? || pc.DestroyCondFrom?
  }

  function Destroys(done: bool): nat {
    if done then 1 else 0
  }

  function JoinedBit(w: Worker): int {
    if w.joined then 1 else 0
  }

  ghost predicate Lives(s: State) {
    && MainInRange(s.main, |s.ws|)
    && s.finished == SumBy(JoinedBit, s.ws)
    && (s.main.Exited? ==> s.finished == |s.ws|)
    && forall i :: 0 <= i < |s.ws| ==> LifeOk(s.main, s.ws[i], i)
  }

  // ----- History: what was pushed is what was granted, what main holds in hand and what is still queued -----

  function Hand(pc: MainPC): seq<int> {
    match pc
    case ReleaseGlobal(id) => [id]
    case LockOwn(id) => [id]
    case TestProceed(id) => [id]
    case Grant(id) => [id]
    case _ => []
  }

  predicate HasPushed(pc: WorkerPC) {
    !(pc.Unborn? || pc.LockReady? || pc.SetReady? || pc.SignalReady? || pc.UnlockReady? || pc.LockPush? || pc.PushId?)
  }

  predicate BeforeReady(pc: WorkerPC) {
    pc.Unborn? || pc.LockReady? || pc.SetReady?
  }

  predicate PastGo(pc: WorkerPC) {
    pc.UnlockGo? || pc.Leaving? || pc.Gone?
  }

  predicate Collecting(pc: MainPC) {
    pc.LockGlobal? || pc.CheckEmpty? || pc.CallWait? || pc.Asleep? || pc.Woken?
  }

  ghost predicate RecordOk(pushed: seq<int>, granted: seq<int>, w: Worker, i: int) {
    && (i in pushed <==> HasPushed(w.pc))
    && (i in granted <==> w.toProceed)
    && (PastGo(w.pc) ==> w.toProceed)
    && (w.toProceed ==> i in pushed)
    && (w.ready <==> !BeforeReady(w.pc))
  }

  ghost predicate Queue(s: State) {
    && s.ring.Valid() && |s.ring.buf| == |s.ws| + 1
    && s.overflows == 0
    && Distinct(s.pushed) && Within(s.pushed, |s.ws|)
    && s.granted + Hand(s.main) + s.ring.Contents() == s.pushed
    && s.count == |s.granted|
    && (Collecting(s.main) ==> s.count < |s.ws|)
    && (Joining(s.main) ==> s.count == |s.ws|)
  }

  ghost predicate Records(s: State) {
    forall i :: 0 <= i < |s.ws| ==> RecordOk(s.pushed, s.granted, s.ws[i], i)
  }

  // ----- No lost wakeup -----

  predicate WakeOk(main: MainPC, w: Worker, i: int) {
    && (w.pc.WaitCall? ==> !w.toProceed)
    && (w.pc.Sleeping? ==> !w.toProceed || (main.SignalGrant? && main.id == i))
  }

  /** Main sleeps only while the queue is empty or a pusher is about to signal;
      a worker sleeps only while it has no permission or main is about to signal it. */
  ghost predicate Wakeups(s: State) {
    && (s.main.CallWait? ==> s.ring.IsEmpty())
    && (s.main.Asleep? ==>
          s.ring.IsEmpty()
          || (s.global.HeldByWorker? && s.global.id < |s.ws| && s.ws[s.global.id].pc.SignalMain?))
    && forall i :: 0 <= i < |s.ws| ==> WakeOk(s.main, s.ws[i], i)
  }

  ghost predicate Inv(s: State) {
    Locks(s) && Lives(s) && Queue(s) && Records(s) && Wakeups(s)
  }

  lemma InitialInv(n: nat)
    ensures Inv(Initial(n))
  {
    var s := Initial(n);
    assert s.ring.Valid() && s.ring.Contents() == [];
    assert Queue(s);
    NobodyJoined(s.ws);
    hide LockOk, LifeOk, RecordOk, WakeOk;
    forall i | 0 <= i < n {
      NewWorkerOk(n, i);
    }
  }

  lemma NewWorkerOk(n: nat, i: nat)
    requires i < n
    ensures var s := Initial(n);
            && LockOk(s.main, s.global, s.ws[i], i) && LifeOk(s.main, s.ws[i], i)
            && RecordOk(s.pushed, s.granted, s.ws[i], i) && WakeOk(s.main, s.ws[i], i)
  {
  }

  lemma {:induction false} NobodyJoined(ws: seq<Worker>)
    requires forall i :: 0 <= i < |ws| ==> !ws[i].joined
    ensures SumBy(JoinedBit, ws) == 0
  {
    if ws == [] {
    } else {
      NobodyJoined(ws[1..]);
    }
  }

  /** In every state of the invariant, whatever can happen next respects the rules. */
  lemma InvLegal(s: State, m: Move)
    requires Inv(s) && Enabled(s, m)
    ensures Legal(s, m)
  {
  }

  /** Main's own moves change worker i's mutex exactly when they take it or release it. */
  lemma MainKeepsOwnAt(s: State, i: nat)
    requires i < |s.ws| && MainEnabled(s) && MainLegal(s)
    requires LockOk(s.main, s.global, s.ws[i], i)
    ensures var t := MainNext(s);
            && (t.ws[i].lock.HeldByMain? <==> MainHoldsOwn(t.main, i))
            && (t.ws[i].lock.HeldByWorker? <==> HoldsOwn(t.ws[i].pc))
            && (t.ws[i].lock.HeldByWorker? ==> t.ws[i].lock.id == i)
  {
  }

  lemma MainKeepsGlobalAt(s: State, i: nat)
    requires i < |s.ws| && MainEnabled(s) && MainLegal(s)
    requires LockOk(s.main, s.global, s.ws[i], i) && (s.global.HeldByMain? <==> MainHoldsGlobal(s.main))
    ensures var t := MainNext(s);
            t.global.HeldByWorker? && t.global.id == i <==> HoldsGlobal(t.ws[i].pc)
  {
  }

  lemma MainKeepsLockAt(s: State, i: nat)
    requires i < |s.ws| && MainEnabled(s) && MainLegal(s)
    requires LockOk(s.main, s.global, s.ws[i], i) && (s.global.HeldByMain? <==> MainHoldsGlobal(s.main))
    ensures |MainNext(s).ws| == |s.ws|
    ensures LockOk(MainNext(s).main, MainNext(s).global, MainNext(s).ws[i], i)
  {
    MainKeepsOwnAt(s, i);
    MainKeepsGlobalAt(s, i);
    assert |MainNext(s).ws| == |s.ws|;
    hide MainNext, MainEnabled, MainLegal;
  }

  lemma MainKeepsLocks(s: State)
    requires Locks(s) && Lives(s) && MainEnabled(s) && MainLegal(s)
    ensures Locks(MainNext(s))
  {
    forall i | 0 <= i < |MainNext(s).ws| {
      MainKeepsLockAt(s, i);
    }
  }

  lemma WorkerKeepsLocks(s: State, i: nat)
    requires Locks(s) && i < |s.ws| && WorkerEnabled(s, i) && WorkerLegal(s, i)
    ensures Locks(WorkerNext(s, i))
  {
  }

  /** What main takes from the queue is the id of a worker. */
  lemma PoppedInRange(s: State)
    requires Queue(s) && !s.ring.IsEmpty()
    ensures 0 <= s.ring.buf[s.ring.head] < |s.ws|
  {
    PopTakesFirst(s.ring);
    assert s.pushed[|s.granted + Hand(s.main)|] == s.ring.buf[s.ring.head];
  }

  lemma MainKeepsFinished(s: State)
    requires Lives(s) && MainEnabled(s) && MainLegal(s)
    ensures MainNext(s).finished == SumBy(JoinedBit, MainNext(s).ws)
  {
    if s.main.Cleanup? {
      SumUpdate(JoinedBit, s.ws, s.main.i, s.ws[s.main.i].(joined := true));
    } else {
      SumSame(JoinedBit, s.ws, MainNext(s).ws);
    }
  }

  lemma MainKeepsLifeAt(s: State, i: nat)
    requires i < |s.ws| && MainEnabled(s) && MainLegal(s) && LifeOk(s.main, s.ws[i], i)
    ensures LifeOk(MainNext(s).main, MainNext(s).ws[i], i)
  {
  }

  lemma MainKeepsLives(s: State)
    requires Lives(s) && Queue(s) && MainEnabled(s) && MainLegal(s)
    ensures Lives(MainNext(s))
  {
    MainKeepsFinished(s);
    MainKeepsRange(s);
    SumFull(JoinedBit, s.ws, 1);
    forall i | 0 <= i < |s.ws| {
      MainKeepsLifeAt(s, i);
    }
  }

  lemma MainKeepsRange(s: State)
    requires Lives(s) && Queue(s) && MainEnabled(s) && MainLegal(s)
    ensures MainInRange(MainNext(s).main, |s.ws|)
  {
    if s.main.PopNext? && !s.ring.IsEmpty() {
      PoppedInRange(s);
    }
  }

  lemma WorkerKeepsLifeAt(s: State, i: nat, k: nat)
    requires i < |s.ws| && WorkerEnabled(s, i) && WorkerLegal(s, i)
    requires k < |s.ws| && LifeOk(s.main, s.ws[k], k)
    ensures LifeOk(WorkerNext(s, i).main, WorkerNext(s, i).ws[k], k)
  {
  }

  lemma WorkerKeepsLives(s: State, i: nat)
    requires Lives(s) && i < |s.ws| && WorkerEnabled(s, i) && WorkerLegal(s, i)
    ensures Lives(WorkerNext(s, i))
  {
    hide WorkerEnabled, LifeOk;
    SumSame(JoinedBit, s.ws, WorkerNext(s, i).ws);
    forall k | 0 <= k < |s.ws| {
      WorkerKeepsLifeAt(s, i, k);
    }
  }

  lemma PopKeepsQueue(s: State)
    requires Queue(s) && s.main.PopNext? && MainLegal(s) && !s.ring.IsEmpty()
    ensures Queue(MainNext(s))
  {
    PopTakesFirst(s.ring);
    var t := MainNext(s);
    var id := s.ring.buf[s.ring.head];
    assert s.granted + Hand(s.main) == s.granted;
    Regroup(s.granted, id, t.ring.Contents());
  }

  lemma Regroup(front: seq<int>, id: int, back: seq<int>)
    ensures front + [id] + back == front + ([id] + back)
  {
  }

  lemma GrantKeepsQueue(s: State)
    requires Queue(s) && s.main.Grant? && MainLegal(s)
    ensures Queue(MainNext(s))
  {
    var t := MainNext(s);
    assert t.granted + Hand(t.main) == s.granted + Hand(s.main);
  }

  lemma LoopKeepsQueue(s: State)
    requires Queue(s) && s.main.GrantLoop?
    ensures Queue(MainNext(s))
  {
    PigeonLength(s.pushed, |s.ws|);
  }

  /** A popped id has no permission yet: ids are distinct and it is not among the granted ones. */
  lemma PoppedIsNew(s: State)
    requires Lives(s) && Queue(s) && Records(s) && s.main.TestProceed?
    ensures !s.ws[s.main.id].toProceed
  {
    var k := |s.granted|;
    assert s.pushed[k] == s.main.id;
    assert forall j :: 0 <= j < k ==> s.pushed[j] == s.granted[j];
    assert RecordOk(s.pushed, s.granted, s.ws[s.main.id], s.main.id);
  }

  lemma MainKeepsQueue(s: State)
    requires Lives(s) && Queue(s) && Records(s) && MainEnabled(s) && MainLegal(s)
    ensures Queue(MainNext(s))
  {
    if s.main.PopNext? && !s.ring.IsEmpty() {
      PopKeepsQueue(s);
    } else if s.main.Grant? {
      GrantKeepsQueue(s);
    } else if s.main.GrantLoop? {
      LoopKeepsQueue(s);
    } else {
      if s.main.TestProceed? {
        PoppedIsNew(s);
      }
      OthersKeepQueue(s);
    }
  }

  lemma OthersKeepQueue(s: State)
    requires Queue(s) && MainEnabled(s) && MainLegal(s)
    requires !s.main.Grant? && !s.main.GrantLoop? && !(s.main.PopNext? && !s.ring.IsEmpty())
    requires s.main.TestProceed? ==> !s.ws[s.main.id].toProceed
    ensures Queue(MainNext(s))
  {
    var t := MainNext(s);
    assert t.ring == s.ring && t.pushed == s.pushed && t.granted == s.granted && t.count == s.count;
    assert Hand(t.main) == Hand(s.main);
    assert (Collecting(t.main) ==> Collecting(s.main)) && (Joining(t.main) ==> Joining(s.main));
  }

  lemma MainKeepsRecordAt(s: State, i: nat)
    requires Lives(s) && Queue(s) && Records(s) && MainEnabled(s) && MainLegal(s) && i < |s.ws|
    ensures RecordOk(MainNext(s).pushed, MainNext(s).granted, MainNext(s).ws[i], i)
  {
    assert RecordOk(s.pushed, s.granted, s.ws[i], i);
    if s.main.Grant? {
      assert s.pushed[|s.granted|] == s.main.id;
      assert i in MainNext(s).granted <==> i in s.granted || i == s.main.id;
    }
  }

  lemma MainKeepsRecords(s: State)
    requires Lives(s) && Queue(s) && Records(s) && MainEnabled(s) && MainLegal(s)
    ensures Records(MainNext(s))
  {
    forall i | 0 <= i < |s.ws| {
      MainKeepsRecordAt(s, i);
    }
  }

  /** A worker that has not pushed yet finds room, so the overflow branch is never taken. */
  lemma RoomToPush(s: State, i: nat)
    requires Queue(s) && Records(s) && i < |s.ws| && !HasPushed(s.ws[i].pc)
    ensures !s.ring.Overflows()
    ensures Distinct(s.pushed + [i]) && Within(s.pushed + [i], |s.ws|)
  {
    assert i !in s.pushed;
    PigeonLength(s.pushed + [i], |s.ws|);
    PushAppends(s.ring, i);
  }

  lemma WorkerKeepsQueue(s: State, i: nat)
    requires Queue(s) && Records(s) && i < |s.ws| && WorkerEnabled(s, i) && WorkerLegal(s, i)
    requires HoldsGlobal(s.ws[i].pc) ==> !MainHoldsGlobal(s.main)
    ensures Queue(WorkerNext(s, i))
  {
    if s.ws[i].pc.PushId? {
      PushKeepsQueue(s, i);
    }
  }

  lemma PushKeepsQueue(s: State, i: nat)
    requires Queue(s) && Records(s) && i < |s.ws| && WorkerLegal(s, i) && s.ws[i].pc.PushId?
    ensures Queue(WorkerNext(s, i))
  {
    RoomToPush(s, i);
    PushAppends(s.ring, i);
    var t := WorkerNext(s, i);
    assert t.granted + Hand(t.main) + t.ring.Contents() == s.granted + Hand(s.main) + s.ring.Contents() + [i];
  }

  lemma WorkerKeepsRecordAt(s: State, i: nat, k: nat)
    requires i < |s.ws| && WorkerEnabled(s, i) && WorkerLegal(s, i)
    requires s.ws[i].pc.PushId? ==> !s.ring.Overflows()
    requires k < |s.ws| && RecordOk(s.pushed, s.granted, s.ws[k], k)
    ensures RecordOk(WorkerNext(s, i).pushed, WorkerNext(s, i).granted, WorkerNext(s, i).ws[k], k)
  {
    assert k in s.pushed + [i] <==> k in s.pushed || k == i;
  }

  lemma WorkerKeepsRecords(s: State, i: nat)
    requires Queue(s) && Records(s) && i < |s.ws| && WorkerEnabled(s, i) && WorkerLegal(s, i)
    ensures Records(WorkerNext(s, i))
  {
    if s.ws[i].pc.PushId? {
      RoomToPush(s, i);
    }
    hide RecordOk, WorkerEnabled, Queue;
    forall k | 0 <= k < |s.ws| {
      WorkerKeepsRecordAt(s, i, k);
    }
  }

  lemma MainKeepsWakeAt(s: State, i: nat)
    requires i < |s.ws| && MainEnabled(s) && MainLegal(s)
    requires LockOk(s.main, s.global, s.ws[i], i) && WakeOk(s.main, s.ws[i], i)
    ensures WakeOk(MainNext(s).main, MainNext(s).ws[i], i)
  {
  }

  lemma MainKeepsOwnWakeup(s: State)
    requires Wakeups(s) && MainEnabled(s) && MainLegal(s)
    ensures var t := MainNext(s);
            && (t.main.CallWait? ==> t.ring.IsEmpty())
            && (t.main.Asleep? ==> t.ring.IsEmpty()) && |t.ws| == |s.ws|
  {
  }

  lemma MainKeepsWakeups(s: State)
    requires Inv(s) && MainEnabled(s) && MainLegal(s)
    ensures Wakeups(MainNext(s))
  {
    MainKeepsOwnWakeup(s);
    hide MainEnabled, MainLegal, LockOk, WakeOk;
    forall i | 0 <= i < |MainNext(s).ws| ensures WakeOk(MainNext(s).main, MainNext(s).ws[i], i) {
      MainKeepsWakeAt(s, i);
    }
  }

  lemma WorkerKeepsWakeups(s: State, i: nat)
    requires Inv(s) && i < |s.ws| && WorkerEnabled(s, i) && WorkerLegal(s, i)
    ensures Wakeups(WorkerNext(s, i))
  {
  }

  lemma MainSpuriousKeepsInv(s: State)
    requires Inv(s) && Enabled(s, MainSpurious)
    ensures Inv(Next(s, MainSpurious))
  {
    forall i | 0 <= i < |s.ws|
      ensures LockOk(Woken, s.global, s.ws[i], i) && LifeOk(Woken, s.ws[i], i) && WakeOk(Woken, s.ws[i], i)
    {
      assert LockOk(s.main, s.global, s.ws[i], i);
      assert LifeOk(s.main, s.ws[i], i);
    }
  }

  lemma WorkerSpuriousKeepsAt(s: State, i: nat, k: nat)
    requires i < |s.ws| && s.ws[i].pc.Sleeping? && k < |s.ws|
    requires LockOk(s.main, s.global, s.ws[k], k) && LifeOk(s.main, s.ws[k], k)
    requires RecordOk(s.pushed, s.granted, s.ws[k], k) && WakeOk(s.main, s.ws[k], k)
    ensures var t := At(s, i, Waking);
            && LockOk(t.main, t.global, t.ws[k], k) && LifeOk(t.main, t.ws[k], k)
            && RecordOk(t.pushed, t.granted, t.ws[k], k) && WakeOk(t.main, t.ws[k], k)
  {
  }

  lemma WorkerSpuriousKeepsInv(s: State, i: nat)
    requires Inv(s) && i < |s.ws| && s.ws[i].pc.Sleeping?
    ensures Inv(At(s, i, Waking))
  {
    SumSame(JoinedBit, s.ws, At(s, i, Waking).ws);
    hide LockOk, LifeOk, RecordOk, WakeOk;
    forall k | 0 <= k < |s.ws| {
      WorkerSpuriousKeepsAt(s, i, k);
    }
  }

  /** Every move keeps the invariant. */
  lemma StepKeepsInv(s: State, m: Move, t: State)
    requires Inv(s) && IsStep(s, m, t)
    ensures Inv(t)
  {
    match m
    case MainMove =>
      MainKeepsLocks(s);
      MainKeepsLives(s);
      MainKeepsQueue(s);
      MainKeepsRecords(s);
      MainKeepsWakeups(s);
    case WorkerMove(i) =>
      WorkerKeepsLocks(s, i);
      WorkerKeepsLives(s, i);
      WorkerKeepsQueue(s, i);
      WorkerKeepsRecords(s, i);
      WorkerKeepsWakeups(s, i);
    case MainSpurious => MainSpuriousKeepsInv(s);
    case WorkerSpurious(i) => WorkerSpuriousKeepsInv(s, i);
  }

  /** The invariant holds at every point of every run. */
  lemma {:induction false} RunInv(n: nat, moves: seq<Move>, states: seq<State>, k: nat)
    requires IsRun(n, moves, states) && k <= |moves|
    ensures Inv(states[k]) && |states[k].ws| == n
  {
    if k == 0 {
      InitialInv(n);
    } else {
      hide Inv, IsStep;
      RunInv(n, moves, states, k - 1);
      assert IsStep(states[k - 1], moves[k - 1], states[k - 1 + 1]);
      StepKeepsInv(states[k - 1], moves[k - 1], states[k]);
    }
  }
}

/** What the workers of 10_9 do to the shared data, seen from outside. */
module ReadyProceedWorkers {
  import opened Runs
  import opened ReadyRing
  import opened ReadyProceed
  import opened ReadyProceedInvariant
  import opened ReadyProceedRaces

  datatype Effect =
    | LocksOwn | RaisesReady | UnlocksOwn | LocksGlobal | Pushes | UnlocksGlobal

  /** What a step of worker `i` changes for others; a wait, which gives the mutex up and takes it again, is left
      out. */
  function WorkerSees(i: nat): (State, Move, State) -> seq<Effect> {
    (s: State, m: Move, t: State) =>
      if i < |s.ws| && i < |t.ws| then
        (if s.ws[i].lock.Free? && t.ws[i].lock == HeldByWorker(i) && !s.ws[i].pc.Waking? then [LocksOwn] else [])
        + (if !s.ws[i].ready && t.ws[i].ready then [RaisesReady] else [])
        + (if s.ws[i].lock == HeldByWorker(i) && t.ws[i].lock.Free? && !t.ws[i].pc.Sleeping? then [UnlocksOwn] else [])
        + (if s.global.Free? && t.global == HeldByWorker(i) then [LocksGlobal] else [])
        + (if t.pushed == s.pushed + [i] && t.ring != s.ring then [Pushes] else [])
        + (if s.global == HeldByWorker(i) && t.global.Free? then [UnlocksGlobal] else [])
      else []
  }

  function OfWorker(i: nat): Move -> bool {
    (m: Move) => m == WorkerMove(i)
  }

  /** Lines 164-182. */
  const WORKER_PROGRAM := [LocksOwn, RaisesReady, UnlocksOwn, LocksGlobal, Pushes, UnlocksGlobal, LocksOwn, UnlocksOwn]

  /** How much of it is done. */
  function WorkerDone(pc: WorkerPC): (d: nat)
    ensures d <= |WORKER_PROGRAM|
  {
    match pc
    case Unborn => 0
    case LockReady => 0
    case SetReady => 1
    case SignalReady => 2
    case UnlockReady => 2
    case LockPush => 3
    case PushId => 4
    case SignalMain => 5
    case UnlockPush => 5
    case LockGo => 6
    case Leaving => 8
    case Gone => 8
    case _ => 7
  }

  /** A push changes the ring. */
  lemma PushShows(r: Ring, id: int)
    requires r.Valid() && !r.Overflows()
    ensures r.Push(id) != r
  {
    PushAppends(r, id);
  }

  /** What the mutexes and the flag of worker `i` allow its step to show. */
  ghost predicate Situated(s: State, i: nat) {
    && i < |s.ws|
    && (s.global == HeldByWorker(i) <==> HoldsGlobal(s.ws[i].pc))
    && (s.ws[i].lock == HeldByWorker(i) <==> HoldsOwn(s.ws[i].pc))
    && (s.ws[i].pc.SetReady? ==> !s.ws[i].ready)
    && (s.ws[i].pc.PushId? ==> s.ring.Valid() && !s.ring.Overflows() && s.ring.Push(i) != s.ring)
  }

  lemma InvSituated(s: State, i: nat)
    requires Inv(s) && i < |s.ws|
    ensures Situated(s, i)
  {
    assert LockOk(s.main, s.global, s.ws[i], i) && RecordOk(s.pushed, s.granted, s.ws[i], i);
    if s.ws[i].pc.PushId? {
      RoomToPush(s, i);
      PushShows(s.ring, i);
    }
  }

  predicate InReport(pc: WorkerPC) {
    pc.LockReady? || pc.SetReady? || pc.SignalReady? || pc.UnlockReady?
  }

  predicate InLeave(pc: WorkerPC) {
    pc.UnlockGo? || pc.Leaving? || pc.LockGo?
  }

  /** A step shows the next effect of the program or nothing. */
  lemma PushPart(s: State, i: nat)
    requires Situated(s, i) && WorkerEnabled(s, i) && WorkerLegal(s, i) && InPush(s.ws[i].pc)
    ensures var t, d := WorkerNext(s, i), WorkerDone(s.ws[i].pc);
            && |t.ws| == |s.ws|
            && (WorkerDone(t.ws[i].pc) == d || WorkerDone(t.ws[i].pc) == d + 1 <= 8)
            && WorkerSees(i)(s, WorkerMove(i), t) == WORKER_PROGRAM[d..WorkerDone(t.ws[i].pc)]
  {
  }

  lemma ReportPart(s: State, i: nat)
    requires Situated(s, i) && WorkerEnabled(s, i) && WorkerLegal(s, i) && InReport(s.ws[i].pc)
    ensures var t, d := WorkerNext(s, i), WorkerDone(s.ws[i].pc);
            && |t.ws| == |s.ws|
            && (WorkerDone(t.ws[i].pc) == d || WorkerDone(t.ws[i].pc) == d + 1 <= 8)
            && WorkerSees(i)(s, WorkerMove(i), t) == WORKER_PROGRAM[d..WorkerDone(t.ws[i].pc)]
  {
  }

  lemma LeavePart(s: State, i: nat)
    requires Situated(s, i) && WorkerEnabled(s, i) && WorkerLegal(s, i) && InLeave(s.ws[i].pc)
    ensures var t, d := WorkerNext(s, i), WorkerDone(s.ws[i].pc);
            && |t.ws| == |s.ws|
            && (WorkerDone(t.ws[i].pc) == d || WorkerDone(t.ws[i].pc) == d + 1 <= 8)
            && WorkerSees(i)(s, WorkerMove(i), t) == WORKER_PROGRAM[d..WorkerDone(t.ws[i].pc)]
  {
  }

  lemma WaitPart(s: State, i: nat)
    requires Situated(s, i) && WorkerEnabled(s, i) && WorkerLegal(s, i)
    requires !InPush(s.ws[i].pc) && !InReport(s.ws[i].pc) && !InLeave(s.ws[i].pc)
    ensures var t, d := WorkerNext(s, i), WorkerDone(s.ws[i].pc);
            && |t.ws| == |s.ws|
            && (WorkerDone(t.ws[i].pc) == d || WorkerDone(t.ws[i].pc) == d + 1 <= 8)
            && WorkerSees(i)(s, WorkerMove(i), t) == WORKER_PROGRAM[d..WorkerDone(t.ws[i].pc)]
  {
  }

  lemma MainLeavesWorkers(s: State, i: nat)
    requires MainEnabled(s) && MainLegal(s) && i < |s.ws|
    ensures |MainNext(s).ws| == |s.ws| && WorkerDone(MainNext(s).ws[i].pc) == WorkerDone(s.ws[i].pc)
  {
  }

  lemma OtherStep(s: State, m: Move, t: State, i: nat)
    requires IsStep(s, m, t) && i < |s.ws| && m != WorkerMove(i)
    ensures |t.ws| == |s.ws| && WorkerDone(t.ws[i].pc) == WorkerDone(s.ws[i].pc)
  {
    match m
    case MainMove => MainLeavesWorkers(s, i);
    case WorkerMove(j) => WorkerTouchesItself(s, j);
    case _ =>
  }

  lemma AnyStep(s: State, m: Move, t: State, i: nat)
    requires Inv(s) && IsStep(s, m, t) && i < |s.ws| == |t.ws|
    ensures WORKER_PROGRAM[..WorkerDone(t.ws[i].pc)]
            == WORKER_PROGRAM[..WorkerDone(s.ws[i].pc)] + if OfWorker(i)(m) then WorkerSees(i)(s, m, t) else []
  {
    hide Inv, Situated, WorkerSees, WorkerNext;
    if m == WorkerMove(i) {
      InvSituated(s, i);
      if InPush(s.ws[i].pc) {
        PushPart(s, i);
      } else {
        if InReport(s.ws[i].pc) {
          ReportPart(s, i);
        } else if InLeave(s.ws[i].pc) {
          LeavePart(s, i);
        } else {
          WaitPart(s, i);
        }
      }
      hide WorkerDone;
    } else {
      OtherStep(s, m, t, i);
    }
  }

  lemma AllDone(pc: WorkerPC)
    ensures pc.Gone? ==> WORKER_PROGRAM[..WorkerDone(pc)] == WORKER_PROGRAM
  {
  }

  /** In every run every worker does what its program says, in that order, and all of it before it is gone: lock its
      mutex, report ready, unlock, lock the global mutex, push its id, unlock, and lock and unlock its own mutex around
      its wait. */
  lemma {:induction false} WorkersFollowProgram(n: nat, moves: seq<Move>, states: seq<State>, k: nat, i: nat)
    requires IsRun(n, moves, states) && k <= |moves| && i < n
    ensures |states[k].ws| == n
    ensures var trace, pc := Trace(OfWorker(i), WorkerSees(i), moves, states, k), states[k].ws[i].pc;
            trace == WORKER_PROGRAM[..WorkerDone(pc)] && (pc.Gone? ==> trace == WORKER_PROGRAM)
  {
    RunInv(n, moves, states, k);
    AllDone(states[k].ws[i].pc);
    if k == 0 {
    } else {
      hide Inv, IsStep, WorkerSees, WorkerDone;
      WorkersFollowProgram(n, moves, states, k - 1, i);
      RunInv(n, moves, states, k - 1);
      assert IsStep(states[k - 1], moves[k - 1], states[k - 1 + 1]);
      AnyStep(states[k - 1], moves[k - 1], states[k], i);
    }
  }
}

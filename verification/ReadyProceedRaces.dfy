/** No data race in 10_9: flags and queue are read and written under their mutex only. */
module ReadyProceedRaces {
  import opened ReadyRing
  import opened ReadyProceed
  import opened ReadyProceedInvariant

  /** The agent of the move holds the mutex of worker `i`. */
  predicate HoldsOwnOf(s: State, m: Move, i: nat)
    requires i < |s.ws|
  {
    (m.MainMove? && s.ws[i].lock.HeldByMain?) || (m.WorkerMove? && s.ws[i].lock == HeldByWorker(m.i))
  }

  predicate HoldsGlobalOf(s: State, m: Move) {
    (m.MainMove? && s.global.HeldByMain?) || (m.WorkerMove? && s.global == HeldByWorker(m.i))
  }

  /** The state with other flags of worker `i`. */
  function WithFlags(s: State, i: nat, ready: bool, toProceed: bool): State
    requires i < |s.ws|
  {
    s.(ws := s.ws[i := s.ws[i].(ready := ready, toProceed := toProceed)])
  }

  /** The worker that a step of main changes, or none. */
  function Touched(s: State): int {
    match s.main
    case Creating(i) => i
    case LockOwn(id) => id
    case Grant(id) => id
    case SignalGrant(id) => if 0 <= id < |s.ws| && s.ws[id].pc.Sleeping? then id else -1
    case ReleaseOwn(id) => id
    case Cleanup(i) => i
    case DestroyMutex(i) => i
    case DestroyCondTo(i) => i
    case DestroyCondFrom(i) => i
    case _ => -1
  }

  /** Main changes one worker at most. */
  lemma TouchesOne(s: State)
    requires MainEnabled(s) && MainLegal(s)
    ensures |MainNext(s).ws| == |s.ws|
    ensures var j := Touched(s);
            MainNext(s).ws == if 0 <= j < |s.ws| then s.ws[j := MainNext(s).ws[j]] else s.ws
  {
  }

  /** Apart from that worker, what main does depends on flags of worker `i` only if it holds its mutex. */
  lemma MainIgnoresRest(s: State, i: nat, ready: bool, toProceed: bool)
    requires i < |s.ws| && !s.ws[i].pc.Unborn? && MainEnabled(s) && MainLegal(s)
    requires LockOk(s.main, s.global, s.ws[i], i) && !s.ws[i].lock.HeldByMain?
    ensures var u := WithFlags(s, i, ready, toProceed);
            && MainEnabled(u) && MainLegal(u) && Touched(u) == Touched(s)
            && MainNext(u).(ws := s.ws) == MainNext(s).(ws := s.ws)
  {
  }

  lemma MainIgnoresOther(s: State, i: nat, ready: bool, toProceed: bool)
    requires i < |s.ws| && MainEnabled(s) && MainLegal(s) && 0 <= Touched(s) < |s.ws| && Touched(s) != i
    requires MainEnabled(WithFlags(s, i, ready, toProceed)) && MainLegal(WithFlags(s, i, ready, toProceed))
    ensures var u, j := WithFlags(s, i, ready, toProceed), Touched(s);
            |MainNext(u).ws| == |MainNext(s).ws| == |s.ws| && MainNext(u).ws[j] == MainNext(s).ws[j]
  {
    assert WithFlags(s, i, ready, toProceed).ws[Touched(s)] == s.ws[Touched(s)];
  }

  lemma MainIgnoresSame(s: State, i: nat, ready: bool, toProceed: bool)
    requires i < |s.ws| && !s.ws[i].pc.Unborn? && MainEnabled(s) && MainLegal(s)
    requires LockOk(s.main, s.global, s.ws[i], i) && !s.ws[i].lock.HeldByMain?
    requires MainEnabled(WithFlags(s, i, ready, toProceed)) && MainLegal(WithFlags(s, i, ready, toProceed))
    requires Touched(s) == i
    ensures var u := WithFlags(s, i, ready, toProceed);
            && |MainNext(u).ws| == |MainNext(s).ws| == |s.ws|
            && MainNext(u).ws[i] == MainNext(s).ws[i].(ready := ready, toProceed := toProceed)
  {
    assert s.main.LockOwn? || s.main.Cleanup? || s.main.DestroyMutex? || s.main.DestroyCondTo?
           || s.main.DestroyCondFrom?;
  }

  /** Updates of a sequence at one place or two, in either order. */
  lemma UpdatesCommute(ws: seq<Worker>, i: nat, v: Worker, j: nat, w: Worker)
    requires i < |ws| && j < |ws|
    ensures i != j ==> ws[i := v][j := w] == ws[j := w][i := v]
    ensures ws[i := v][i := w] == ws[i := w]
  {
  }

  lemma MainIgnoresFlags(s: State, i: nat, ready: bool, toProceed: bool)
    requires i < |s.ws| && !s.ws[i].pc.Unborn? && MainEnabled(s) && MainLegal(s)
    requires LockOk(s.main, s.global, s.ws[i], i) && !s.ws[i].lock.HeldByMain?
    ensures var u := WithFlags(s, i, ready, toProceed);
            MainEnabled(u) && MainLegal(u) && |MainNext(s).ws| == |s.ws|
            && MainNext(u) == WithFlags(MainNext(s), i, ready, toProceed)
  {
    var u, j := WithFlags(s, i, ready, toProceed), Touched(s);
    MainIgnoresRest(s, i, ready, toProceed);
    TouchesOne(s);
    TouchesOne(u);
    if 0 <= j < |s.ws| {
      if j == i {
        MainIgnoresSame(s, i, ready, toProceed);
      } else {
        MainIgnoresOther(s, i, ready, toProceed);
      }
      UpdatesCommute(s.ws, i, u.ws[i], j, MainNext(u).ws[j]);
      UpdatesCommute(s.ws, i, MainNext(s).ws[j], i, MainNext(u).ws[i]);
    }
    hide MainNext, MainEnabled, MainLegal, LockOk, Touched;
    assert MainNext(u).ws == WithFlags(MainNext(s), i, ready, toProceed).ws;
  }

  lemma WorkerTouchesItself(s: State, j: nat)
    requires j < |s.ws| && WorkerEnabled(s, j) && WorkerLegal(s, j)
    ensures |WorkerNext(s, j).ws| == |s.ws| && WorkerNext(s, j).ws == s.ws[j := WorkerNext(s, j).ws[j]]
  {
  }

  lemma WorkerIgnoresRest(s: State, j: nat, i: nat, ready: bool, toProceed: bool)
    requires i < |s.ws| && j < |s.ws| && WorkerEnabled(s, j) && WorkerLegal(s, j)
    requires LockOk(s.main, s.global, s.ws[j], j) && s.ws[i].lock != HeldByWorker(j)
    ensures var u := WithFlags(s, i, ready, toProceed);
            && WorkerEnabled(u, j) && WorkerLegal(u, j)
            && WorkerNext(u, j).(ws := s.ws) == WorkerNext(s, j).(ws := s.ws)
  {
    var u := WithFlags(s, i, ready, toProceed);
    assert u.ws[j].pc == s.ws[j].pc && u.ws[j].lock == s.ws[j].lock && (Alive(u.ws[j]) <==> Alive(s.ws[j]));
  }

  lemma WorkerIgnoresOther(s: State, j: nat, i: nat, ready: bool, toProceed: bool)
    requires i < |s.ws| && j < |s.ws| && WorkerEnabled(s, j) && WorkerLegal(s, j) && i != j
    requires WorkerEnabled(WithFlags(s, i, ready, toProceed), j) && WorkerLegal(WithFlags(s, i, ready, toProceed), j)
    ensures var u := WithFlags(s, i, ready, toProceed);
            |WorkerNext(u, j).ws| == |WorkerNext(s, j).ws| == |s.ws| && WorkerNext(u, j).ws[j] == WorkerNext(s, j).ws[j]
  {
    assert WithFlags(s, i, ready, toProceed).ws[j] == s.ws[j];
  }

  predicate InPush(pc: WorkerPC) {
    pc.LockPush? || pc.PushId? || pc.SignalMain? || pc.UnlockPush?
  }

  function AfterPush(pc: WorkerPC): WorkerPC {
    if pc.LockPush? then PushId else if pc.PushId? then SignalMain else if pc.SignalMain? then UnlockPush else LockGo
  }

  lemma PusherMovesOn(s: State, j: nat)
    requires j < |s.ws| && WorkerEnabled(s, j) && WorkerLegal(s, j) && InPush(s.ws[j].pc)
    ensures WorkerNext(s, j).ws == s.ws[j := s.ws[j].(pc := AfterPush(s.ws[j].pc))]
  {
  }

  lemma PusherIgnoresOwn(s: State, j: nat, ready: bool, toProceed: bool)
    requires j < |s.ws| && WorkerEnabled(s, j) && WorkerLegal(s, j) && InPush(s.ws[j].pc)
    requires WorkerEnabled(WithFlags(s, j, ready, toProceed), j) && WorkerLegal(WithFlags(s, j, ready, toProceed), j)
    ensures var u := WithFlags(s, j, ready, toProceed);
            && |WorkerNext(u, j).ws| == |WorkerNext(s, j).ws| == |s.ws|
            && WorkerNext(u, j).ws[j] == WorkerNext(s, j).ws[j].(ready := ready, toProceed := toProceed)
  {
    PusherMovesOn(s, j);
    PusherMovesOn(WithFlags(s, j, ready, toProceed), j);
    hide WorkerNext;
  }

  lemma WorkerIgnoresOwn(s: State, j: nat, ready: bool, toProceed: bool)
    requires j < |s.ws| && WorkerEnabled(s, j) && WorkerLegal(s, j) && !HoldsOwn(s.ws[j].pc)
    requires WorkerEnabled(WithFlags(s, j, ready, toProceed), j) && WorkerLegal(WithFlags(s, j, ready, toProceed), j)
    ensures var u := WithFlags(s, j, ready, toProceed);
            && |WorkerNext(u, j).ws| == |WorkerNext(s, j).ws| == |s.ws|
            && WorkerNext(u, j).ws[j] == WorkerNext(s, j).ws[j].(ready := ready, toProceed := toProceed)
  {
    if InPush(s.ws[j].pc) {
      PusherIgnoresOwn(s, j, ready, toProceed);
    } else {
      assert s.ws[j].pc.LockReady? || s.ws[j].pc.LockGo? || s.ws[j].pc.Waking? || s.ws[j].pc.Leaving?;
    }
  }

  lemma WorkerIgnoresFlags(s: State, j: nat, i: nat, ready: bool, toProceed: bool)
    requires i < |s.ws| && j < |s.ws| && WorkerEnabled(s, j) && WorkerLegal(s, j)
    requires LockOk(s.main, s.global, s.ws[j], j) && s.ws[i].lock != HeldByWorker(j)
    ensures var u := WithFlags(s, i, ready, toProceed);
            WorkerEnabled(u, j) && WorkerLegal(u, j) && |WorkerNext(s, j).ws| == |s.ws|
            && WorkerNext(u, j) == WithFlags(WorkerNext(s, j), i, ready, toProceed)
  {
    var u := WithFlags(s, i, ready, toProceed);
    WorkerIgnoresRest(s, j, i, ready, toProceed);
    if i == j {
      WorkerIgnoresOwn(s, j, ready, toProceed);
    } else {
      WorkerIgnoresOther(s, j, i, ready, toProceed);
    }
    WorkerTouchesItself(s, j);
    WorkerTouchesItself(u, j);
    UpdatesCommute(s.ws, i, u.ws[i], j, WorkerNext(u, j).ws[j]);
    UpdatesCommute(s.ws, i, WorkerNext(s, j).ws[j], i, WorkerNext(u, j).ws[i]);
    hide WorkerNext, WorkerEnabled, WorkerLegal, LockOk;
    assert WorkerNext(u, j).ws == WithFlags(WorkerNext(s, j), i, ready, toProceed).ws;
  }

  /** In every run a step whose agent does not hold the mutex of a started worker neither reads nor writes its flags:
      with other flags it is possible just the same and has the same effect. */
  lemma FlagsOnlyUnderMutex(n: nat, moves: seq<Move>, states: seq<State>, k: nat, m: Move,
                            i: nat, ready: bool, toProceed: bool)
    requires IsRun(n, moves, states) && k <= |moves| && Enabled(states[k], m)
    requires i < |states[k].ws| && !states[k].ws[i].pc.Unborn? && !HoldsOwnOf(states[k], m, i)
    ensures var s, u := states[k], WithFlags(states[k], i, ready, toProceed);
            && Enabled(u, m) && Legal(s, m) && Legal(u, m) && |Next(s, m).ws| == |s.ws|
            && Next(u, m) == WithFlags(Next(s, m), i, ready, toProceed)
  {
    RunInv(n, moves, states, k);
    var s, u := states[k], WithFlags(states[k], i, ready, toProceed);
    InvLegal(s, m);
    assert LockOk(s.main, s.global, s.ws[i], i);
    match m
    case MainMove => MainIgnoresFlags(s, i, ready, toProceed);
    case WorkerMove(j) =>
      assert LockOk(s.main, s.global, s.ws[j], j);
      WorkerIgnoresFlags(s, j, i, ready, toProceed);
    case MainSpurious =>
    case WorkerSpurious(j) =>
      assert Next(u, m).ws == WithFlags(Next(s, m), i, ready, toProceed).ws;
  }

  /** The same for the queue and the global mutex. */
  lemma QueueOnlyUnderMutex(n: nat, moves: seq<Move>, states: seq<State>, k: nat, m: Move, ring: Ring)
    requires IsRun(n, moves, states) && k <= |moves| && Enabled(states[k], m) && !HoldsGlobalOf(states[k], m)
    ensures var s, u := states[k], states[k].(ring := ring);
            && Enabled(u, m) && Legal(s, m) && Legal(u, m)
            && Next(u, m) == Next(s, m).(ring := ring)
  {
    RunInv(n, moves, states, k);
    var s := states[k];
    InvLegal(s, m);
    match m
    case MainMove => MainIgnoresQueue(s, ring);
    case WorkerMove(j) =>
      assert LockOk(s.main, s.global, s.ws[j], j);
      WorkerIgnoresQueue(s, j, ring);
    case _ =>
  }

  lemma MainIgnoresQueue(s: State, ring: Ring)
    requires MainEnabled(s) && MainLegal(s) && !s.global.HeldByMain?
    ensures var u := s.(ring := ring);
            MainEnabled(u) && MainLegal(u) && MainNext(u) == MainNext(s).(ring := ring)
  {
  }

  lemma WorkerIgnoresQueue(s: State, j: nat, ring: Ring)
    requires j < |s.ws| && WorkerEnabled(s, j) && WorkerLegal(s, j) && s.global != HeldByWorker(j)
    ensures var u := s.(ring := ring);
            WorkerEnabled(u, j) && WorkerLegal(u, j) && WorkerNext(u, j) == WorkerNext(s, j).(ring := ring)
  {
  }

  /** A worker gets past its wait only while it holds its mutex and has permission. */
  lemma PassesWithPermission(n: nat, moves: seq<Move>, states: seq<State>, k: nat, i: nat)
    requires IsRun(n, moves, states) && k < |moves| && i < n
    ensures |states[k].ws| == |states[k + 1].ws| == n
    ensures !PastGo(states[k].ws[i].pc) && PastGo(states[k + 1].ws[i].pc) ==>
              states[k].ws[i].lock == HeldByWorker(i) && states[k].ws[i].toProceed
  {
    RunInv(n, moves, states, k);
    RunInv(n, moves, states, k + 1);
    var s, m, t := states[k], moves[k], states[k + 1];
    assert IsStep(s, m, t);
    assert LockOk(s.main, s.global, s.ws[i], i);
    hide IsRun;
    StepPasses(s, m, t, i);
  }

  lemma StepPasses(s: State, m: Move, t: State, i: nat)
    requires IsStep(s, m, t) && i < |s.ws| == |t.ws| && LockOk(s.main, s.global, s.ws[i], i)
    ensures !PastGo(s.ws[i].pc) && PastGo(t.ws[i].pc) ==> s.ws[i].lock == HeldByWorker(i) && s.ws[i].toProceed
  {
    if m != WorkerMove(i) {
      SamePast(s, m, t, i);
    }
  }

  lemma SamePast(s: State, m: Move, t: State, i: nat)
    requires IsStep(s, m, t) && i < |s.ws| && m != WorkerMove(i)
    ensures |t.ws| == |s.ws| && (PastGo(t.ws[i].pc) ==> PastGo(s.ws[i].pc))
  {
    match m
    case MainMove => TouchesOne(s);
    case WorkerMove(j) => WorkerTouchesItself(s, j);
    case _ =>
  }

  // ----- One thing at a time -----

  /** A step of a worker changes its own mutex, or the global one, or its flags, or the queue, or it wakes main. */
  lemma WorkerOneThing(s: State, j: nat)
    requires j < |s.ws| && WorkerEnabled(s, j) && WorkerLegal(s, j)
    ensures var t := WorkerNext(s, j);
            && |t.ws| == |s.ws|
            && (if t.global != s.global then 1 else 0) + (if t.ring != s.ring then 1 else 0)
               + (if t.ws[j].lock != s.ws[j].lock then 1 else 0) + (if t.ws[j].ready != s.ws[j].ready then 1 else 0)
               + (if t.ws[j].toProceed != s.ws[j].toProceed then 1 else 0) + (if t.main != s.main then 1 else 0) <= 1
  {
  }

  /** A step of main, once the workers are made, changes the global mutex, or the queue, or one worker: its mutex,
      or its permission, or its handle, or one of its primitives, or it wakes it. */
  lemma MainOneThing(s: State)
    requires MainEnabled(s) && MainLegal(s) && !s.main.Creating?
    ensures var t, j := MainNext(s), Touched(s);
            && |t.ws| == |s.ws|
            && (if t.global != s.global then 1 else 0) + (if t.ring != s.ring then 1 else 0)
               + (if t.ws != s.ws then 1 else 0) <= 1
            && (0 <= j < |s.ws| ==>
                  var v, w := s.ws[j], t.ws[j];
                  (if w.lock != v.lock then 1 else 0) + (if w.toProceed != v.toProceed then 1 else 0)
                  + (if w.joined != v.joined then 1 else 0) + (if w.pc != v.pc then 1 else 0)
                  + (w.mutexDestroys - v.mutexDestroys) + (w.condToDestroys - v.condToDestroys)
                  + (w.condFromDestroys - v.condFromDestroys) <= 1)
  {
  }
}

/** What main of 10_9 does to the shared data, seen from outside. */
module ReadyProceedMain {
  import opened Runs
  import opened ReadyRing
  import opened ReadyProceed
  import opened ReadyProceedInvariant
  import opened ReadyProceedRaces

  datatype MainEffect =
    | Creates(i: nat) | TakesGlobal | GivesGlobal(empty: bool) | Pops(id: int)
    | TakesOwn(i: nat) | Grants(i: nat) | GivesOwn(i: nat)
    | Joins(i: nat) | DestroysMutex(i: nat) | DestroysCondTo(i: nat) | DestroysCondFrom(i: nat)

  /** What one step changes about worker `i`, apart from waking it. */
  function SeesWorker(i: nat, v: Worker, w: Worker): seq<MainEffect> {
    (if v.pc.Unborn? && !w.pc.Unborn? then [Creates(i)] else [])
    + (if v.lock.Free? && w.lock.HeldByMain? then [TakesOwn(i)] else [])
    + (if !v.toProceed && w.toProceed then [Grants(i)] else [])
    + (if v.lock.HeldByMain? && w.lock.Free? then [GivesOwn(i)] else [])
    + (if !v.joined && w.joined then [Joins(i)] else [])
    + (if w.mutexDestroys > v.mutexDestroys then [DestroysMutex(i)] else [])
    + (if w.condToDestroys > v.condToDestroys then [DestroysCondTo(i)] else [])
    + (if w.condFromDestroys > v.condFromDestroys then [DestroysCondFrom(i)] else [])
  }

  function SeesWorkers(vs: seq<Worker>, ws: seq<Worker>): seq<MainEffect>
  {
    if vs == [] || |vs| != |ws| then []
    else SeesWorkers(vs[..|vs| - 1], ws[..|vs| - 1]) + SeesWorker(|vs| - 1, vs[|vs| - 1], ws[|vs| - 1])
  }

  /** What a step of main changes for others; a wait is left out. Giving the global mutex up tells whether the queue was
      empty. */
  function MainSees(s: State, m: Move, t: State): seq<MainEffect> {
    (if s.global.Free? && t.global.HeldByMain? && !s.main.Woken? then [TakesGlobal] else [])
    + (if t.ring != s.ring && s.ring.head < |s.ring.buf| then [Pops(s.ring.buf[s.ring.head])] else [])
    + SeesWorkers(s.ws, t.ws)
    + (if s.global.HeldByMain? && t.global.Free? && !t.main.Asleep? then [GivesGlobal(s.ring.IsEmpty())] else [])
  }

  function OfMain(m: Move): bool {
    m.MainMove?
  }

  /** Where main is in its program, as its effects tell: creating the workers in order; outside; inside the global mutex
      and whether it has taken an id since it got there from outside; with an id in hand before and after giving the
      global mutex up; at that worker before and after the grant; on the way back; or taking a worker down. */
  datatype Phase =
    | Making(i: nat) | Outside | Inside(popped: bool) | Hand(id: int) | Going(id: int)
    | Visiting(id: int) | Granted(id: int) | Back
    | Joined(i: nat) | WithoutMutex(i: nat) | WithoutCondTo(i: nat) | Wrong

  function Made(n: nat, i: nat): Phase {
    if i < n then Making(i) else Outside
  }

  /** Lines 68-132 as a reference: which effect may follow. Main leaves the global mutex only with an id in hand or with
      the queue empty after at least one visit. */
  function Follows(n: nat, p: Phase, e: MainEffect): Phase {
    match p
    case Making(i) => if e == Creates(i) then Made(n, i + 1) else Wrong
    case Outside => if e == TakesGlobal then Inside(false) else if e.Joins? then Joined(e.i) else Wrong
    case Inside(popped) =>
      if e.Pops? then Hand(e.id) else if e == GivesGlobal(true) && popped then Outside else Wrong
    case Hand(id) => if e.GivesGlobal? then Going(id) else Wrong
    case Going(id) => if e.TakesOwn? && e.i == id then Visiting(id) else Wrong
    case Visiting(id) => if e.Grants? && e.i == id then Granted(id) else Wrong
    case Granted(id) => if e.GivesOwn? && e.i == id then Back else Wrong
    case Back => if e == TakesGlobal then Inside(true) else Wrong
    case Joined(i) => if e == DestroysMutex(i) then WithoutMutex(i) else Wrong
    case WithoutMutex(i) => if e == DestroysCondTo(i) then WithoutCondTo(i) else Wrong
    case WithoutCondTo(i) => if e == DestroysCondFrom(i) then Outside else Wrong
    case Wrong => Wrong
  }

  function PhaseAfter(n: nat, trace: seq<MainEffect>): Phase {
    if trace == [] then Made(n, 0) else Follows(n, PhaseAfter(n, trace[..|trace| - 1]), trace[|trace| - 1])
  }

  /** The phase that belongs to main's program counter. */
  predicate Fits(s: State, p: Phase) {
    match s.main
    case Creating(i) => p == Made(|s.ws|, i)
    case CheckEmpty => p == Inside(false)
    case CallWait => p == Inside(false)
    case Asleep => p == Inside(false)
    case Woken => p == Inside(false)
    case PopNext => p == Inside(true) || (p == Inside(false) && !s.ring.IsEmpty())
    case ReleaseGlobal(id) => p == Hand(id)
    case LockOwn(id) => p == Going(id)
    case TestProceed(id) => p == Visiting(id)
    case Grant(id) => p == Visiting(id)
    case SignalGrant(id) => p == Granted(id)
    case ReleaseOwn(id) => p == Granted(id)
    case RelockGlobal => p == Back
    case LeaveGlobal => p == Inside(true) && s.ring.IsEmpty()
    case DestroyMutex(i) => p == Joined(i)
    case DestroyCondTo(i) => p == WithoutMutex(i)
    case DestroyCondFrom(i) => p == WithoutCondTo(i)
    case _ => p == Outside
  }

  lemma SeesSame(i: nat, w: Worker)
    ensures SeesWorker(i, w, w) == []
  {
  }

  lemma {:induction false} SeesNothing(ws: seq<Worker>)
    ensures SeesWorkers(ws, ws) == []
  {
    if ws == [] {
    } else {
      SeesNothing(ws[..|ws| - 1]);
      SeesSame(|ws| - 1, ws[|ws| - 1]);
    }
  }

  lemma {:induction false} SeesOne(ws: seq<Worker>, i: nat, w: Worker)
    requires i < |ws|
    ensures SeesWorkers(ws, ws[i := w]) == SeesWorker(i, ws[i], w)
  {
    hide SeesWorker;
    var last := |ws| - 1;
    if i == last {
      assert ws[i := w][..last] == ws[..last];
      SeesNothing(ws[..last]);
    } else {
      assert ws[i := w][..last] == ws[..last][i := w];
      SeesOne(ws[..last], i, w);
      SeesSame(last, ws[last]);
    }
  }

  /** A step of main shows the changes of the one worker it touches. */
  lemma SeesTouched(s: State)
    requires MainEnabled(s) && MainLegal(s)
    ensures |MainNext(s).ws| == |s.ws|
    ensures var j := Touched(s);
            SeesWorkers(s.ws, MainNext(s).ws)
            == if 0 <= j < |s.ws| then SeesWorker(j, s.ws[j], MainNext(s).ws[j]) else []
  {
    TouchesOne(s);
    var j := Touched(s);
    hide SeesWorker, SeesWorkers, MainNext, Touched;
    SeesNothing(s.ws);
    if 0 <= j < |s.ws| {
      SeesOne(s.ws, j, MainNext(s).ws[j]);
    }
  }

  /** What mutexes, flags and life cycle allow main's step to show. */
  ghost predicate Situated(s: State) {
    && (s.global.HeldByMain? <==> MainHoldsGlobal(s.main))
    && MainInRange(s.main, |s.ws|)
    && (s.main.TestProceed? || s.main.Grant? ==> !s.ws[s.main.id].toProceed)
    && (s.main.PopNext? ==> s.ring.Valid() && |s.ring.buf| == |s.ws| + 1)
    && (var j := Touched(s);
        0 <= j < |s.ws| ==>
          && (s.ws[j].lock.HeldByMain? <==> MainHoldsOwn(s.main, j))
          && LifeOk(s.main, s.ws[j], j))
  }

  /** Whoever main is about to grant has no permission yet. */
  lemma HandIsNew(s: State)
    requires Lives(s) && Queue(s) && Records(s) && (s.main.TestProceed? || s.main.Grant?)
    ensures !s.ws[s.main.id].toProceed
  {
    var k := |s.granted|;
    assert s.pushed[k] == s.main.id;
    assert forall j :: 0 <= j < k ==> s.pushed[j] == s.granted[j];
    assert RecordOk(s.pushed, s.granted, s.ws[s.main.id], s.main.id);
  }

  lemma InvSituated(s: State)
    requires Inv(s)
    ensures Situated(s)
  {
    if s.main.TestProceed? || s.main.Grant? {
      HandIsNew(s);
    }
    var j := Touched(s);
    if 0 <= j < |s.ws| {
      assert LockOk(s.main, s.global, s.ws[j], j) && LifeOk(s.main, s.ws[j], j);
    }
  }

  /** A step shows nothing and keeps the phase, or shows the effect that the program has next. */
  predicate Tells(s: State, p: Phase, t: State, shown: seq<MainEffect>) {
    if shown == [] then Fits(t, p) else |shown| == 1 && Fits(t, Follows(|s.ws|, p, shown[0]))
  }

  /** Steps that touch no worker, inside the global mutex. */
  lemma InsideStep(s: State, p: Phase)
    requires MainEnabled(s) && MainLegal(s) && Situated(s) && Fits(s, p) && MainHoldsGlobal(s.main)
    requires !(0 <= Touched(s) < |s.ws|) && SeesWorkers(s.ws, MainNext(s).ws) == []
    ensures Tells(s, p, MainNext(s), MainSees(s, MainMove, MainNext(s)))
  {
    hide SeesWorkers;
  }

  /** Steps that touch no worker, outside it. */
  lemma OutsideStep(s: State, p: Phase)
    requires MainEnabled(s) && MainLegal(s) && Situated(s) && Fits(s, p) && !MainHoldsGlobal(s.main)
    requires !(0 <= Touched(s) < |s.ws|) && SeesWorkers(s.ws, MainNext(s).ws) == []
    ensures Tells(s, p, MainNext(s), MainSees(s, MainMove, MainNext(s)))
  {
    hide SeesWorkers;
  }

  /** Steps that create or visit a worker. */
  lemma VisitStep(s: State, p: Phase)
    requires MainEnabled(s) && MainLegal(s) && Situated(s) && Fits(s, p) && 0 <= Touched(s) < |s.ws|
    requires |MainNext(s).ws| == |s.ws| && !Joining(s.main)
    requires var j := Touched(s); SeesWorkers(s.ws, MainNext(s).ws) == SeesWorker(j, s.ws[j], MainNext(s).ws[j])
    ensures Tells(s, p, MainNext(s), MainSees(s, MainMove, MainNext(s)))
  {
    hide SeesWorkers;
  }

  /** Steps that join a worker or destroy its primitives. */
  lemma TeardownStep(s: State, p: Phase)
    requires MainEnabled(s) && MainLegal(s) && Situated(s) && Fits(s, p) && 0 <= Touched(s) < |s.ws|
    requires |MainNext(s).ws| == |s.ws| && Joining(s.main)
    requires var j := Touched(s); SeesWorkers(s.ws, MainNext(s).ws) == SeesWorker(j, s.ws[j], MainNext(s).ws[j])
    ensures Tells(s, p, MainNext(s), MainSees(s, MainMove, MainNext(s)))
  {
    hide SeesWorkers;
  }

  lemma MainStep(s: State, p: Phase)
    requires Inv(s) && MainEnabled(s) && MainLegal(s) && Fits(s, p)
    ensures Tells(s, p, MainNext(s), MainSees(s, MainMove, MainNext(s)))
  {
    InvSituated(s);
    SeesTouched(s);
    hide Inv, Situated, MainNext, MainSees, SeesWorkers, SeesWorker, Touched;
    if 0 <= Touched(s) < |s.ws| {
      if Joining(s.main) {
        TeardownStep(s, p);
      } else {
        VisitStep(s, p);
      }
    } else if MainHoldsGlobal(s.main) {
      InsideStep(s, p);
    } else {
      OutsideStep(s, p);
    }
  }

  lemma OtherStep(s: State, m: Move, p: Phase)
    requires Inv(s) && Enabled(s, m) && Legal(s, m) && !OfMain(m) && Fits(s, p)
    ensures Fits(Next(s, m), p)
  {
    if m.WorkerMove? {
      WorkerTouchesItself(s, m.i);
      assert LockOk(s.main, s.global, s.ws[m.i], m.i);
    }
  }

  lemma AnyStep(n: nat, s: State, m: Move, t: State, trace: seq<MainEffect>)
    requires Inv(s) && IsStep(s, m, t) && |s.ws| == n && Fits(s, PhaseAfter(n, trace))
    ensures Fits(t, PhaseAfter(n, trace + if OfMain(m) then MainSees(s, m, t) else []))
  {
    var p := PhaseAfter(n, trace);
    hide Inv, Fits, MainSees, Follows;
    if OfMain(m) {
      MainStep(s, p);
      var shown := MainSees(s, m, t);
      if shown == [] {
        assert trace + shown == trace;
      } else {
        assert (trace + shown)[..|trace|] == trace && (trace + shown)[|trace|] == shown[0];
      }
    } else {
      OtherStep(s, m, p);
      assert trace + [] == trace;
    }
  }

  lemma {:induction false} RunFits(n: nat, moves: seq<Move>, states: seq<State>, k: nat)
    requires IsRun(n, moves, states) && k <= |moves|
    ensures Fits(states[k], PhaseAfter(n, Trace(OfMain, MainSees, moves, states, k)))
  {
    hide Inv, IsStep, Fits, PhaseAfter, MainSees;
    if k == 0 {
      StartFits(n);
    } else {
      RunFits(n, moves, states, k - 1);
      RunInv(n, moves, states, k - 1);
      assert IsStep(states[k - 1], moves[k - 1], states[k - 1 + 1]);
      AnyStep(n, states[k - 1], moves[k - 1], states[k], Trace(OfMain, MainSees, moves, states, k - 1));
    }
  }

  /** In every run every effect of main may follow the ones before it, and main exits outside: it creates the workers in
      order; each time it is inside the global mutex it pops, gives the mutex up, visits that worker under its mutex to
      grant it, and comes back, until the queue is empty; and it joins and takes down one worker after the other. */
  lemma MainFollowsProgram(n: nat, moves: seq<Move>, states: seq<State>, k: nat)
    requires IsRun(n, moves, states) && k <= |moves|
    ensures var p := PhaseAfter(n, Trace(OfMain, MainSees, moves, states, k));
            p != Wrong && (states[k].main.Exited? ==> p == Outside)
  {
    RunFits(n, moves, states, k);
    hide IsRun, PhaseAfter, MainSees;
    FitsRight(states[k], PhaseAfter(n, Trace(OfMain, MainSees, moves, states, k)));
  }

  lemma FitsRight(s: State, p: Phase)
    requires Fits(s, p)
    ensures p != Wrong && (s.main.Exited? ==> p == Outside)
  {
  }

  lemma StartFits(n: nat)
    ensures Fits(Initial(n), PhaseAfter(n, []))
  {
  }
}

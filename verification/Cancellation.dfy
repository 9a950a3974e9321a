/**
 The cancellation of 10_5: a detached thread counts to `max` under a mutex, main cancels it once the counter reaches
 `stop`. Deferred cancellation as in section 2.9.5 of POSIX.1-2017 System Interfaces: pthread_cond_wait and
 pthread_testcancel are cancellation points, printf may be one, locking and signalling are not.
 Numbers in comments are lines of its main.c.
 */
module Cancellation {
  import opened Runs

  /** COUNT_TO_STOP and MAX_COUNT. */
  datatype Setup = Setup(stop: nat, max: nat)

  datatype Holder = Free | Main | T1

  datatype MainPC =
    | Create         // 85-86
    | LockFirst      // 88
    | TestReady      // 89
    | CallReady      // 91: about to wait
    | AsleepReady    // 91
    | WokenReady     // 91: reacquiring the mutex
    | SetGo          // 93
    | SignalGo       // 94
    | UnlockFirst    // 95
    | LockSecond     // 100
    | TestCount      // 101
    | CallCount      // 104
    | AsleepCount    // 104
    | WokenCount     // 104
    | Cancel         // 106
    | UnlockSecond   // 107
    | MainExited     // 110

  datatype WorkerPC =
    | Unborn
    | LockStart      // 118
    | SetReady       // 119
    | SignalReady    // 120
    | TestGo         // 122
    | CallGo         // 124
    | AsleepGo       // 124
    | WokenGo        // 124
    | UnlockStart    // 126
    | PrintStart     // 128
    | TestLoop       // 130
    | LockCount      // 132
    | PushHandler    // 134
    | Increment      // 136
    | SignalCount    // 138
    | UnlockCount    // 139
    | PopHandler     // 142
    | TestCancel     // 144
    | PrintEnd       // 147
    | Finished       // 150
    | Cancelled

  /** An undelivered cancellation, the pushed cleanup handler, the counter when the cancellation was issued, and
      whether the thread had finished by then. */
  datatype Request = Request(pending: bool, handler: bool, reachedBy: nat, late: bool)

  /** `i` is the loop index of the thread. */
  datatype State = State(main: MainPC, t1: WorkerPC, mutex: Holder, ready: bool, go: bool, counter: nat, i: nat,
                         x: Request)

  /** A step of an agent, a spurious wakeup, or the delivery of a pending cancellation. */
  datatype Move = MainMove | WorkerMove | MainSpurious | WorkerSpurious | Deliver

  predicate MainHolds(pc: MainPC) {
    pc.TestReady? || pc.CallReady? || pc.SetGo? || pc.SignalGo? || pc.UnlockFirst?
    || pc.TestCount? || pc.CallCount? || pc.Cancel? || pc.UnlockSecond?
  }

  predicate WorkerHolds(pc: WorkerPC) {
    pc.SetReady? || pc.SignalReady? || pc.TestGo? || pc.CallGo? || pc.UnlockStart?
    || pc.PushHandler? || pc.Increment? || pc.SignalCount? || pc.UnlockCount?
  }

  predicate Over(pc: WorkerPC) {
    pc.Finished? || pc.Cancelled?
  }

  /** Cancellation points; in pthread_cond_wait the mutex is reacquired before the thread ends. */
  predicate CancellationPoint(s: State) {
    s.t1.CallGo? || (s.mutex.Free? && (s.t1.AsleepGo? || s.t1.WokenGo?))
    || s.t1.PrintStart? || s.t1.TestCancel? || s.t1.PrintEnd?
  }

  predicate Enabled(s: State, m: Move) {
    match m
    case MainMove =>
      (match s.main
       case LockFirst => s.mutex.Free?
       case WokenReady => s.mutex.Free?
       case LockSecond => s.mutex.Free?
       case WokenCount => s.mutex.Free?
       case AsleepReady => false
       case AsleepCount => false
       case MainExited => false
       case _ => true)
    case WorkerMove =>
      (match s.t1
       case Unborn => false
       case LockStart => s.mutex.Free?
       case WokenGo => s.mutex.Free?
       case LockCount => s.mutex.Free?
       case AsleepGo => false
       case Finished => false
       case Cancelled => false
       case TestCancel => !s.x.pending      // with a pending cancellation it does not return
       case _ => true)
    case MainSpurious => s.main.AsleepReady? || s.main.AsleepCount?
    case WorkerSpurious => s.t1.AsleepGo?
    case Deliver => s.x.pending && CancellationPoint(s)
  }

  predicate Spurious(m: Move) {
    m.MainSpurious? || m.WorkerSpurious?
  }

  /** cond_from_t1: main is the only thread that waits on it. */
  function WakeMain(pc: MainPC): MainPC {
    if pc.AsleepReady? then WokenReady else if pc.AsleepCount? then WokenCount else pc
  }

  function MainNext(c: Setup, s: State): State
    requires Enabled(s, MainMove)
  {
    match s.main
    case Create => s.(main := LockFirst, t1 := LockStart)
    case LockFirst => s.(main := TestReady, mutex := Main)
    case TestReady => s.(main := if s.ready then SetGo else CallReady)
    case CallReady => s.(main := AsleepReady, mutex := Free)
    case WokenReady => s.(main := TestReady, mutex := Main)
    case SetGo => s.(main := SignalGo, go := true)
    case SignalGo => s.(main := UnlockFirst, t1 := if s.t1.AsleepGo? then WokenGo else s.t1)
    case UnlockFirst => s.(main := LockSecond, mutex := Free)
    case LockSecond => s.(main := TestCount, mutex := Main)
    case TestCount => s.(main := if s.counter < c.stop then CallCount else Cancel)
    case CallCount => s.(main := AsleepCount, mutex := Free)
    case WokenCount => s.(main := TestCount, mutex := Main)
    case Cancel =>
      s.(main := UnlockSecond,      // a finished thread is not affected
         x := s.x.(pending := !Over(s.t1), reachedBy := s.counter, late := Over(s.t1)))
    case UnlockSecond => s.(main := MainExited, mutex := Free)
  }

  function WorkerNext(c: Setup, s: State): State
    requires Enabled(s, WorkerMove)
  {
    match s.t1
    case LockStart => s.(t1 := SetReady, mutex := T1)
    case SetReady => s.(t1 := SignalReady, ready := true)
    case SignalReady => s.(t1 := TestGo, main := WakeMain(s.main))
    case TestGo => s.(t1 := if s.go then UnlockStart else CallGo)
    case CallGo => s.(t1 := AsleepGo, mutex := Free)
    case WokenGo => s.(t1 := TestGo, mutex := T1)
    case UnlockStart => s.(t1 := PrintStart, mutex := Free)
    case PrintStart => s.(t1 := TestLoop, i := 0)
    case TestLoop => s.(t1 := if s.i < c.max then LockCount else PrintEnd)
    case LockCount => s.(t1 := PushHandler, mutex := T1)
    case PushHandler => s.(t1 := Increment, x := s.x.(handler := true))
    case Increment => s.(t1 := SignalCount, counter := s.counter + 1)
    case SignalCount => s.(t1 := UnlockCount, main := WakeMain(s.main))
    case UnlockCount => s.(t1 := PopHandler, mutex := Free)
    case PopHandler => s.(t1 := TestCancel, x := s.x.(handler := false))
    case TestCancel => s.(t1 := TestLoop, i := s.i + 1)
    case PrintEnd => s.(t1 := Finished)
  }

  /** The thread ends; a pushed cleanup handler unlocks the mutex, a thread inside cond_wait first reacquires it. */
  function DeliverNext(s: State): State
    requires Enabled(s, Deliver)
  {
    var held := if s.t1.AsleepGo? || s.t1.WokenGo? then T1 else s.mutex;
    s.(t1 := Cancelled, x := s.x.(pending := false), mutex := if s.x.handler then Free else held)
  }

  function Next(c: Setup, s: State, m: Move): State
    requires Enabled(s, m)
  {
    match m
    case MainMove => MainNext(c, s)
    case WorkerMove => WorkerNext(c, s)
    case MainSpurious => s.(main := WakeMain(s.main))
    case WorkerSpurious => s.(t1 := WokenGo)
    case Deliver => DeliverNext(s)
  }

  const START := State(Create, Unborn, Free, false, false, 0, 0, Request(false, false, 0, false))

  ghost predicate IsRun(c: Setup, moves: seq<Move>, states: seq<State>) {
    && |states| == |moves| + 1
    && states[0] == START
    && forall k :: 0 <= k < |moves| ==> Enabled(states[k], moves[k]) && states[k + 1] == Next(c, states[k], moves[k])
  }

  // ----- Invariant, for a positive threshold -----

  predicate GoGiven(pc: MainPC) {
    pc.SignalGo? || pc.UnlockFirst? || pc.LockSecond? || pc.TestCount? || pc.CallCount? || pc.AsleepCount?
    || pc.WokenCount? || pc.Cancel? || pc.UnlockSecond? || pc.MainExited?
  }

  predicate BeforeReady(pc: WorkerPC) {
    pc.Unborn? || pc.LockStart? || pc.SetReady?
  }

  predicate Waiting(pc: WorkerPC) {
    BeforeReady(pc) || pc.SignalReady? || pc.TestGo? || pc.CallGo? || pc.AsleepGo? || pc.WokenGo?
  }

  predicate Issued(pc: MainPC) {
    pc.UnlockSecond? || pc.MainExited?
  }

  predicate Reached(pc: MainPC) {
    pc.Cancel? || pc.UnlockSecond? || pc.MainExited?
  }

  /** Mutual exclusion and the flags. */
  ghost predicate Flags(c: Setup, s: State) {
    && (s.mutex.Main? <==> MainHolds(s.main)) && (s.mutex.T1? <==> WorkerHolds(s.t1))
    && (s.main.Create? <==> s.t1.Unborn?)
    && (s.ready <==> !BeforeReady(s.t1)) && (s.go <==> GoGiven(s.main))
    && (s.main.SetGo? || s.go ==> s.ready) && (!Waiting(s.t1) ==> s.go)
    && (s.x.handler <==> s.t1.Increment? || s.t1.SignalCount? || s.t1.UnlockCount? || s.t1.PopHandler?)
  }

  /** No lost wakeup. */
  ghost predicate Wakeups(c: Setup, s: State) {
    && (s.main.CallReady? ==> !s.ready) && (s.main.AsleepReady? ==> !s.ready || s.t1.SignalReady?)
    && (s.t1.CallGo? ==> !s.go) && (s.t1.AsleepGo? ==> !s.go || s.main.SignalGo?)
    && (s.main.CallCount? ==> s.counter < c.stop)
    && (s.main.AsleepCount? ==> s.counter < c.stop || s.t1.SignalCount?)
  }

  /** Counter and loop index: nothing counted before the loop, equal at its head, one apart after the increment. */
  predicate LoopOk(pc: WorkerPC, counter: nat, i: nat, max: nat) {
    match pc
    case TestLoop => counter == i <= max
    case LockCount => counter == i < max
    case PushHandler => counter == i < max
    case Increment => counter == i < max
    case SignalCount => counter == i + 1 <= max
    case UnlockCount => counter == i + 1 <= max
    case PopHandler => counter == i + 1 <= max
    case TestCancel => counter == i + 1 <= max
    case PrintEnd => counter == max && i <= max
    case Finished => counter == max && i <= max
    case Cancelled => counter <= max && i <= max
    case _ => counter == 0 && i == 0
  }

  ghost predicate Loop(c: Setup, s: State) {
    LoopOk(s.t1, s.counter, s.i, c.max)
  }

  /** When the cancellation is issued, pending, delivered or too late. */
  ghost predicate Issue(c: Setup, s: State) {
    && (Reached(s.main) ==> s.counter >= c.stop)
    && (Issued(s.main) ==> c.stop <= s.x.reachedBy <= s.counter)
    && (s.x.pending ==> Issued(s.main) && !s.x.late && !s.t1.Cancelled?)
    && (s.t1.Cancelled? ==> Issued(s.main) && !s.x.late)
    && (s.x.late ==> Issued(s.main) && s.t1.Finished? && s.x.reachedBy == c.max)
    && (Issued(s.main) && !s.x.late ==> s.x.pending || s.t1.Cancelled? || s.t1.Finished?)
  }

  /** The thread is past its increment and comes to pthread_testcancel before the next one. */
  predicate Counted(pc: WorkerPC) {
    pc.SignalCount? || pc.UnlockCount? || pc.PopHandler? || pc.TestCancel?
  }

  /** A cancellation ends the thread after at most one more increment. */
  ghost predicate Prompt(c: Setup, s: State) {
    && (s.x.pending || s.t1.Cancelled? ==> s.counter <= s.x.reachedBy + 1)
    && (s.x.pending && !Counted(s.t1) ==> s.counter == s.x.reachedBy)
    && (s.t1.Finished? && Issued(s.main) ==> s.x.reachedBy == c.max)
  }

  ghost predicate Inv(c: Setup, s: State) {
    Flags(c, s) && Wakeups(c, s) && Loop(c, s) && Issue(c, s) && Prompt(c, s)
  }

  lemma MainKeepsFlags(c: Setup, s: State)
    requires Inv(c, s) && Enabled(s, MainMove)
    ensures Flags(c, MainNext(c, s)) && Wakeups(c, MainNext(c, s))
  {
  }

  lemma MainKeepsLoop(c: Setup, s: State)
    requires Loop(c, s) && (s.main.Create? ==> s.t1.Unborn?) && Enabled(s, MainMove)
    ensures Loop(c, MainNext(c, s))
  {
  }

  lemma MainKeepsIssue(c: Setup, s: State)
    requires Issue(c, s) && (s.t1.Finished? ==> s.counter == c.max) && (s.main.Create? ==> s.t1.Unborn?)
    requires Enabled(s, MainMove)
    ensures Issue(c, MainNext(c, s))
  {
  }

  lemma WorkerKeepsFlags(c: Setup, s: State)
    requires Flags(c, s) && Enabled(s, WorkerMove)
    ensures Flags(c, WorkerNext(c, s))
  {
  }

  lemma WorkerKeepsWakeups(c: Setup, s: State)
    requires Flags(c, s) && Wakeups(c, s) && Enabled(s, WorkerMove)
    ensures Wakeups(c, WorkerNext(c, s))
  {
  }

  lemma WorkerKeepsLoop(c: Setup, s: State)
    requires Loop(c, s) && Enabled(s, WorkerMove)
    ensures Loop(c, WorkerNext(c, s))
  {
  }

  lemma WorkerKeepsIssue(c: Setup, s: State)
    requires Issue(c, s) && Enabled(s, WorkerMove)
    ensures Issue(c, WorkerNext(c, s))
  {
  }

  lemma MainKeepsPrompt(c: Setup, s: State)
    requires Loop(c, s) && Issue(c, s) && Prompt(c, s) && (s.main.Create? ==> s.t1.Unborn?) && Enabled(s, MainMove)
    ensures Prompt(c, MainNext(c, s))
  {
  }

  lemma WorkerKeepsPrompt(c: Setup, s: State)
    requires Loop(c, s) && Issue(c, s) && Prompt(c, s) && Enabled(s, WorkerMove)
    ensures Prompt(c, WorkerNext(c, s))
  {
  }

  /** With a positive threshold no cancellation is delivered inside the wait, so never with the mutex held. */
  lemma DeliverKeepsInv(c: Setup, s: State)
    requires Inv(c, s) && c.stop > 0 && Enabled(s, Deliver)
    ensures Inv(c, DeliverNext(s)) && !s.mutex.T1?
  {
    assert s.counter >= 1;
  }

  lemma StepKeepsInv(c: Setup, s: State, m: Move)
    requires Inv(c, s) && c.stop > 0 && Enabled(s, m)
    ensures Inv(c, Next(c, s, m))
  {
    match m
    case MainMove =>
      MainKeepsFlags(c, s);
      MainKeepsLoop(c, s);
      MainKeepsIssue(c, s);
      MainKeepsPrompt(c, s);
    case WorkerMove =>
      WorkerKeepsFlags(c, s);
      WorkerKeepsWakeups(c, s);
      WorkerKeepsLoop(c, s);
      WorkerKeepsIssue(c, s);
      WorkerKeepsPrompt(c, s);
    case Deliver => DeliverKeepsInv(c, s);
    case _ =>
  }

  lemma {:induction false} RunInv(c: Setup, moves: seq<Move>, states: seq<State>, k: nat)
    requires c.stop > 0 && IsRun(c, moves, states) && k <= |moves|
    ensures Inv(c, states[k])
  {
    if k == 0 {
    } else {
      RunInv(c, moves, states, k - 1);
      hide Inv;
      assert states[k - 1 + 1] == Next(c, states[k - 1], moves[k - 1]);
      StepKeepsInv(c, states[k - 1], moves[k - 1]);
    }
  }

  // ----- Theorems -----

  /** The cancellation is issued with stop <= counter <= max, the final counter is in that range, a cancelled thread
      never holds the mutex, and the cancellation comes too late only for a thread that counted to the end. The thread
      counts at most once more after it, and gets to its own end only if it had counted to the maximum by then. */
  lemma CancelledInRange(c: Setup, moves: seq<Move>, states: seq<State>, k: nat)
    requires c.stop > 0 && IsRun(c, moves, states) && k <= |moves|
    ensures var s := states[k];
            && (Issued(s.main) ==> c.stop <= s.x.reachedBy <= s.counter <= c.max)
            && (s.t1.Cancelled? ==> Issued(s.main) && c.stop <= s.counter <= c.max && !s.mutex.T1?)
            && (s.t1.Finished? ==> s.counter == c.max && !s.mutex.T1?)
            && (s.x.late ==> s.t1.Finished? && s.x.reachedBy == c.max)
            && (s.x.pending || s.t1.Cancelled? ==> s.counter <= s.x.reachedBy + 1)
            && (s.t1.Finished? && Issued(s.main) ==> s.x.reachedBy == c.max)
  {
    RunInv(c, moves, states, k);
  }

  /** The cleanup handler never has to run: wherever a cancellation can reach the thread it is not pushed. */
  lemma HandlerNeverRuns(c: Setup, moves: seq<Move>, states: seq<State>, k: nat)
    requires c.stop > 0 && IsRun(c, moves, states) && k <= |moves| && Enabled(states[k], Deliver)
    ensures !states[k].x.handler && !states[k].mutex.T1? && Next(c, states[k], Deliver).mutex == states[k].mutex
  {
    RunInv(c, moves, states, k);
    DeliverKeepsInv(c, states[k]);
  }

  // ----- What the agents do, seen from outside -----

  /** The agent of the move holds the mutex. */
  predicate Holds(s: State, m: Move) {
    (m.MainMove? && s.mutex.Main?) || (m.WorkerMove? && s.mutex.T1?)
  }

  function WithData(s: State, ready: bool, go: bool, counter: nat): State {
    s.(ready := ready, go := go, counter := counter)
  }

  /** A step whose agent does not hold the mutex neither reads nor writes the flags and the counter: with other values
      it is possible just the same and has the same effect. */
  lemma DataOnlyUnderMutex(c: Setup, moves: seq<Move>, states: seq<State>, k: nat, m: Move,
                           ready: bool, go: bool, counter: nat)
    requires c.stop > 0 && IsRun(c, moves, states) && k <= |moves|
    requires Enabled(states[k], m) && !Holds(states[k], m)
    ensures var s, u := states[k], WithData(states[k], ready, go, counter);
            Enabled(u, m) && Next(c, u, m) == WithData(Next(c, s, m), ready, go, counter)
  {
    RunInv(c, moves, states, k);
    hide IsRun;
    OutsideMutex(c, states[k], m, ready, go, counter);
  }

  lemma OutsideMutex(c: Setup, s: State, m: Move, ready: bool, go: bool, counter: nat)
    requires Flags(c, s) && Enabled(s, m) && !Holds(s, m)
    ensures var u := WithData(s, ready, go, counter);
            Enabled(u, m) && Next(c, u, m) == WithData(Next(c, s, m), ready, go, counter)
  {
  }

  /** A step does one thing at a time: it changes the mutex, or a flag or the counter, or the cancellation or the
      handler, or it starts or wakes the other agent. */
  lemma OneThingAtATime(c: Setup, s: State, m: Move)
    requires Enabled(s, m) && !m.Deliver?
    ensures var t := Next(c, s, m);
            (if t.mutex != s.mutex then 1 else 0)
            + (if t.ready != s.ready then 1 else 0) + (if t.go != s.go then 1 else 0)
            + (if t.counter != s.counter then 1 else 0) + (if t.x != s.x then 1 else 0)
            + (if t.main != s.main && t.t1 != s.t1 then 1 else 0) <= 1
  {
  }

  datatype Effect =
    | Creates | Locks | Unlocks | ReadyUp | GoUp | Pushes | Counts | Pops | Cancels(counter: nat)

  /** What a step of main changes for others; a wait, which gives the mutex up and takes it again, is left out. */
  function MainSees(s: State, m: Move, t: State): seq<Effect> {
    (if s.t1.Unborn? && !t.t1.Unborn? then [Creates] else [])
    + (if !s.mutex.Main? && t.mutex.Main? && !s.main.WokenReady? && !s.main.WokenCount? then [Locks] else [])
    + (if !s.go && t.go then [GoUp] else [])
    + (if t.x != s.x then [Cancels(s.counter)] else [])
    + (if s.mutex.Main? && !t.mutex.Main? && !t.main.AsleepReady? && !t.main.AsleepCount? then [Unlocks] else [])
  }

  /** The same for the thread, with its cleanup handler. */
  function WorkerSees(s: State, m: Move, t: State): seq<Effect> {
    (if !s.mutex.T1? && t.mutex.T1? && !s.t1.WokenGo? then [Locks] else [])
    + (if !s.ready && t.ready then [ReadyUp] else [])
    + (if !s.x.handler && t.x.handler then [Pushes] else [])
    + (if t.counter > s.counter then [Counts] else [])
    + (if s.mutex.T1? && !t.mutex.T1? && !t.t1.AsleepGo? then [Unlocks] else [])
    + (if s.x.handler && !t.x.handler then [Pops] else [])
  }

  function OfMain(m: Move): bool {
    m.MainMove?
  }

  function OfWorker(m: Move): bool {
    m.WorkerMove? || m.Deliver?
  }

  /** Lines 85-107 of main, with the counter at which it cancels. */
  function MainProgram(counter: nat): seq<Effect> {
    [Creates, Locks, GoUp, Unlocks, Locks, Cancels(counter), Unlocks]
  }

  function MainDone(pc: MainPC): nat {
    match pc
    case Create => 0
    case LockFirst => 1
    case SignalGo => 3
    case UnlockFirst => 3
    case LockSecond => 4
    case TestCount => 5
    case CallCount => 5
    case AsleepCount => 5
    case WokenCount => 5
    case Cancel => 5
    case UnlockSecond => 6
    case MainExited => 7
    case _ => 2
  }

  lemma MainStep(c: Setup, s: State)
    requires Flags(c, s) && Enabled(s, MainMove) && (!Issued(s.main) ==> !s.x.pending && !s.x.late)
    ensures var t := MainNext(c, s);
            MainProgram(t.x.reachedBy)[..MainDone(t.main)]
            == MainProgram(s.x.reachedBy)[..MainDone(s.main)] + MainSees(s, MainMove, t)
  {
  }

  lemma OtherMainStep(c: Setup, s: State, m: Move)
    requires Enabled(s, m) && !OfMain(m)
    ensures MainDone(Next(c, s, m).main) == MainDone(s.main) && Next(c, s, m).x.reachedBy == s.x.reachedBy
  {
  }

  lemma AnyMainStep(c: Setup, s: State, m: Move)
    requires Inv(c, s) && Enabled(s, m)
    ensures var t := Next(c, s, m);
            MainProgram(t.x.reachedBy)[..MainDone(t.main)]
            == MainProgram(s.x.reachedBy)[..MainDone(s.main)] + if OfMain(m) then MainSees(s, m, t) else []
  {
    if OfMain(m) {
      MainStep(c, s);
    } else {
      OtherMainStep(c, s, m);
    }
  }

  /** In every run main does what its program says, in that order, and all of it before it exits: create the thread,
      lock, give the start signal, unlock, lock, cancel, unlock. */
  lemma {:induction false} MainFollowsProgram(c: Setup, moves: seq<Move>, states: seq<State>, k: nat)
    requires c.stop > 0 && IsRun(c, moves, states) && k <= |moves|
    ensures var s := states[k];
            Trace(OfMain, MainSees, moves, states, k) == MainProgram(s.x.reachedBy)[..MainDone(s.main)]
    ensures states[k].main.MainExited? ==>
              Trace(OfMain, MainSees, moves, states, k) == MainProgram(states[k].x.reachedBy)
  {
    if k == 0 {
    } else {
      hide Inv, Enabled, Next, MainSees;
      MainFollowsProgram(c, moves, states, k - 1);
      RunInv(c, moves, states, k - 1);
      assert states[k - 1 + 1] == Next(c, states[k - 1], moves[k - 1]);
      AnyMainStep(c, states[k - 1], moves[k - 1]);
    }
  }

  function Start(): seq<Effect> {
    [Locks, ReadyUp, Unlocks]
  }

  /** Lines 132-142 of the thread, `n` times. */
  function Rounds(n: nat): seq<Effect> {
    if n == 0 then [] else Rounds(n - 1) + [Locks, Pushes, Counts, Unlocks, Pops]
  }

  /** How much of its program the thread has done when it has counted to `n`. */
  function WorkerDone(pc: WorkerPC, n: nat): seq<Effect> {
    match pc
    case Unborn => []
    case LockStart => []
    case SetReady => [Locks]
    case SignalReady => [Locks, ReadyUp]
    case TestGo => [Locks, ReadyUp]
    case CallGo => [Locks, ReadyUp]
    case AsleepGo => [Locks, ReadyUp]
    case WokenGo => [Locks, ReadyUp]
    case UnlockStart => [Locks, ReadyUp]
    case PushHandler => Start() + Rounds(n) + [Locks]
    case Increment => Start() + Rounds(n) + [Locks, Pushes]
    case SignalCount => Start() + (if n > 0 then Rounds(n - 1) else []) + [Locks, Pushes, Counts]
    case UnlockCount => Start() + (if n > 0 then Rounds(n - 1) else []) + [Locks, Pushes, Counts]
    case PopHandler => Start() + (if n > 0 then Rounds(n - 1) else []) + [Locks, Pushes, Counts, Unlocks]
    case _ => Start() + Rounds(n)
  }

  lemma WorkerStep(c: Setup, s: State)
    requires Flags(c, s) && Loop(c, s) && Enabled(s, WorkerMove)
    ensures var t := WorkerNext(c, s);
            WorkerDone(t.t1, t.counter) == WorkerDone(s.t1, s.counter) + WorkerSees(s, WorkerMove, t)
  {
  }

  /** A cancellation reaches the thread between two rounds. */
  lemma DeliverStep(c: Setup, s: State)
    requires Inv(c, s) && c.stop > 0 && Enabled(s, Deliver)
    ensures var t := DeliverNext(s);
            WorkerDone(t.t1, t.counter) == WorkerDone(s.t1, s.counter) && WorkerSees(s, Deliver, t) == []
  {
    assert s.counter >= 1;
  }

  lemma OtherWorkerStep(c: Setup, s: State, m: Move)
    requires Flags(c, s) && Loop(c, s) && Enabled(s, m) && !OfWorker(m)
    ensures WorkerDone(Next(c, s, m).t1, Next(c, s, m).counter) == WorkerDone(s.t1, s.counter)
  {
  }

  lemma AnyStep(c: Setup, s: State, m: Move)
    requires Inv(c, s) && c.stop > 0 && Enabled(s, m)
    ensures var t := Next(c, s, m);
            WorkerDone(t.t1, t.counter) == WorkerDone(s.t1, s.counter) + if OfWorker(m) then WorkerSees(s, m, t) else []
  {
    match m
    case WorkerMove => WorkerStep(c, s);
    case Deliver => DeliverStep(c, s);
    case _ => OtherWorkerStep(c, s, m);
  }

  lemma {:induction false} WorkerTrace(c: Setup, moves: seq<Move>, states: seq<State>, k: nat)
    requires c.stop > 0 && IsRun(c, moves, states) && k <= |moves|
    ensures Trace(OfWorker, WorkerSees, moves, states, k) == WorkerDone(states[k].t1, states[k].counter)
  {
    if k == 0 {
    } else {
      hide Inv, Enabled, Next, WorkerSees, WorkerDone;
      WorkerTrace(c, moves, states, k - 1);
      RunInv(c, moves, states, k - 1);
      assert states[k - 1 + 1] == Next(c, states[k - 1], moves[k - 1]);
      AnyStep(c, states[k - 1], moves[k - 1]);
    }
  }

  /** In every run the thread starts by locking, reporting ready and unlocking; then it counts in rounds that lock, push
      the handler, count, unlock and pop the handler. Ended or cancelled, it has completed all the rounds it began. */
  lemma ThreadFollowsProgram(c: Setup, moves: seq<Move>, states: seq<State>, k: nat)
    requires c.stop > 0 && IsRun(c, moves, states) && k <= |moves|
    ensures var trace := Trace(OfWorker, WorkerSees, moves, states, k);
            && trace <= Start() + Rounds(states[k].counter + 1)
            && (Over(states[k].t1) ==> trace == Start() + Rounds(states[k].counter))
  {
    WorkerTrace(c, moves, states, k);
    DonePrefix(states[k].t1, states[k].counter);
  }

  lemma DonePrefix(pc: WorkerPC, n: nat)
    ensures WorkerDone(pc, n) <= Start() + Rounds(n + 1)
  {
    assert Rounds(n + 1) == Rounds(n) + [Locks, Pushes, Counts, Unlocks, Pops];
    if n > 0 {
      assert Rounds(n) == Rounds(n - 1) + [Locks, Pushes, Counts, Unlocks, Pops];
    }
  }

  /** Both agents are through, the thread by its own end or by cancellation. */
  predicate Final(s: State) {
    s.main.MainExited? && Over(s.t1)
  }

  /** Main sleeps for ever because the thread has counted to the end without reaching the threshold. */
  predicate Hangs(s: State) {
    s.main.AsleepCount? && s.t1.Finished?
  }

  /** In every state without a useful move the run is over, or main hangs; and it can hang exactly if the threshold
      is above the maximum. */
  lemma StuckIff(c: Setup, moves: seq<Move>, states: seq<State>)
    requires c.stop > 0 && IsRun(c, moves, states)
    requires forall m :: Enabled(states[|moves|], m) ==> Spurious(m)
    ensures if c.stop <= c.max then Final(states[|moves|]) else Hangs(states[|moves|])
  {
    RunInv(c, moves, states, |moves|);
    var s := states[|moves|];
    assert !Enabled(s, MainMove) && !Enabled(s, WorkerMove) && !Enabled(s, Deliver);
  }

  function MainRank(pc: MainPC): int {
    match pc
    case Create => 16
    case LockFirst => 15
    case WokenReady => 15
    case TestReady => 14
    case CallReady => 13
    case AsleepReady => 12
    case SetGo => 11
    case SignalGo => 10
    case UnlockFirst => 6
    case LockSecond => 5
    case WokenCount => 5
    case TestCount => 4
    case CallCount => 3
    case AsleepCount => 2
    case Cancel => 2
    case UnlockSecond => 1
    case MainExited => 0
  }

  /** `left` rounds of the counting loop are still to come. */
  function WorkerRank(pc: WorkerPC, left: int): int {
    match pc
    case Unborn => 12 * left + 16
    case LockStart => 12 * left + 16
    case SetReady => 12 * left + 15
    case SignalReady => 12 * left + 14
    case WokenGo => 12 * left + 10
    case TestGo => 12 * left + 9
    case CallGo => 12 * left + 8
    case AsleepGo => 12 * left + 7
    case UnlockStart => 12 * left + 6
    case PrintStart => 12 * left + 5
    case TestLoop => 12 * left + 4
    case LockCount => 12 * left + 3
    case PushHandler => 12 * left + 2
    case Increment => 12 * left + 1
    case SignalCount => 12 * left
    case UnlockCount => 12 * left - 5
    case PopHandler => 12 * left - 6
    case TestCancel => 12 * left - 7
    case PrintEnd => 1
    case Finished => 0
    case Cancelled => 0
  }

  function Measure(c: Setup, s: State): int {
    MainRank(s.main) + WorkerRank(s.t1, c.max - s.i)
  }

  lemma MainOnMain(c: Setup, s: State)
    requires Enabled(s, MainMove)
    ensures MainRank(MainNext(c, s).main) + (if s.main.SignalGo? then 3 else 0) < MainRank(s.main)
  {
  }

  lemma MainOnWorker(c: Setup, s: State)
    requires Enabled(s, MainMove) && (s.main.Create? ==> s.t1.Unborn?)
    ensures MainNext(c, s).i == s.i
    ensures forall left :: WorkerRank(MainNext(c, s).t1, left)
                           <= WorkerRank(s.t1, left) + if s.main.SignalGo? then 3 else 0
  {
  }

  lemma MainLowers(c: Setup, s: State)
    requires Enabled(s, MainMove) && (s.main.Create? ==> s.t1.Unborn?)
    ensures Measure(c, MainNext(c, s)) < Measure(c, s)
  {
    hide MainNext, MainRank, WorkerRank, Enabled;
    MainOnMain(c, s);
    MainOnWorker(c, s);
  }

  lemma WorkerOnMain(c: Setup, s: State)
    requires Enabled(s, WorkerMove)
    ensures MainRank(WorkerNext(c, s).main)
            <= MainRank(s.main) + if s.t1.SignalReady? || s.t1.SignalCount? then 3 else 0
  {
  }

  lemma WorkerOnItself(c: Setup, s: State)
    requires Loop(c, s) && Enabled(s, WorkerMove)
    ensures WorkerRank(WorkerNext(c, s).t1, c.max - WorkerNext(c, s).i)
            + (if s.t1.SignalReady? || s.t1.SignalCount? then 3 else 0)
            < WorkerRank(s.t1, c.max - s.i)
  {
  }

  lemma WorkerLowers(c: Setup, s: State)
    requires Loop(c, s) && Enabled(s, WorkerMove)
    ensures Measure(c, WorkerNext(c, s)) < Measure(c, s)
  {
    hide WorkerNext, MainRank, WorkerRank, Enabled, Loop;
    WorkerOnMain(c, s);
    WorkerOnItself(c, s);
  }

  lemma StepLowers(c: Setup, s: State, m: Move)
    requires Inv(c, s) && Enabled(s, m)
    ensures Measure(c, Next(c, s, m)) <= Measure(c, s) + if Spurious(m) then 3 else -1
  {
    match m
    case MainMove => MainLowers(c, s);
    case WorkerMove => WorkerLowers(c, s);
    case _ =>
  }

  lemma MeasureBounds(c: Setup, s: State)
    requires Inv(c, s)
    ensures 0 <= Measure(c, s)
    ensures s == START ==> Measure(c, s) == 12 * c.max + 32
  {
  }

  /** Every run ends: its length is linear in `max` and in the number of spurious wakeups. */
  lemma {:induction false} BoundedRun(c: Setup, moves: seq<Move>, states: seq<State>, k: nat)
    requires c.stop > 0 && IsRun(c, moves, states) && k <= |moves|
    ensures k + Measure(c, states[k]) <= 12 * c.max + 32 + 4 * CountMoves(Spurious, moves, k)
    ensures k <= 12 * c.max + 32 + 4 * CountMoves(Spurious, moves, k)
  {
    hide Measure, Enabled, Next, Inv;
    RunInv(c, moves, states, k);
    MeasureBounds(c, states[k]);
    if k == 0 {
    } else {
      RunInv(c, moves, states, k - 1);
      BoundedRun(c, moves, states, k - 1);
      assert states[k - 1 + 1] == Next(c, states[k - 1], moves[k - 1]);
      StepLowers(c, states[k - 1], moves[k - 1]);
    }
  }

  // ----- The threshold must be positive -----

  const CALM := Request(false, false, 0, false)

  /** A run with threshold 0: the request is delivered inside pthread_cond_wait. */
  const AT_ONCE: seq<State> := [
    State(Create, Unborn, Free, false, false, 0, 0, CALM),
    State(LockFirst, LockStart, Free, false, false, 0, 0, CALM),
    State(LockFirst, SetReady, T1, false, false, 0, 0, CALM),
    State(LockFirst, SignalReady, T1, true, false, 0, 0, CALM),
    State(LockFirst, TestGo, T1, true, false, 0, 0, CALM),
    State(LockFirst, CallGo, T1, true, false, 0, 0, CALM),
    State(LockFirst, AsleepGo, Free, true, false, 0, 0, CALM),
    State(TestReady, AsleepGo, Main, true, false, 0, 0, CALM),
    State(SetGo, AsleepGo, Main, true, false, 0, 0, CALM),
    State(SignalGo, AsleepGo, Main, true, true, 0, 0, CALM),
    State(UnlockFirst, WokenGo, Main, true, true, 0, 0, CALM),
    State(LockSecond, WokenGo, Free, true, true, 0, 0, CALM),
    State(TestCount, WokenGo, Main, true, true, 0, 0, CALM),
    State(Cancel, WokenGo, Main, true, true, 0, 0, CALM),
    State(UnlockSecond, WokenGo, Main, true, true, 0, 0, Request(true, false, 0, false)),
    State(MainExited, WokenGo, Free, true, true, 0, 0, Request(true, false, 0, false)),
    State(MainExited, Cancelled, T1, true, true, 0, 0, CALM)]

  const AT_ONCE_MOVES: seq<Move> := [
    MainMove, WorkerMove, WorkerMove, WorkerMove, WorkerMove, WorkerMove,
    MainMove, MainMove, MainMove, MainMove, MainMove, MainMove,
    MainMove, MainMove, MainMove, Deliver]

  /** With threshold 0 main cancels at once, the thread may still be in its wait, where no cleanup handler is pushed,
      and it ends holding the mutex. */
  lemma ZeroThresholdLeaksMutex(max: nat)
    ensures IsRun(Setup(0, max), AT_ONCE_MOVES, AT_ONCE)
    ensures AT_ONCE[16].t1.Cancelled? && AT_ONCE[16].mutex.T1?
  {
    forall k | 0 <= k < 16
      ensures Enabled(AT_ONCE[k], AT_ONCE_MOVES[k])
      ensures AT_ONCE[k + 1] == Next(Setup(0, max), AT_ONCE[k], AT_ONCE_MOVES[k])
    {
    }
  }
}

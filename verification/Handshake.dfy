/**
 The two-way handshake of 10_3: one mutex, three flags, and one condition variable that serves two events.
 A step is one pthread call or one access to a flag; numbers in comments are lines of its main.c.
 */
module Handshake {
  import opened Runs

  datatype Holder = Free | Main | T1

  datatype MainPC =
    | Create         // 49
    | LockFirst      // 53
    | TestReady      // 54
    | CallReady      // 56: about to wait
    | AsleepReady    // 56
    | WokenReady     // 56: reacquiring the mutex
    | SetGo          // 59
    | SignalGo       // 60
    | UnlockFirst    // 61
    | LockSecond     // 66
    | TestDone       // 68
    | CallDone       // 70
    | AsleepDone     // 70
    | WokenDone      // 70
    | UnlockSecond   // 73
    | Join           // 78
    | MainExited     // 83

  datatype WorkerPC =
    | Unborn
    | LockStart      // 95
    | SetReady       // 96
    | SignalReady    // 97
    | TestGo         // 99
    | CallGo         // 101
    | AsleepGo       // 101
    | WokenGo        // 101
    | UnlockStart    // 104
    | Work           // 106-109
    | LockEnd        // 111
    | SetDone        // 112
    | SignalDone     // 113
    | UnlockEnd      // 114
    | WorkerExited   // 117

  datatype Event = ReadyUp | GoUp | Worked | DoneUp | MainPassed

  /** The events so far, in order, are part of the state. */
  datatype State = State(main: MainPC, t1: WorkerPC, mutex: Holder, ready: bool, go: bool, done: bool,
                         events: seq<Event>)

  datatype Move = MainMove | WorkerMove | MainSpurious | WorkerSpurious

  predicate MainHolds(pc: MainPC) {
    pc.TestReady? || pc.CallReady? || pc.SetGo? || pc.SignalGo? || pc.UnlockFirst?
    || pc.TestDone? || pc.CallDone? || pc.UnlockSecond?
  }

  predicate WorkerHolds(pc: WorkerPC) {
    pc.SetReady? || pc.SignalReady? || pc.TestGo? || pc.CallGo? || pc.UnlockStart?
    || pc.SetDone? || pc.SignalDone? || pc.UnlockEnd?
  }

  predicate Enabled(s: State, m: Move) {
    match m
    case MainMove =>
      (match s.main
       case LockFirst => s.mutex.Free?
       case WokenReady => s.mutex.Free?
       case LockSecond => s.mutex.Free?
       case WokenDone => s.mutex.Free?
       case AsleepReady => false
       case AsleepDone => false
       case Join => s.t1.WorkerExited?
       case MainExited => false
       case _ => true)
    case WorkerMove =>
      (match s.t1
       case Unborn => false
       case LockStart => s.mutex.Free?
       case WokenGo => s.mutex.Free?
       case LockEnd => s.mutex.Free?
       case AsleepGo => false
       case WorkerExited => false
       case _ => true)
    case MainSpurious => s.main.AsleepReady? || s.main.AsleepDone?
    case WorkerSpurious => s.t1.AsleepGo?
  }

  predicate Spurious(m: Move) {
    m.MainSpurious? || m.WorkerSpurious?
  }

  /** cond_from_t1: main is the only thread that waits on it, for either event. */
  function WakeMain(pc: MainPC): MainPC {
    if pc.AsleepReady? then WokenReady else if pc.AsleepDone? then WokenDone else pc
  }

  function MainNext(s: State): State
    requires Enabled(s, MainMove)
  {
    match s.main
    case Create => s.(main := LockFirst, t1 := LockStart)
    case LockFirst => s.(main := TestReady, mutex := Main)
    case TestReady => s.(main := if s.ready then SetGo else CallReady)
    case CallReady => s.(main := AsleepReady, mutex := Free)
    case WokenReady => s.(main := TestReady, mutex := Main)
    case SetGo => s.(main := SignalGo, go := true, events := s.events + [GoUp])
    case SignalGo => s.(main := UnlockFirst, t1 := if s.t1.AsleepGo? then WokenGo else s.t1)
    case UnlockFirst => s.(main := LockSecond, mutex := Free)
    case LockSecond => s.(main := TestDone, mutex := Main)
    case TestDone =>
      if s.done then s.(main := UnlockSecond, events := s.events + [MainPassed]) else s.(main := CallDone)
    case CallDone => s.(main := AsleepDone, mutex := Free)
    case WokenDone => s.(main := TestDone, mutex := Main)
    case UnlockSecond => s.(main := Join, mutex := Free)
    case Join => s.(main := MainExited)
  }

  function WorkerNext(s: State): State
    requires Enabled(s, WorkerMove)
  {
    match s.t1
    case LockStart => s.(t1 := SetReady, mutex := T1)
    case SetReady => s.(t1 := SignalReady, ready := true, events := s.events + [ReadyUp])
    case SignalReady => s.(t1 := TestGo, main := WakeMain(s.main))
    case TestGo => s.(t1 := if s.go then UnlockStart else CallGo)
    case CallGo => s.(t1 := AsleepGo, mutex := Free)
    case WokenGo => s.(t1 := TestGo, mutex := T1)
    case UnlockStart => s.(t1 := Work, mutex := Free)
    case Work => s.(t1 := LockEnd, events := s.events + [Worked])
    case LockEnd => s.(t1 := SetDone, mutex := T1)
    case SetDone => s.(t1 := SignalDone, done := true, events := s.events + [DoneUp])
    case SignalDone => s.(t1 := UnlockEnd, main := WakeMain(s.main))
    case UnlockEnd => s.(t1 := WorkerExited, mutex := Free)
  }

  function Next(s: State, m: Move): State
    requires Enabled(s, m)
  {
    match m
    case MainMove => MainNext(s)
    case WorkerMove => WorkerNext(s)
    case MainSpurious => s.(main := WakeMain(s.main))
    case WorkerSpurious => s.(t1 := WokenGo)
  }

  const START := State(Create, Unborn, Free, false, false, false, [])

  ghost predicate IsRun(moves: seq<Move>, states: seq<State>) {
    && |states| == |moves| + 1
    && states[0] == START
    && forall k :: 0 <= k < |moves| ==> Enabled(states[k], moves[k]) && states[k + 1] == Next(states[k], moves[k])
  }

  // ----- Invariant -----

  /** Main before, between and after its two conditions. */
  function MainStage(pc: MainPC): nat {
    match pc
    case SignalGo => 2
    case UnlockFirst => 2
    case LockSecond => 2
    case TestDone => 2
    case CallDone => 2
    case AsleepDone => 2
    case WokenDone => 2
    case UnlockSecond => 3
    case Join => 3
    case MainExited => 3
    case SetGo => 1
    case _ => 0
  }

  function WorkerStage(pc: WorkerPC): nat {
    match pc
    case Unborn => 0
    case LockStart => 0
    case SetReady => 0
    case SignalReady => 1
    case TestGo => 1
    case CallGo => 1
    case AsleepGo => 1
    case WokenGo => 1
    case UnlockStart => 2
    case Work => 2
    case LockEnd => 3
    case SetDone => 3
    case _ => 4
  }

  /** The events in the only order in which they can happen, as far as the two agents got. */
  function Story(main: MainPC, t1: WorkerPC): seq<Event> {
    (if WorkerStage(t1) >= 1 then [ReadyUp] else []) + (if MainStage(main) >= 2 then [GoUp] else [])
    + (if WorkerStage(t1) >= 3 then [Worked] else []) + (if WorkerStage(t1) >= 4 then [DoneUp] else [])
    + (if MainStage(main) >= 3 then [MainPassed] else [])
  }

  /** Mutual exclusion, and the flags say how far the agents are. */
  ghost predicate Flags(s: State) {
    && (s.mutex.Main? <==> MainHolds(s.main)) && (s.mutex.T1? <==> WorkerHolds(s.t1))
    && (s.main.Create? <==> s.t1.Unborn?)
    && (s.ready <==> WorkerStage(s.t1) >= 1) && (s.go <==> MainStage(s.main) >= 2)
    && (s.done <==> WorkerStage(s.t1) >= 4)
    && (MainStage(s.main) >= 1 ==> s.ready) && (WorkerStage(s.t1) >= 2 ==> s.go)
    && (MainStage(s.main) >= 3 ==> s.done) && (s.main.MainExited? ==> s.t1.WorkerExited?)
  }

  /** No lost wakeup: a sleeper's flag is down, or the signal for it is about to come. */
  ghost predicate Wakeups(s: State) {
    && (s.main.CallReady? ==> !s.ready) && (s.main.AsleepReady? ==> !s.ready || s.t1.SignalReady?)
    && (s.main.CallDone? ==> !s.done) && (s.main.AsleepDone? ==> !s.done || s.t1.SignalDone?)
    && (s.t1.CallGo? ==> !s.go) && (s.t1.AsleepGo? ==> !s.go || s.main.SignalGo?)
  }

  ghost predicate Inv(s: State) {
    Flags(s) && Wakeups(s) && s.events == Story(s.main, s.t1)
  }

  lemma MainKeepsFlags(s: State)
    requires Flags(s) && Wakeups(s) && Enabled(s, MainMove)
    ensures Flags(MainNext(s)) && Wakeups(MainNext(s))
  {
  }

  lemma WorkerKeepsFlags(s: State)
    requires Flags(s) && Wakeups(s) && Enabled(s, WorkerMove)
    ensures Flags(WorkerNext(s)) && Wakeups(WorkerNext(s))
  {
  }

  /** What happens next is the next event of the story. */
  lemma MainTellsStory(s: State)
    requires Flags(s) && Enabled(s, MainMove) && s.events == Story(s.main, s.t1)
    ensures MainNext(s).events == Story(MainNext(s).main, MainNext(s).t1)
  {
  }

  lemma WorkerTellsStory(s: State)
    requires Flags(s) && Enabled(s, WorkerMove) && s.events == Story(s.main, s.t1)
    ensures WorkerNext(s).events == Story(WorkerNext(s).main, WorkerNext(s).t1)
  {
  }

  lemma StepKeepsInv(s: State, m: Move)
    requires Inv(s) && Enabled(s, m)
    ensures Inv(Next(s, m))
  {
    match m
    case MainMove =>
      MainKeepsFlags(s);
      MainTellsStory(s);
    case WorkerMove =>
      WorkerKeepsFlags(s);
      WorkerTellsStory(s);
    case _ =>
  }

  lemma {:induction false} RunInv(moves: seq<Move>, states: seq<State>, k: nat)
    requires IsRun(moves, states) && k <= |moves|
    ensures Inv(states[k])
  {
    if k == 0 {
    } else {
      RunInv(moves, states, k - 1);
      assert states[k - 1 + 1] == Next(states[k - 1], moves[k - 1]);
      StepKeepsInv(states[k - 1], moves[k - 1]);
    }
  }

  // ----- Theorems -----

  const WHOLE_STORY := [ReadyUp, GoUp, Worked, DoneUp, MainPassed]

  /** In every run the flags rise in the order ready, proceed, done; the work lies between proceed and done; and main
      passes its second wait only after done, even if the worker finished before main locked again, and exits only after
      the worker has. */
  lemma Order(moves: seq<Move>, states: seq<State>, k: nat)
    requires IsRun(moves, states) && k <= |moves|
    ensures states[k].events <= WHOLE_STORY
    ensures states[k].ready <==> ReadyUp in states[k].events
    ensures states[k].go <==> GoUp in states[k].events
    ensures states[k].done <==> DoneUp in states[k].events
    ensures states[k].main.MainExited? ==> states[k].events == WHOLE_STORY && states[k].t1.WorkerExited?
  {
    RunInv(moves, states, k);
    hide IsRun;
    InvOrder(states[k]);
  }

  lemma InvOrder(s: State)
    requires Inv(s)
    ensures s.events <= WHOLE_STORY
    ensures s.ready <==> ReadyUp in s.events
    ensures s.go <==> GoUp in s.events
    ensures s.done <==> DoneUp in s.events
    ensures s.main.MainExited? ==> s.events == WHOLE_STORY && s.t1.WorkerExited?
  {
  }

  // ----- What the agents do, seen from outside -----

  /** The agent of the move holds the mutex. */
  predicate Holds(s: State, m: Move) {
    (m.MainMove? && s.mutex.Main?) || (m.WorkerMove? && s.mutex.T1?)
  }

  function WithFlags(s: State, ready: bool, go: bool, done: bool): State {
    s.(ready := ready, go := go, done := done)
  }

  /** A step whose agent does not hold the mutex neither reads nor writes the flags: with other flags it is possible
      just the same and has the same effect. */
  lemma FlagsOnlyUnderMutex(moves: seq<Move>, states: seq<State>, k: nat, m: Move, ready: bool, go: bool, done: bool)
    requires IsRun(moves, states) && k <= |moves| && Enabled(states[k], m) && !Holds(states[k], m)
    ensures var s, u := states[k], WithFlags(states[k], ready, go, done);
            Enabled(u, m) && Next(u, m) == WithFlags(Next(s, m), ready, go, done)
  {
    RunInv(moves, states, k);
    hide IsRun;
    OutsideMutex(states[k], m, ready, go, done);
  }

  lemma OutsideMutex(s: State, m: Move, ready: bool, go: bool, done: bool)
    requires Inv(s) && Enabled(s, m) && !Holds(s, m)
    ensures var u := WithFlags(s, ready, go, done);
            Enabled(u, m) && Next(u, m) == WithFlags(Next(s, m), ready, go, done)
  {
  }

  /** A step does one thing at a time: it changes the mutex, or a flag, or it starts or wakes the other agent. */
  lemma OneThingAtATime(s: State, m: Move)
    requires Enabled(s, m)
    ensures Changes(s, Next(s, m)) <= 1
  {
    match m
    case MainMove => MainOneThing(s);
    case WorkerMove => WorkerOneThing(s);
    case _ =>
  }

  function Changes(s: State, t: State): nat {
    (if t.mutex != s.mutex then 1 else 0)
    + (if t.ready != s.ready then 1 else 0) + (if t.go != s.go then 1 else 0) + (if t.done != s.done then 1 else 0)
    + (if t.main != s.main && t.t1 != s.t1 then 1 else 0)
  }

  lemma MainOneThing(s: State)
    requires Enabled(s, MainMove)
    ensures Changes(s, MainNext(s)) <= 1
  {
  }

  lemma WorkerOneThing(s: State)
    requires Enabled(s, WorkerMove)
    ensures Changes(s, WorkerNext(s)) <= 1
  {
  }

  datatype Effect = Creates | Locks | Unlocks | RaisesReady | RaisesGo | RaisesDone | Works

  /** What a step of main changes for others; a wait, which gives the mutex up and takes it again, is left out. */
  function MainSees(s: State, m: Move, t: State): seq<Effect> {
    (if s.t1.Unborn? && !t.t1.Unborn? then [Creates] else [])
    + (if !s.mutex.Main? && t.mutex.Main? && !s.main.WokenReady? && !s.main.WokenDone? then [Locks] else [])
    + (if !s.go && t.go then [RaisesGo] else [])
    + (if s.mutex.Main? && !t.mutex.Main? && !t.main.AsleepReady? && !t.main.AsleepDone? then [Unlocks] else [])
  }

  /** The same for the worker. */
  function WorkerSees(s: State, m: Move, t: State): seq<Effect> {
    (if !s.mutex.T1? && t.mutex.T1? && !s.t1.WokenGo? then [Locks] else [])
    + (if !s.ready && t.ready then [RaisesReady] else [])
    + (if |t.events| > |s.events| && t.events[|s.events|] == Worked then [Works] else [])
    + (if !s.done && t.done then [RaisesDone] else [])
    + (if s.mutex.T1? && !t.mutex.T1? && !t.t1.AsleepGo? then [Unlocks] else [])
  }

  function OfMain(m: Move): bool {
    m.MainMove?
  }

  function OfWorker(m: Move): bool {
    m.WorkerMove?
  }

  /** Lines 49-73 of main. */
  const MAIN_PROGRAM := [Creates, Locks, RaisesGo, Unlocks, Locks, Unlocks]

  /** Lines 95-114 of the thread. */
  const WORKER_PROGRAM := [Locks, RaisesReady, Unlocks, Works, Locks, RaisesDone, Unlocks]

  /** How much of them is done. */
  function MainDone(pc: MainPC): nat {
    match pc
    case Create => 0
    case LockFirst => 1
    case SignalGo => 3
    case UnlockFirst => 3
    case LockSecond => 4
    case TestDone => 5
    case CallDone => 5
    case AsleepDone => 5
    case WokenDone => 5
    case UnlockSecond => 5
    case Join => 6
    case MainExited => 6
    case _ => 2
  }

  function WorkerDone(pc: WorkerPC): nat {
    match pc
    case Unborn => 0
    case LockStart => 0
    case SetReady => 1
    case Work => 3
    case LockEnd => 4
    case SetDone => 5
    case SignalDone => 6
    case UnlockEnd => 6
    case WorkerExited => 7
    case _ => 2
  }

  lemma MainStep(s: State, m: Move)
    requires Inv(s) && Enabled(s, m)
    ensures var t := Next(s, m);
            MAIN_PROGRAM[..MainDone(t.main)]
            == MAIN_PROGRAM[..MainDone(s.main)] + if OfMain(m) then MainSees(s, m, t) else []
  {
  }

  lemma WorkerStep(s: State, m: Move)
    requires Inv(s) && Enabled(s, m)
    ensures var t := Next(s, m);
            WORKER_PROGRAM[..WorkerDone(t.t1)]
            == WORKER_PROGRAM[..WorkerDone(s.t1)] + if OfWorker(m) then WorkerSees(s, m, t) else []
  {
  }

  /** In every run main does what its program says, in that order: create the thread, lock, give the go, unlock, lock
      for the second wait, unlock. */
  lemma {:induction false} MainFollowsProgram(moves: seq<Move>, states: seq<State>, k: nat)
    requires IsRun(moves, states) && k <= |moves|
    ensures Trace(OfMain, MainSees, moves, states, k) == MAIN_PROGRAM[..MainDone(states[k].main)]
    ensures states[k].main.MainExited? ==> Trace(OfMain, MainSees, moves, states, k) == MAIN_PROGRAM
  {
    if k == 0 {
    } else {
      hide Inv, Enabled, Next, MainSees;
      MainFollowsProgram(moves, states, k - 1);
      RunInv(moves, states, k - 1);
      assert states[k - 1 + 1] == Next(states[k - 1], moves[k - 1]);
      MainStep(states[k - 1], moves[k - 1]);
    }
  }

  /** And the thread: lock, report ready, unlock, work outside the mutex, lock, report done, unlock. */
  lemma {:induction false} WorkerFollowsProgram(moves: seq<Move>, states: seq<State>, k: nat)
    requires IsRun(moves, states) && k <= |moves|
    ensures Trace(OfWorker, WorkerSees, moves, states, k) == WORKER_PROGRAM[..WorkerDone(states[k].t1)]
    ensures states[k].t1.WorkerExited? ==> Trace(OfWorker, WorkerSees, moves, states, k) == WORKER_PROGRAM
  {
    if k == 0 {
    } else {
      hide Inv, Enabled, Next, WorkerSees;
      WorkerFollowsProgram(moves, states, k - 1);
      RunInv(moves, states, k - 1);
      assert states[k - 1 + 1] == Next(states[k - 1], moves[k - 1]);
      WorkerStep(states[k - 1], moves[k - 1]);
    }
  }

  /** No reachable state is stuck: until both have exited, one of them can go on without a spurious wakeup. */
  lemma NeverStuck(moves: seq<Move>, states: seq<State>, k: nat)
    requires IsRun(moves, states) && k <= |moves|
    ensures (states[k].main.MainExited? && states[k].t1.WorkerExited?)
            || Enabled(states[k], MainMove) || Enabled(states[k], WorkerMove)
  {
    RunInv(moves, states, k);
  }

  function MainRank(pc: MainPC): int {
    match pc
    case Create => 27
    case LockFirst => 25
    case WokenReady => 25
    case TestReady => 24
    case CallReady => 23
    case AsleepReady => 22
    case SetGo => 21
    case SignalGo => 20
    case UnlockFirst => 9
    case LockSecond => 8
    case WokenDone => 8
    case TestDone => 7
    case CallDone => 6
    case AsleepDone => 5
    case UnlockSecond => 2
    case Join => 1
    case MainExited => 0
  }

  function WorkerRank(pc: WorkerPC): int {
    match pc
    case Unborn => 27
    case LockStart => 27
    case SetReady => 26
    case SignalReady => 25
    case WokenGo => 20
    case TestGo => 19
    case CallGo => 18
    case AsleepGo => 17
    case UnlockStart => 16
    case Work => 15
    case LockEnd => 14
    case SetDone => 13
    case SignalDone => 12
    case UnlockEnd => 1
    case WorkerExited => 0
  }

  function Measure(s: State): int {
    MainRank(s.main) + WorkerRank(s.t1)
  }

  lemma MainLowers(s: State)
    requires Enabled(s, MainMove) && (s.main.Create? ==> s.t1.Unborn?)
    ensures Measure(MainNext(s)) < Measure(s)
  {
  }

  lemma WorkerLowers(s: State)
    requires Enabled(s, WorkerMove)
    ensures Measure(WorkerNext(s)) < Measure(s)
  {
  }

  lemma StepLowers(s: State, m: Move)
    requires Enabled(s, m) && (s.main.Create? ==> s.t1.Unborn?)
    ensures Measure(Next(s, m)) <= Measure(s) + if Spurious(m) then 3 else -1
  {
    match m
    case MainMove => MainLowers(s);
    case WorkerMove => WorkerLowers(s);
    case _ =>
  }

  lemma RankNonNegative(s: State)
    ensures 0 <= Measure(s)
    ensures s == START ==> Measure(s) == 54
  {
  }

  /** Every run ends: at most 54 steps, and four more for each spurious wakeup. */
  lemma {:induction false} BoundedRun(moves: seq<Move>, states: seq<State>, k: nat)
    requires IsRun(moves, states) && k <= |moves|
    ensures k + Measure(states[k]) <= 54 + 4 * CountMoves(Spurious, moves, k)
    ensures k <= 54 + 4 * CountMoves(Spurious, moves, k)
  {
    hide Measure, Enabled, Next;
    RankNonNegative(states[k]);
    if k == 0 {
    } else {
      RunInv(moves, states, k - 1);
      BoundedRun(moves, states, k - 1);
      assert states[k - 1 + 1] == Next(states[k - 1], moves[k - 1]);
      StepLowers(states[k - 1], moves[k - 1]);
    }
  }
}

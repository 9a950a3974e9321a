/**
 The ownership hand-over of 10_7: main allocates a block with a mutex, two condition variables and the flags, and a
 detached thread destroys the primitives and frees the block. Numbers in comments are lines of its main.c.
 */
module Handover {
  import opened Runs

  datatype Holder = Free | Main | T1

  datatype MainPC =
    | Create         // 85-86, after allocation and initialisation
    | LockBlock      // 90
    | TestReady      // 91
    | CallReady      // 93: about to wait
    | AsleepReady    // 93
    | WokenReady     // 93: reacquiring the mutex
    | SetGo          // 96
    | SignalGo       // 97
    | UnlockBlock    // 98
    | MainGone       // 104-110: drops its pointer and exits

  datatype WorkerPC =
    | Unborn
    | LockStart      // 121
    | SetReady       // 122
    | SignalReady    // 123
    | TestGo         // 125
    | CallGo         // 127
    | AsleepGo       // 127
    | WokenGo        // 127
    | UnlockStart    // 130
    | ReadArg        // 134
    | DestroyMutex   // 139
    | DestroyCondMain // 140
    | DestroyCondT1  // 141
    | FreeBlock      // 142
    | WorkerGone     // 145

  /** The block: how often each of its primitives was destroyed and the block freed. */
  datatype State = State(main: MainPC, t1: WorkerPC, mutex: Holder, ready: bool, go: bool,
                         mutexDestroys: nat, condMainDestroys: nat, condT1Destroys: nat, frees: nat)

  datatype Move = MainMove | WorkerMove | MainSpurious | WorkerSpurious

  predicate MainHolds(pc: MainPC) {
    pc.TestReady? || pc.CallReady? || pc.SetGo? || pc.SignalGo? || pc.UnlockBlock?
  }

  predicate WorkerHolds(pc: WorkerPC) {
    pc.SetReady? || pc.SignalReady? || pc.TestGo? || pc.CallGo? || pc.UnlockStart?
  }

  predicate Enabled(s: State, m: Move) {
    match m
    case MainMove =>
      (match s.main
       case LockBlock => s.mutex.Free?
       case WokenReady => s.mutex.Free?
       case AsleepReady => false
       case MainGone => false
       case _ => true)
    case WorkerMove =>
      (match s.t1
       case Unborn => false
       case LockStart => s.mutex.Free?
       case WokenGo => s.mutex.Free?
       case AsleepGo => false
       case WorkerGone => false
       case _ => true)
    case MainSpurious => s.main.AsleepReady?
    case WorkerSpurious => s.t1.AsleepGo?
  }

  predicate Spurious(m: Move) {
    m.MainSpurious? || m.WorkerSpurious?
  }

  /** Everything in the block is still usable. */
  predicate Intact(s: State) {
    s.mutexDestroys == 0 && s.condMainDestroys == 0 && s.condT1Destroys == 0 && s.frees == 0
  }

  /** Main and the worker use the block only while it is intact and hold the mutex when they should; primitives are
      destroyed once, when idle, and the block is freed once, after them. */
  predicate Legal(s: State, m: Move)
    requires Enabled(s, m)
  {
    match m
    case MainMove => Intact(s) && (MainHolds(s.main) ==> s.mutex.Main?)
    case WorkerMove =>
      (match s.t1
       case DestroyMutex => s.frees == 0 && s.mutexDestroys == 0 && s.mutex.Free? && s.main.MainGone?
       case DestroyCondMain => s.frees == 0 && s.condMainDestroys == 0 && s.main.MainGone?
       case DestroyCondT1 => s.frees == 0 && s.condT1Destroys == 0 && s.main.MainGone?
       case FreeBlock =>
         s.frees == 0 && s.mutexDestroys == 1 && s.condMainDestroys == 1 && s.condT1Destroys == 1 && s.main.MainGone?
       case _ => Intact(s) && (WorkerHolds(s.t1) ==> s.mutex.T1?))
    case _ => Intact(s)
  }

  function MainNext(s: State): State
    requires Enabled(s, MainMove)
  {
    match s.main
    case Create => s.(main := LockBlock, t1 := LockStart)
    case LockBlock => s.(main := TestReady, mutex := Main)
    case TestReady => s.(main := if s.ready then SetGo else CallReady)
    case CallReady => s.(main := AsleepReady, mutex := Free)
    case WokenReady => s.(main := TestReady, mutex := Main)
    case SetGo => s.(main := SignalGo, go := true)
    case SignalGo => s.(main := UnlockBlock, t1 := if s.t1.AsleepGo? then WokenGo else s.t1)
    case UnlockBlock => s.(main := MainGone, mutex := Free)
  }

  function WorkerNext(s: State): State
    requires Enabled(s, WorkerMove)
  {
    match s.t1
    case LockStart => s.(t1 := SetReady, mutex := T1)
    case SetReady => s.(t1 := SignalReady, ready := true)
    case SignalReady => s.(t1 := TestGo, main := if s.main.AsleepReady? then WokenReady else s.main)
    case TestGo => s.(t1 := if s.go then UnlockStart else CallGo)
    case CallGo => s.(t1 := AsleepGo, mutex := Free)
    case WokenGo => s.(t1 := TestGo, mutex := T1)
    case UnlockStart => s.(t1 := ReadArg, mutex := Free)
    case ReadArg => s.(t1 := DestroyMutex)
    case DestroyMutex => s.(t1 := DestroyCondMain, mutexDestroys := s.mutexDestroys + 1)
    case DestroyCondMain => s.(t1 := DestroyCondT1, condMainDestroys := s.condMainDestroys + 1)
    case DestroyCondT1 => s.(t1 := FreeBlock, condT1Destroys := s.condT1Destroys + 1)
    case FreeBlock => s.(t1 := WorkerGone, frees := s.frees + 1)
  }

  function Next(s: State, m: Move): State
    requires Enabled(s, m)
  {
    match m
    case MainMove => MainNext(s)
    case WorkerMove => WorkerNext(s)
    case MainSpurious => s.(main := WokenReady)
    case WorkerSpurious => s.(t1 := WokenGo)
  }

  const START := State(Create, Unborn, Free, false, false, 0, 0, 0, 0)

  ghost predicate IsRun(moves: seq<Move>, states: seq<State>) {
    && |states| == |moves| + 1
    && states[0] == START
    && forall k :: 0 <= k < |moves| ==> Enabled(states[k], moves[k]) && states[k + 1] == Next(states[k], moves[k])
  }

  /** The worker is past its wait: it owns the block. */
  predicate Owns(pc: WorkerPC) {
    pc.ReadArg? || pc.DestroyMutex? || pc.DestroyCondMain? || pc.DestroyCondT1? || pc.FreeBlock? || pc.WorkerGone?
  }

  predicate GoGiven(pc: MainPC) {
    pc.SignalGo? || pc.UnlockBlock? || pc.MainGone?
  }

  predicate BeforeReady(pc: WorkerPC) {
    pc.Unborn? || pc.LockStart? || pc.SetReady?
  }

  function Count(done: bool): nat {
    if done then 1 else 0
  }

  ghost predicate Inv(s: State) {
    && (s.mutex.Main? <==> MainHolds(s.main)) && (s.mutex.T1? <==> WorkerHolds(s.t1))
    && (s.main.Create? <==> s.t1.Unborn?)
    && (s.ready <==> !BeforeReady(s.t1)) && (s.go <==> GoGiven(s.main))
    && (s.main.SetGo? || GoGiven(s.main) ==> s.ready)
    // the worker passes its wait only after main's unlock
    && (s.t1.UnlockStart? || Owns(s.t1) ==> s.main.MainGone?)
    // no lost wakeup
    && (s.main.CallReady? ==> !s.ready) && (s.main.AsleepReady? ==> !s.ready || s.t1.SignalReady?)
    && (s.t1.CallGo? ==> !s.go) && (s.t1.AsleepGo? ==> !s.go || s.main.SignalGo?)
    // what is destroyed so far
    && s.mutexDestroys == Count(Owns(s.t1) && !s.t1.ReadArg? && !s.t1.DestroyMutex?)
    && s.condMainDestroys == Count(s.t1.DestroyCondT1? || s.t1.FreeBlock? || s.t1.WorkerGone?)
    && s.condT1Destroys == Count(s.t1.FreeBlock? || s.t1.WorkerGone?)
    && s.frees == Count(s.t1.WorkerGone?)
  }

  lemma MainKeepsInv(s: State)
    requires Inv(s) && Enabled(s, MainMove)
    ensures Inv(MainNext(s))
  {
  }

  lemma WorkerKeepsInv(s: State)
    requires Inv(s) && Enabled(s, WorkerMove)
    ensures Inv(WorkerNext(s))
  {
  }

  lemma StepKeepsInv(s: State, m: Move)
    requires Inv(s) && Enabled(s, m)
    ensures Inv(Next(s, m))
  {
    match m
    case MainMove => MainKeepsInv(s);
    case WorkerMove => WorkerKeepsInv(s);
    case _ =>
  }

  lemma {:induction false} RunInv(moves: seq<Move>, states: seq<State>, k: nat)
    requires IsRun(moves, states) && k <= |moves|
    ensures Inv(states[k])
  {
    hide Inv;
    if k == 0 {
      StartInv();
    } else {
      RunInv(moves, states, k - 1);
      assert states[k - 1 + 1] == Next(states[k - 1], moves[k - 1]);
      StepKeepsInv(states[k - 1], moves[k - 1]);
    }
  }

  lemma StartInv()
    ensures Inv(START)
  {
  }

  /** Ownership hand-over: in every run, whatever happens next respects the rules of Legal: no use of a destroyed
      primitive or of the freed block, each destroyed once and only when main has unlocked and is gone for good. */
  lemma RunsAreLegal(moves: seq<Move>, states: seq<State>, k: nat, m: Move)
    requires IsRun(moves, states) && k <= |moves| && Enabled(states[k], m)
    ensures Legal(states[k], m)
  {
    RunInv(moves, states, k);
  }

  /** Once the worker owns the block, main has completed its unlock and never moves again, the mutex is free,
      nobody waits, and at the end everything was destroyed and freed exactly once. */
  lemma OwnerAlone(moves: seq<Move>, states: seq<State>, k: nat)
    requires IsRun(moves, states) && k <= |moves| && Owns(states[k].t1)
    ensures var s := states[k];
            && s.main.MainGone? && !Enabled(s, MainMove) && !Enabled(s, MainSpurious)
            && s.mutex.Free? && s.ready && s.go
            && (s.t1.WorkerGone? ==>
                  s.mutexDestroys == 1 && s.condMainDestroys == 1 && s.condT1Destroys == 1 && s.frees == 1)
  {
    RunInv(moves, states, k);
  }

  // ----- What the agents do, seen from outside -----

  /** The agent of the move holds the mutex. */
  predicate Holds(s: State, m: Move) {
    (m.MainMove? && s.mutex.Main?) || (m.WorkerMove? && s.mutex.T1?)
  }

  function WithFlags(s: State, ready: bool, go: bool): State {
    s.(ready := ready, go := go)
  }

  /** A step whose agent does not hold the mutex neither reads nor writes the flags: with other flags it is possible
      just the same and has the same effect. */
  lemma FlagsOnlyUnderMutex(moves: seq<Move>, states: seq<State>, k: nat, m: Move, ready: bool, go: bool)
    requires IsRun(moves, states) && k <= |moves| && Enabled(states[k], m) && !Holds(states[k], m)
    ensures var s, u := states[k], WithFlags(states[k], ready, go);
            Enabled(u, m) && Next(u, m) == WithFlags(Next(s, m), ready, go)
  {
    RunInv(moves, states, k);
    hide IsRun;
    OutsideMutex(states[k], m, ready, go);
  }

  lemma OutsideMutex(s: State, m: Move, ready: bool, go: bool)
    requires Inv(s) && Enabled(s, m) && !Holds(s, m)
    ensures var u := WithFlags(s, ready, go);
            Enabled(u, m) && Next(u, m) == WithFlags(Next(s, m), ready, go)
  {
  }

  /** A step does one thing at a time: it changes the mutex, or a flag, or it starts or wakes the other agent, or it
      destroys or frees. */
  lemma OneThingAtATime(s: State, m: Move)
    requires Enabled(s, m)
    ensures var t := Next(s, m);
            (if t.mutex != s.mutex then 1 else 0)
            + (if t.ready != s.ready then 1 else 0) + (if t.go != s.go then 1 else 0)
            + (if t.main != s.main && t.t1 != s.t1 then 1 else 0)
            + (t.mutexDestroys - s.mutexDestroys) + (t.condMainDestroys - s.condMainDestroys)
            + (t.condT1Destroys - s.condT1Destroys) + (t.frees - s.frees) <= 1
  {
  }

  datatype Effect = 
    | Creates | Locks | Unlocks | RaisesReady | RaisesGo
    | DestroysMutex | DestroysCondMain | DestroysCondT1 | Frees

  /** What a step of main changes for others; a wait, which gives the mutex up and takes it again, is left out. */
  function MainSees(s: State, m: Move, t: State): seq<Effect> {
    (if s.t1.Unborn? && !t.t1.Unborn? then [Creates] else [])
    + (if !s.mutex.Main? && t.mutex.Main? && !s.main.WokenReady? then [Locks] else [])
    + (if !s.go && t.go then [RaisesGo] else [])
    + (if s.mutex.Main? && !t.mutex.Main? && !t.main.AsleepReady? then [Unlocks] else [])
  }

  /** The same for the worker. */
  function WorkerSees(s: State, m: Move, t: State): seq<Effect> {
    (if !s.mutex.T1? && t.mutex.T1? && !s.t1.WokenGo? then [Locks] else [])
    + (if !s.ready && t.ready then [RaisesReady] else [])
    + (if s.mutex.T1? && !t.mutex.T1? && !t.t1.AsleepGo? then [Unlocks] else [])
    + (if t.mutexDestroys > s.mutexDestroys then [DestroysMutex] else [])
    + (if t.condMainDestroys > s.condMainDestroys then [DestroysCondMain] else [])
    + (if t.condT1Destroys > s.condT1Destroys then [DestroysCondT1] else [])
    + (if t.frees > s.frees then [Frees] else [])
  }

  function OfMain(m: Move): bool {
    m.MainMove?
  }

  function OfWorker(m: Move): bool {
    m.WorkerMove?
  }

  /** Lines 85-98 of main. */
  const MAIN_PROGRAM := [Creates, Locks, RaisesGo, Unlocks]

  /** Lines 121-142 of the thread. */
  const WORKER_PROGRAM := [Locks, RaisesReady, Unlocks, DestroysMutex, DestroysCondMain, DestroysCondT1, Frees]

  /** How much of them is done. */
  function MainDone(pc: MainPC): nat {
    match pc
    case Create => 0
    case LockBlock => 1
    case SignalGo => 3
    case UnlockBlock => 3
    case MainGone => 4
    case _ => 2
  }

  function WorkerDone(pc: WorkerPC): nat {
    match pc
    case Unborn => 0
    case LockStart => 0
    case SetReady => 1
    case ReadArg => 3
    case DestroyMutex => 3
    case DestroyCondMain => 4
    case DestroyCondT1 => 5
    case FreeBlock => 6
    case WorkerGone => 7
    case _ => 2
  }

  lemma MainStep(s: State, m: Move)
    requires Inv(s) && Enabled(s, m)
    ensures var t := Next(s, m);
            MAIN_PROGRAM[..MainDone(t.main)]
            == MAIN_PROGRAM[..MainDone(s.main)] + if OfMain(m) then MainSees(s, m, t) else []
  {
  }

  lemma WorkerStep(s: State, m: Move)
    requires Inv(s) && Enabled(s, m)
    ensures var t := Next(s, m);
            WORKER_PROGRAM[..WorkerDone(t.t1)]
            == WORKER_PROGRAM[..WorkerDone(s.t1)] + if OfWorker(m) then WorkerSees(s, m, t) else []
  {
  }

  /** In every run main does what its program says, in that order: create the thread, lock, give the go, unlock. */
  lemma {:induction false} MainFollowsProgram(moves: seq<Move>, states: seq<State>, k: nat)
    requires IsRun(moves, states) && k <= |moves|
    ensures Trace(OfMain, MainSees, moves, states, k) == MAIN_PROGRAM[..MainDone(states[k].main)]
    ensures states[k].main.MainGone? ==> Trace(OfMain, MainSees, moves, states, k) == MAIN_PROGRAM
  {
    if k == 0 {
    } else {
      hide Inv, Enabled, Next, MainSees;
      MainFollowsProgram(moves, states, k - 1);
      RunInv(moves, states, k - 1);
      assert states[k - 1 + 1] == Next(states[k - 1], moves[k - 1]);
      MainStep(states[k - 1], moves[k - 1]);
    }
  }

  /** And the thread: lock, report ready, unlock, destroy the three primitives, free the block. */
  lemma {:induction false} WorkerFollowsProgram(moves: seq<Move>, states: seq<State>, k: nat)
    requires IsRun(moves, states) && k <= |moves|
    ensures Trace(OfWorker, WorkerSees, moves, states, k) == WORKER_PROGRAM[..WorkerDone(states[k].t1)]
    ensures states[k].t1.WorkerGone? ==> Trace(OfWorker, WorkerSees, moves, states, k) == WORKER_PROGRAM
  {
    if k == 0 {
    } else {
      hide Inv, Enabled, Next, WorkerSees;
      WorkerFollowsProgram(moves, states, k - 1);
      RunInv(moves, states, k - 1);
      assert states[k - 1 + 1] == Next(states[k - 1], moves[k - 1]);
      WorkerStep(states[k - 1], moves[k - 1]);
    }
  }

  /** No reachable state is stuck, so the block is always freed in the end. */
  lemma NeverStuck(moves: seq<Move>, states: seq<State>, k: nat)
    requires IsRun(moves, states) && k <= |moves|
    ensures (states[k].main.MainGone? && states[k].t1.WorkerGone?)
            || Enabled(states[k], MainMove) || Enabled(states[k], WorkerMove)
  {
    RunInv(moves, states, k);
  }

  function Measure(s: State): int {
    (match s.main
     case Create => 12
     case LockBlock => 11
     case WokenReady => 11
     case TestReady => 10
     case CallReady => 9
     case AsleepReady => 8
     case SetGo => 7
     case SignalGo => 6
     case UnlockBlock => 1
     case MainGone => 0)
    + (match s.t1
       case Unborn => 21
       case LockStart => 21
       case SetReady => 20
       case SignalReady => 19
       case WokenGo => 12
       case TestGo => 11
       case CallGo => 10
       case AsleepGo => 9
       case UnlockStart => 7
       case ReadArg => 6
       case DestroyMutex => 5
       case DestroyCondMain => 4
       case DestroyCondT1 => 3
       case FreeBlock => 2
       case WorkerGone => 0)
  }

  lemma StepLowers(s: State, m: Move)
    requires Enabled(s, m) && (s.main.Create? ==> s.t1.Unborn?)
    ensures Measure(Next(s, m)) <= Measure(s) + if Spurious(m) then 3 else -1
  {
    match m
    case MainMove => MainLowers(s);
    case WorkerMove => WorkerLowers(s);
    case _ =>
  }

  lemma MainLowers(s: State)
    requires Enabled(s, MainMove) && (s.main.Create? ==> s.t1.Unborn?)
    ensures Measure(MainNext(s)) < Measure(s)
  {
  }

  lemma WorkerLowers(s: State)
    requires Enabled(s, WorkerMove)
    ensures Measure(WorkerNext(s)) < Measure(s)
  {
  }

  lemma MeasureBounds(s: State)
    ensures 0 <= Measure(s)
    ensures s == START ==> Measure(s) == 33
  {
  }

  /** Every run ends: at most 33 steps, and four more for each spurious wakeup. */
  lemma {:induction false} BoundedRun(moves: seq<Move>, states: seq<State>, k: nat)
    requires IsRun(moves, states) && k <= |moves|
    ensures k + Measure(states[k]) <= 33 + 4 * CountMoves(Spurious, moves, k)
    ensures k <= 33 + 4 * CountMoves(Spurious, moves, k)
  {
    MeasureBounds(states[k]);
    if k == 0 {
    } else {
      RunInv(moves, states, k - 1);
      hide Measure, Enabled, Next;
      BoundedRun(moves, states, k - 1);
      assert states[k - 1 + 1] == Next(states[k - 1], moves[k - 1]);
      StepLowers(states[k - 1], moves[k - 1]);
    }
  }
}

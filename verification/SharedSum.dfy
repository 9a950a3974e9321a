/**
 The threads of 12_2_1: each takes a permit of a counting semaphore, counts to `loops` in a local variable and adds
 the result to a shared sum under a mutex; main creates them, joins them and destroys the primitives.
 */
module SharedSum {
  import opened Sequences
  import opened Runs

  const INT_MAX := 0x7FFF_FFFF

  /** SVAL_INITIAL and LOOP_COUNT. */
  datatype Setup = Setup(permits: nat, loops: nat)

  datatype MainPC =
    | Create(i: nat)     // 86-94
    | Join(i: nat)       // 96-103
    | DestroySem         // 105
    | DestroyMutex       // 106
    | Report             // 108
    | Exited

  datatype ThreadPC =
    | Unborn
    | WaitPermit         // 121
    | Count              // 128-132
    | LockMutex          // 135
    | Load               // 137: glob is read
    | Store              // 137: the sum is written
    | UnlockMutex        // 138
    | PostPermit         // 140
    | Gone               // 146

  /** A thread with its loop variables and the value of `glob` that it has read for the addition. */
  datatype Thread = Thread(pc: ThreadPC, j: nat, local: int, reg: int)

  datatype Holder = Free | Held(i: nat)

  datatype State = State(main: MainPC, ts: seq<Thread>, glob: int, sem: nat, mutex: Holder,
                         semAlive: bool, mutexAlive: bool)

  datatype Move = MainMove | ThreadMove(i: nat) | WaitFails(i: nat)

  predicate Enabled(s: State, m: Move) {
    match m
    case MainMove =>
      !s.main.Exited? && (s.main.Join? && s.main.i < |s.ts| ==> s.ts[s.main.i].pc.Gone?)
    case ThreadMove(i) =>
      i < |s.ts| && !s.ts[i].pc.Unborn? && !s.ts[i].pc.Gone?
      && (s.ts[i].pc.WaitPermit? ==> s.sem > 0) && (s.ts[i].pc.LockMutex? ==> s.mutex.Free?)
    case WaitFails(i) => i < |s.ts| && s.ts[i].pc.WaitPermit?
  }

  /** The sum is touched under the mutex only and stays in the range of int; destroyed primitives are not used,
      and only idle ones are destroyed. */
  predicate Legal(s: State, m: Move)
    requires Enabled(s, m)
  {
    match m
    case MainMove =>
      (match s.main
       case Create(i) => i < |s.ts| ==> s.ts[i].pc.Unborn?
       case DestroySem => s.semAlive && forall k :: 0 <= k < |s.ts| ==> s.ts[k].pc.Gone?
       case DestroyMutex => s.mutexAlive && s.mutex.Free?
       case Report => forall k :: 0 <= k < |s.ts| ==> s.ts[k].pc.Gone?
       case _ => true)
    case ThreadMove(i) =>
      (match s.ts[i].pc
       case WaitPermit => s.semAlive
       case LockMutex => s.mutexAlive
       case Load => s.mutex == Held(i)
       case Store => s.mutex == Held(i) && s.ts[i].reg + s.ts[i].local <= INT_MAX
       case UnlockMutex => s.mutexAlive && s.mutex == Held(i)
       case PostPermit => s.semAlive
       case _ => true)
    case WaitFails(_) => s.semAlive
  }

  function ThreadNext(c: Setup, s: State, i: nat): State
    requires Enabled(s, ThreadMove(i))
  {
    var t := s.ts[i];
    match t.pc
    case WaitPermit => s.(sem := s.sem - 1, ts := s.ts[i := Thread(Count, 0, 0, 0)])
    case Count =>
      s.(ts := s.ts[i := if t.j < c.loops then t.(j := t.j + 1, local := t.local + 1) else t.(pc := LockMutex)])
    case LockMutex => s.(mutex := Held(i), ts := s.ts[i := t.(pc := Load)])
    case Load => s.(ts := s.ts[i := t.(pc := Store, reg := s.glob)])
    case Store => s.(glob := t.reg + t.local, ts := s.ts[i := t.(pc := UnlockMutex)])
    case UnlockMutex => s.(mutex := Free, ts := s.ts[i := t.(pc := PostPermit)])
    case PostPermit => s.(sem := s.sem + 1, ts := s.ts[i := t.(pc := Gone)])
  }

  function Next(c: Setup, s: State, m: Move): State
    requires Enabled(s, m)
  {
    match m
    case MainMove =>
      (match s.main
       case Create(i) =>
         if i < |s.ts| then s.(main := Create(i + 1), ts := s.ts[i := Thread(WaitPermit, 0, 0, 0)])
         else s.(main := Join(0))
       case Join(i) => s.(main := if i < |s.ts| then Join(i + 1) else DestroySem)
       case DestroySem => s.(main := DestroyMutex, semAlive := false)
       case DestroyMutex => s.(main := Report, mutexAlive := false)
       case Report => s.(main := Exited))
    case ThreadMove(i) => ThreadNext(c, s, i)
    case WaitFails(i) => s.(ts := s.ts[i := Thread(Count, 0, 0, 0)])   // reported and ignored, 121-124
  }

  function Initial(c: Setup, n: nat): State {
    State(Create(0), seq(n, _ => Thread(Unborn, 0, 0, 0)), 0, c.permits, Free, true, true)
  }

  ghost predicate IsStep(c: Setup, s: State, m: Move, t: State) {
    Enabled(s, m) && Legal(s, m) && t == Next(c, s, m)
  }

  ghost predicate IsRun(c: Setup, n: nat, moves: seq<Move>, states: seq<State>) {
    && |states| == |moves| + 1
    && states[0] == Initial(c, n)
    && forall k :: 0 <= k < |moves| ==> IsStep(c, states[k], moves[k], states[k + 1])
  }

  // ----- Invariant -----

  /** Between wait and post, whether or not the wait succeeded. */
  predicate Inside(pc: ThreadPC) {
    pc.Count? || pc.LockMutex? || pc.Load? || pc.Store? || pc.UnlockMutex? || pc.PostPermit?
  }

  function InsideBit(t: Thread): int {
    if Inside(t.pc) then 1 else 0
  }

  predicate HasAdded(pc: ThreadPC) {
    pc.UnlockMutex? || pc.PostPermit? || pc.Gone?
  }

  function AddedBit(t: Thread): int {
    if HasAdded(t.pc) then 1 else 0
  }

  function Contribution(t: Thread): int {
    if HasAdded(t.pc) then t.local else 0
  }

  /** Between locking and unlocking. */
  predicate AtSum(pc: ThreadPC) {
    pc.Load? || pc.Store? || pc.UnlockMutex?
  }

  ghost predicate ThreadOk(c: Setup, main: MainPC, mutex: Holder, t: Thread, i: int) {
    && (t.pc.Unborn? <==> main.Create? && main.i <= i)
    && (main.Join? && i < main.i ==> t.pc.Gone?)
    && (!main.Create? && !main.Join? ==> t.pc.Gone?)
    && (t.pc.Count? ==> t.local == t.j <= c.loops)
    && (t.pc.LockMutex? || AtSum(t.pc) || HasAdded(t.pc) ==> t.local == c.loops)
    && (mutex.Held? && mutex.i == i <==> AtSum(t.pc))
  }

  ghost predicate Threads(c: Setup, s: State) {
    && (s.main.Create? ==> s.main.i <= |s.ts|) && (s.main.Join? ==> s.main.i <= |s.ts|)
    && (s.mutex.Held? ==> s.mutex.i < |s.ts|)
    && (s.semAlive <==> s.main.Create? || s.main.Join? || s.main.DestroySem?)
    && (s.mutexAlive <==> s.main.Create? || s.main.Join? || s.main.DestroySem? || s.main.DestroyMutex?)
    && forall i :: 0 <= i < |s.ts| ==> ThreadOk(c, s.main, s.mutex, s.ts[i], i)
  }

  ghost predicate Sums(c: Setup, s: State) {
    && s.glob == SumBy(Contribution, s.ts)
    && s.sem + SumBy(InsideBit, s.ts) >= c.permits
  }

  /** Nobody changes the sum between a thread's load and its store. */
  ghost predicate Loaded(s: State) {
    forall i :: 0 <= i < |s.ts| && s.ts[i].pc.Store? ==> s.ts[i].reg == s.glob
  }

  ghost predicate Inv(c: Setup, s: State) {
    Threads(c, s) && Loaded(s) && Sums(c, s)
  }

  lemma {:induction false} NothingYet(ts: seq<Thread>)
    requires forall i :: 0 <= i < |ts| ==> ts[i].pc.Unborn?
    ensures SumBy(Contribution, ts) == 0 && SumBy(InsideBit, ts) == 0
  {
    if ts == [] {
    } else {
      NothingYet(ts[1..]);
    }
  }

  /** What was added so far is `loops` for each thread past its addition. */
  lemma {:induction false} ContributionIs(c: Setup, ts: seq<Thread>)
    requires forall i :: 0 <= i < |ts| && HasAdded(ts[i].pc) ==> ts[i].local == c.loops
    ensures SumBy(Contribution, ts) == c.loops * SumBy(AddedBit, ts)
  {
    if ts == [] {
    } else {
      ContributionIs(c, ts[1..]);
      var x, y := AddedBit(ts[0]), SumBy(AddedBit, ts[1..]);
      assert c.loops * (x + y) == c.loops * x + c.loops * y;
    }
  }

  lemma ThreadKeepsThreads(c: Setup, s: State, i: nat)
    requires Threads(c, s) && Enabled(s, ThreadMove(i))
    ensures Threads(c, ThreadNext(c, s, i))
  {
    var t := ThreadNext(c, s, i);
    forall k | 0 <= k < |s.ts| ensures ThreadOk(c, t.main, t.mutex, t.ts[k], k) {
      assert ThreadOk(c, s.main, s.mutex, s.ts[k], k) && ThreadOk(c, s.main, s.mutex, s.ts[i], i);
    }
  }

  /** Here the mutex is needed: the only thread at its load or store is the one that holds it. */
  lemma ThreadKeepsLoaded(c: Setup, s: State, i: nat)
    requires Threads(c, s) && Loaded(s) && Enabled(s, ThreadMove(i))
    ensures Loaded(ThreadNext(c, s, i))
  {
    var t := ThreadNext(c, s, i);
    forall k | 0 <= k < |s.ts| && t.ts[k].pc.Store? ensures t.ts[k].reg == t.glob {
      assert ThreadOk(c, s.main, s.mutex, s.ts[k], k) && ThreadOk(c, s.main, s.mutex, s.ts[i], i);
    }
  }

  /** A thread's step changes its own entry only, the sum by its contribution, and the semaphore by its permit. */
  lemma ThreadEffect(c: Setup, s: State, i: nat)
    requires Enabled(s, ThreadMove(i)) && (s.ts[i].pc.Store? ==> s.ts[i].reg == s.glob)
    ensures var t := ThreadNext(c, s, i);
            && |t.ts| == |s.ts| && t.ts == s.ts[i := t.ts[i]]
            && t.glob - s.glob == Contribution(t.ts[i]) - Contribution(s.ts[i])
            && t.sem + InsideBit(t.ts[i]) == s.sem + InsideBit(s.ts[i])
  {
  }

  /** Permits and threads inside together: every failed wait adds one, nothing else changes it. */
  lemma StepBalance(c: Setup, s: State, m: Move)
    requires Enabled(s, m)
    requires m.MainMove? && s.main.Create? && s.main.i < |s.ts| ==> s.ts[s.main.i].pc.Unborn?
    requires Loaded(s)
    ensures var t := Next(c, s, m);
            t.sem + SumBy(InsideBit, t.ts) == s.sem + SumBy(InsideBit, s.ts) + if m.WaitFails? then 1 else 0
  {
    var t := Next(c, s, m);
    match m
    case MainMove => SumSame(InsideBit, s.ts, t.ts);
    case ThreadMove(i) =>
      ThreadEffect(c, s, i);
      SumUpdate(InsideBit, s.ts, i, t.ts[i]);
    case WaitFails(i) => SumUpdate(InsideBit, s.ts, i, t.ts[i]);
  }

  lemma ThreadKeepsSums(c: Setup, s: State, i: nat)
    requires Sums(c, s) && Loaded(s) && Enabled(s, ThreadMove(i))
    ensures Sums(c, ThreadNext(c, s, i))
  {
    ThreadEffect(c, s, i);
    hide ThreadNext, Contribution, InsideBit, Enabled;
    SumUpdate(Contribution, s.ts, i, ThreadNext(c, s, i).ts[i]);
    SumUpdate(InsideBit, s.ts, i, ThreadNext(c, s, i).ts[i]);
  }

  lemma MainKeepsInv(c: Setup, s: State)
    requires Inv(c, s) && Enabled(s, MainMove)
    ensures Inv(c, Next(c, s, MainMove))
  {
    var t := Next(c, s, MainMove);
    SumSame(Contribution, s.ts, t.ts);
    SumSame(InsideBit, s.ts, t.ts);
    forall k | 0 <= k < |s.ts| ensures ThreadOk(c, t.main, t.mutex, t.ts[k], k) {
      assert ThreadOk(c, s.main, s.mutex, s.ts[k], k);
    }
  }

  lemma FailureKeepsInv(c: Setup, s: State, i: nat)
    requires Inv(c, s) && Enabled(s, WaitFails(i))
    ensures Inv(c, Next(c, s, WaitFails(i)))
  {
    var t := Next(c, s, WaitFails(i));
    SumSame(Contribution, s.ts, t.ts);
    StepBalance(c, s, WaitFails(i));
    forall k | 0 <= k < |s.ts| ensures ThreadOk(c, t.main, t.mutex, t.ts[k], k) {
      assert ThreadOk(c, s.main, s.mutex, s.ts[k], k);
    }
  }

  lemma StepKeepsInv(c: Setup, s: State, m: Move)
    requires Inv(c, s) && Enabled(s, m)
    ensures Inv(c, Next(c, s, m))
  {
    hide ThreadOk;
    match m
    case MainMove => MainKeepsInv(c, s);
    case ThreadMove(i) =>
      ThreadKeepsThreads(c, s, i);
      ThreadKeepsLoaded(c, s, i);
      ThreadKeepsSums(c, s, i);
    case WaitFails(i) => FailureKeepsInv(c, s, i);
  }

  lemma {:induction false} RunInv(c: Setup, n: nat, moves: seq<Move>, states: seq<State>, k: nat)
    requires IsRun(c, n, moves, states) && k <= |moves|
    ensures Inv(c, states[k]) && |states[k].ts| == n
  {
    if k == 0 {
      NothingYet(Initial(c, n).ts);
    } else {
      RunInv(c, n, moves, states, k - 1);
      assert IsStep(c, states[k - 1], moves[k - 1], states[k - 1 + 1]);
      StepKeepsInv(c, states[k - 1], moves[k - 1]);
    }
  }

  // ----- Theorems -----

  /** The sum is `loops` times the number of threads past the addition, for every number of permits and even if
      waits fail, because only the mutex guards it; at the report it is `loops` times the number of threads. */
  lemma SumIsExact(c: Setup, n: nat, moves: seq<Move>, states: seq<State>, k: nat)
    requires IsRun(c, n, moves, states) && k <= |moves|
    ensures var s := states[k];
            && s.glob == c.loops * SumBy(AddedBit, s.ts)
            && 0 <= SumBy(AddedBit, s.ts) <= n
            && (s.main.Report? || s.main.Exited? ==> s.glob == c.loops * n)
  {
    RunInv(c, n, moves, states, k);
    var s := states[k];
    assert forall i :: 0 <= i < |s.ts| ==> ThreadOk(c, s.main, s.mutex, s.ts[i], i);
    ContributionIs(c, s.ts);
    SumAtLeast(AddedBit, s.ts);
    SumFull(AddedBit, s.ts, 1);
  }

  /** A failing wait on the semaphore, which the threads report and ignore. */
  predicate FailsToEnter(m: Move) {
    m.WaitFails?
  }

  /** The number of threads between wait and post. */
  function InsideCount(s: State): int {
    SumBy(InsideBit, s.ts)
  }

  /** Conservation: permits left and threads between wait and post add up to the initial value and the failed waits. */
  lemma {:induction false} PermitsConserved(c: Setup, n: nat, moves: seq<Move>, states: seq<State>, k: nat)
    requires IsRun(c, n, moves, states) && k <= |moves|
    ensures states[k].sem + InsideCount(states[k]) == c.permits + CountMoves(FailsToEnter, moves, k)
  {
    if k == 0 {
      NothingYet(Initial(c, n).ts);
    } else {
      PermitsConserved(c, n, moves, states, k - 1);
      RunInv(c, n, moves, states, k - 1);
      assert IsStep(c, states[k - 1], moves[k - 1], states[k - 1 + 1]);
      StepBalance(c, states[k - 1], moves[k - 1]);
    }
  }

  /** Mutual exclusion around the sum. Between wait and post there are at most `permits` threads as long as no wait
      has failed, and at most one more for each failed wait. */
  lemma Exclusion(c: Setup, n: nat, moves: seq<Move>, states: seq<State>, k: nat)
    requires IsRun(c, n, moves, states) && k <= |moves|
    ensures var s := states[k];
            && (forall i, j :: 0 <= i < j < |s.ts| ==>
                  !(AtSum(s.ts[i].pc) && AtSum(s.ts[j].pc)))
            && InsideCount(s) <= c.permits + CountMoves(FailsToEnter, moves, k)
            && ((forall j :: 0 <= j < k ==> !FailsToEnter(moves[j])) ==> InsideCount(s) <= c.permits)
  {
    RunInv(c, n, moves, states, k);
    PermitsConserved(c, n, moves, states, k);
    if forall j :: 0 <= j < k ==> !FailsToEnter(moves[j]) {
      NoneCounted(FailsToEnter, moves, k);
    }
    var s := states[k];
    forall i, j | 0 <= i < j < |s.ts|
      ensures !(AtSum(s.ts[i].pc) && AtSum(s.ts[j].pc))
    {
      assert ThreadOk(c, s.main, s.mutex, s.ts[i], i) && ThreadOk(c, s.main, s.mutex, s.ts[j], j);
    }
  }

  /** The run leads to the state `to`. */
  ghost predicate Leads(c: Setup, n: nat, run: Run<State, Move>, to: State) {
    IsRun(c, n, run.moves, run.states) && run.states[|run.moves|] == to
  }

  ghost function Failures(run: Run<State, Move>): nat {
    CountMoves(FailsToEnter, run.moves, |run.moves|)
  }

  /** One more move of a run. */
  lemma Go(c: Setup, n: nat, run: Run<State, Move>, s: State, m: Move) returns (longer: Run<State, Move>)
    requires Leads(c, n, run, s) && Enabled(s, m) && Legal(s, m)
    ensures Leads(c, n, longer, Next(c, s, m))
    ensures Failures(longer) == Failures(run) + if m.WaitFails? then 1 else 0
  {
    longer := Run(run.moves + [m], run.states + [Next(c, s, m)]);
    var ms, ss := longer.moves, longer.states;
    assert IsStep(c, s, m, Next(c, s, m));
    hide IsStep, Next, Enabled, Legal;
    forall k | 0 <= k < |ms| ensures IsStep(c, ss[k], ms[k], ss[k + 1]) {
      if k < |run.moves| {
        assert IsStep(c, run.states[k], run.moves[k], run.states[k + 1]);
      }
    }
    SameCount(FailsToEnter, run.moves, [m], |run.moves|);
  }

  /** The first `b` of `n` threads are created, and the first `e` of these are past their wait. */
  function Crowd(n: nat, b: nat, e: nat): seq<Thread> {
    seq(n, i => Thread(if i < e then Count else if i < b then WaitPermit else Unborn, 0, 0, 0))
  }

  lemma {:induction false} AllCreated(c: Setup, n: nat, b: nat) returns (run: Run<State, Move>)
    requires b <= n
    ensures Leads(c, n, run, State(Create(b), Crowd(n, b, 0), 0, c.permits, Free, true, true)) && Failures(run) == 0
  {
    if b == 0 {
      run := Run([], [Initial(c, n)]);
      assert Initial(c, n).ts == Crowd(n, 0, 0);
    } else {
      run := AllCreated(c, n, b - 1);
      run := Go(c, n, run, State(Create(b - 1), Crowd(n, b - 1, 0), 0, c.permits, Free, true, true), MainMove);
      assert Crowd(n, b - 1, 0)[b - 1 := Thread(WaitPermit, 0, 0, 0)] == Crowd(n, b, 0);
    }
  }

  /** All `n` threads are created, the first `e` are past their wait, and `sem` permits are left. */
  function Entered(n: nat, e: nat, sem: nat): State {
    State(Create(n), Crowd(n, n, e), 0, sem, Free, true, true)
  }

  /** The next thread gets past its wait, with a permit or without one. */
  lemma Enters(c: Setup, n: nat, e: nat, sem: nat, m: Move)
    requires e < n && (m == WaitFails(e) || (m == ThreadMove(e) && sem > 0))
    ensures Enabled(Entered(n, e, sem), m) && Legal(Entered(n, e, sem), m)
    ensures Next(c, Entered(n, e, sem), m) == Entered(n, e + 1, if m.WaitFails? then sem else sem - 1)
  {
    assert Crowd(n, n, e)[e := Thread(Count, 0, 0, 0)] == Crowd(n, n, e + 1);
  }

  lemma {:induction false} Crowded(c: Setup, fails: nat, e: nat) returns (run: Run<State, Move>)
    requires e <= c.permits + fails
    ensures var n := c.permits + fails;
            && Leads(c, n, run, Entered(n, e, if e < fails then c.permits else n - e))
            && Failures(run) == if e < fails then e else fails
  {
    var n := c.permits + fails;
    if e == 0 {
      run := AllCreated(c, n, n);
    } else {
      run := Crowded(c, fails, e - 1);
      var m := if e <= fails then WaitFails(e - 1) else ThreadMove(e - 1);
      var sem := if e <= fails then c.permits else n - (e - 1);
      Enters(c, n, e - 1, sem, m);
      run := Go(c, n, run, Entered(n, e - 1, sem), m);
    }
  }

  /** The bound is sharp: for any number of permits and any number of failed waits there is a run with that many
      failures in which as many threads as both together are between wait and post. */
  lemma FailedWaitsLetIn(c: Setup, fails: nat) returns (run: Run<State, Move>)
    ensures IsRun(c, c.permits + fails, run.moves, run.states) && Failures(run) == fails
    ensures InsideCount(run.states[|run.moves|]) == c.permits + fails
  {
    run := Crowded(c, fails, c.permits + fails);
    SumFull(InsideBit, run.states[|run.moves|].ts, 1);
  }

  /** A thread about to add leaves the range of int exactly when `loops` times one more thread does. */
  lemma OverflowIff(c: Setup, n: nat, moves: seq<Move>, states: seq<State>, k: nat, i: nat)
    requires IsRun(c, n, moves, states) && k <= |moves|
    requires i < |states[k].ts| && states[k].ts[i].pc.Store?
    ensures var s := states[k];
            && Enabled(s, ThreadMove(i))
            && (Legal(s, ThreadMove(i)) <==> c.loops * (SumBy(AddedBit, s.ts) + 1) <= INT_MAX)
            && SumBy(AddedBit, s.ts) < n
  {
    RunInv(c, n, moves, states, k);
    SumIsExact(c, n, moves, states, k);
    var s := states[k];
    assert ThreadOk(c, s.main, s.mutex, s.ts[i], i);
    SumFull(AddedBit, s.ts, 1);
    assert AddedBit(s.ts[i]) == 0;
    var a := SumBy(AddedBit, s.ts);
    assert c.loops * (a + 1) == c.loops * a + c.loops;
  }

  lemma MainLegal(c: Setup, s: State)
    requires Threads(c, s) && Enabled(s, MainMove)
    ensures Legal(s, MainMove)
  {
    assert forall i :: 0 <= i < |s.ts| ==> ThreadOk(c, s.main, s.mutex, s.ts[i], i);
    if s.mutex.Held? {
      assert ThreadOk(c, s.main, s.mutex, s.ts[s.mutex.i], s.mutex.i);
    }
  }

  lemma ThreadLegal(c: Setup, s: State, i: nat)
    requires Threads(c, s) && i < |s.ts| && ThreadOk(c, s.main, s.mutex, s.ts[i], i)
    ensures Enabled(s, ThreadMove(i)) && !s.ts[i].pc.Store? ==> Legal(s, ThreadMove(i))
    ensures Enabled(s, WaitFails(i)) ==> Legal(s, WaitFails(i))
  {
  }

  /** With n * loops in the range of int every possible move is legal: no overflow, no use after destruction. */
  lemma RunsAreLegal(c: Setup, n: nat, moves: seq<Move>, states: seq<State>, k: nat, m: Move)
    requires IsRun(c, n, moves, states) && k <= |moves| && c.loops * n <= INT_MAX
    requires Enabled(states[k], m)
    ensures Legal(states[k], m)
  {
    RunInv(c, n, moves, states, k);
    hide Legal;
    var s := states[k];
    if m.MainMove? {
      MainLegal(c, s);
    } else if m.ThreadMove? && s.ts[m.i].pc.Store? {
      OverflowIff(c, n, moves, states, k, m.i);
      SumIsExact(c, n, moves, states, k);
      MultiplyMonotone(c.loops, SumBy(AddedBit, s.ts) + 1, n);
    } else {
      ThreadLegal(c, s, m.i);
    }
  }

  /** A started thread can go on, or the holder of what it waits for can. */
  lemma ThreadMoves(c: Setup, s: State, i: nat) returns (m: Move)
    requires Inv(c, s) && c.permits >= 1
    requires i < |s.ts| && !s.ts[i].pc.Unborn? && !s.ts[i].pc.Gone?
    ensures Enabled(s, m) && !m.WaitFails?
  {
    if s.mutex.Held? {
      m := ThreadMove(s.mutex.i);
      assert ThreadOk(c, s.main, s.mutex, s.ts[m.i], m.i);
    } else if s.ts[i].pc.WaitPermit? && s.sem == 0 {
      var k := PositiveTerm(InsideBit, s.ts);
      m := ThreadMove(k);
    } else {
      m := ThreadMove(i);
    }
  }

  /** No deadlock: until main has exited, some agent can go on without a failing wait. */
  lemma NoDeadlock(c: Setup, s: State) returns (m: Move)
    requires Inv(c, s) && c.permits >= 1 && !s.main.Exited?
    ensures Enabled(s, m) && !m.WaitFails?
  {
    if Enabled(s, MainMove) {
      m := MainMove;
    } else {
      assert ThreadOk(c, s.main, s.mutex, s.ts[s.main.i], s.main.i);
      m := ThreadMoves(c, s, s.main.i);
    }
  }

  // ----- What the threads do, seen from outside -----

  /** A step whose agent does not hold the mutex neither reads nor writes the sum: with another value of the sum it is
      possible just the same and has the same effect. */
  lemma SumOnlyUnderMutex(c: Setup, n: nat, moves: seq<Move>, states: seq<State>, k: nat, m: Move, v: int)
    requires IsRun(c, n, moves, states) && k <= |moves| && Enabled(states[k], m)
    requires m.ThreadMove? ==> states[k].mutex != Held(m.i)
    ensures var s := states[k];
            Enabled(s.(glob := v), m) && Next(c, s.(glob := v), m) == Next(c, s, m).(glob := v)
  {
    RunInv(c, n, moves, states, k);
    var s := states[k];
    if m.ThreadMove? {
      assert ThreadOk(c, s.main, s.mutex, s.ts[m.i], m.i);
    }
  }

  /** The sum changes only in a step of the thread that holds the mutex before and after it, by `loops`. */
  lemma SumChangesUnderMutex(c: Setup, n: nat, moves: seq<Move>, states: seq<State>, k: nat)
    requires IsRun(c, n, moves, states) && k < |moves| && states[k + 1].glob != states[k].glob
    ensures moves[k].ThreadMove?
    ensures states[k].mutex == states[k + 1].mutex == Held(moves[k].i)
    ensures states[k + 1].glob == states[k].glob + c.loops
  {
    RunInv(c, n, moves, states, k);
    var s, m := states[k], moves[k];
    assert IsStep(c, s, m, states[k + 1]);
    assert m.ThreadMove? ==> ThreadOk(c, s.main, s.mutex, s.ts[m.i], m.i);
  }

  /** No step both reads the sum and writes it: where it changes, the new value does not depend on the old one. */
  lemma ReadsOrWrites(c: Setup, s: State, m: Move, v: int)
    requires Enabled(s, m) && Enabled(s.(glob := v), m)
    ensures Next(c, s, m).glob == s.glob || Next(c, s.(glob := v), m).glob == Next(c, s, m).glob
  {
  }

  /** A step does one thing at a time: it changes the semaphore, or the mutex, or the sum. */
  lemma OneThingAtATime(c: Setup, s: State, m: Move)
    requires Enabled(s, m)
    ensures var t := Next(c, s, m);
            (if t.sem != s.sem then 1 else 0) + (if t.mutex != s.mutex then 1 else 0)
            + (if t.glob != s.glob then 1 else 0) <= 1
  {
  }

  datatype Effect = Takes | Fails | Locks | Adds(amount: int) | Unlocks | Posts

  /** What a step of thread `i` changes for others, read off the states before and after it. */
  function Sees(i: nat): (State, Move, State) -> seq<Effect> {
    (s: State, m: Move, t: State) =>
      (if m == WaitFails(i) then [Fails] else [])
      + (if t.sem < s.sem then [Takes] else if t.sem > s.sem then [Posts] else [])
      + (if s.mutex.Free? && t.mutex == Held(i) then [Locks] else [])
      + (if t.glob != s.glob then [Adds(t.glob - s.glob)] else [])
      + (if s.mutex == Held(i) && t.mutex.Free? then [Unlocks] else [])
  }

  function MovesOf(i: nat): Move -> bool {
    (m: Move) => m == ThreadMove(i) || m == WaitFails(i)
  }

  function Added(loops: nat): seq<Effect> {
    if loops == 0 then [] else [Adds(loops)]
  }

  /** The thread function, lines 121-140, after a wait that ended with `entry`. */
  function Program(c: Setup, entry: Effect): seq<Effect> {
    [entry, Locks] + Added(c.loops) + [Unlocks, Posts]
  }

  /** How much of it is done. */
  function Done(c: Setup, pc: ThreadPC, entry: Effect): seq<Effect> {
    match pc
    case Unborn => []
    case WaitPermit => []
    case Count => [entry]
    case LockMutex => [entry]
    case Load => [entry, Locks]
    case Store => [entry, Locks]
    case UnlockMutex => [entry, Locks] + Added(c.loops)
    case PostPermit => [entry, Locks] + Added(c.loops) + [Unlocks]
    case Gone => Program(c, entry)
  }

  predicate Fits(c: Setup, pc: ThreadPC, trace: seq<Effect>) {
    trace == Done(c, pc, Takes) || trace == Done(c, pc, Fails)
  }

  lemma DonePrefix(c: Setup, pc: ThreadPC, entry: Effect)
    ensures Done(c, pc, entry) <= Program(c, entry)
    ensures pc.Gone? ==> Done(c, pc, entry) == Program(c, entry)
  {
  }

  /** One step of the thread adds its effect to what is done. */
  lemma OwnStep(c: Setup, s: State, i: nat, entry: Effect)
    requires Enabled(s, ThreadMove(i)) && Legal(s, ThreadMove(i)) && (s.ts[i].pc.Store? ==> s.ts[i].reg == s.glob)
    requires s.ts[i].pc.Store? ==> s.ts[i].local == c.loops
    requires s.ts[i].pc.WaitPermit? ==> entry == Takes
    ensures var t := ThreadNext(c, s, i);
            Done(c, t.ts[i].pc, entry) == Done(c, s.ts[i].pc, entry) + Sees(i)(s, ThreadMove(i), t)
  {
  }

  lemma OtherStep(c: Setup, s: State, m: Move, i: nat, entry: Effect)
    requires Enabled(s, m) && Legal(s, m) && i < |s.ts| && !MovesOf(i)(m)
    ensures Done(c, Next(c, s, m).ts[i].pc, entry) == Done(c, s.ts[i].pc, entry)
  {
  }

  lemma FailingStep(c: Setup, s: State, i: nat)
    requires Enabled(s, WaitFails(i))
    ensures var t := Next(c, s, WaitFails(i));
            Done(c, t.ts[i].pc, Fails) == [Fails] == Sees(i)(s, WaitFails(i), t)
  {
  }

  lemma StepFits(c: Setup, s: State, m: Move, t: State, i: nat, trace: seq<Effect>)
    requires Inv(c, s) && IsStep(c, s, m, t) && i < |s.ts| == |t.ts| && Fits(c, s.ts[i].pc, trace)
    ensures Fits(c, t.ts[i].pc, trace + if MovesOf(i)(m) then Sees(i)(s, m, t) else [])
  {
    assert ThreadOk(c, s.main, s.mutex, s.ts[i], i);
    assert s.ts[i].pc.WaitPermit? ==> trace == [];
    assert trace + [] == trace;
    if m == ThreadMove(i) {
      OwnStep(c, s, i, Takes);
      if !s.ts[i].pc.WaitPermit? {
        OwnStep(c, s, i, Fails);
      }
    } else if m == WaitFails(i) {
      FailingStep(c, s, i);
    } else {
      OtherStep(c, s, m, i, Takes);
      OtherStep(c, s, m, i, Fails);
    }
    hide Done, Sees, Next, ThreadNext, Enabled, Legal;
  }

  lemma {:induction false} RunFits(c: Setup, n: nat, moves: seq<Move>, states: seq<State>, k: nat, i: nat)
    requires IsRun(c, n, moves, states) && k <= |moves| && i < n
    ensures |states[k].ts| == n && Fits(c, states[k].ts[i].pc, Trace(MovesOf(i), Sees(i), moves, states, k))
  {
    RunInv(c, n, moves, states, k);
    if k == 0 {
    } else {
      hide Fits, Inv, IsStep;
      RunFits(c, n, moves, states, k - 1, i);
      RunInv(c, n, moves, states, k - 1);
      assert IsStep(c, states[k - 1], moves[k - 1], states[k - 1 + 1]);
      StepFits(c, states[k - 1], moves[k - 1], states[k], i, Trace(MovesOf(i), Sees(i), moves, states, k - 1));
    }
  }

  /** In every run every thread does to the shared data what its program says, in that order, and all of it before it
      is gone: take a permit or fail to, lock, add `loops`, unlock, post. */
  lemma ThreadsFollowProgram(c: Setup, n: nat, moves: seq<Move>, states: seq<State>, k: nat, i: nat)
    requires IsRun(c, n, moves, states) && k <= |moves| && i < n
    ensures |states[k].ts| == n
    ensures var trace := Trace(MovesOf(i), Sees(i), moves, states, k);
            exists e :: (e == Takes || e == Fails) && trace <= Program(c, e)
                        && (states[k].ts[i].pc.Gone? ==> trace == Program(c, e))
  {
    RunFits(c, n, moves, states, k, i);
    var trace := Trace(MovesOf(i), Sees(i), moves, states, k);
    var pc := states[k].ts[i].pc;
    var e := if trace == Done(c, pc, Takes) then Takes else Fails;
    assert trace == Done(c, pc, e);
    hide Done, Program, IsRun, Trace;
    DonePrefix(c, pc, e);
  }

  /** When main has exited, all threads are gone, the sum is complete, nobody holds the mutex, both primitives are
      destroyed, and the semaphore was left at its initial value plus the failed waits. */
  lemma Outcome(c: Setup, n: nat, moves: seq<Move>, states: seq<State>, k: nat)
    requires IsRun(c, n, moves, states) && k <= |moves| && states[k].main.Exited?
    ensures var s := states[k];
            && (forall i :: 0 <= i < |s.ts| ==> s.ts[i].pc.Gone?)
            && s.glob == c.loops * n && s.mutex.Free? && !s.semAlive && !s.mutexAlive
            && s.sem == c.permits + CountMoves(FailsToEnter, moves, k)
  {
    RunInv(c, n, moves, states, k);
    SumIsExact(c, n, moves, states, k);
    PermitsConserved(c, n, moves, states, k);
    var s := states[k];
    assert forall i :: 0 <= i < |s.ts| ==> ThreadOk(c, s.main, s.mutex, s.ts[i], i);
    assert s.mutex.Held? ==> ThreadOk(c, s.main, s.mutex, s.ts[s.mutex.i], s.mutex.i);
    NobodyInside(s.ts);
  }

  lemma {:induction false} NobodyInside(ts: seq<Thread>)
    requires forall i :: 0 <= i < |ts| ==> !Inside(ts[i].pc)
    ensures SumBy(InsideBit, ts) == 0
  {
    if ts == [] {
    } else {
      NobodyInside(ts[1..]);
    }
  }

  // ----- Every run is short -----

  function ThreadRank(loops: nat, t: Thread): int {
    match t.pc
    case Unborn => loops + 8
    case WaitPermit => loops + 7
    case Count => loops - t.j + 6
    case LockMutex => 5
    case Load => 4
    case Store => 3
    case UnlockMutex => 2
    case PostPermit => 1
    case Gone => 0
  }

  function RankFor(loops: nat): Thread -> int {
    t => ThreadRank(loops, t)
  }

  function MainRank(n: nat, pc: MainPC): int {
    match pc
    case Create(i) => n - i + n + 5
    case Join(i) => n - i + 4
    case DestroySem => 3
    case DestroyMutex => 2
    case Report => 1
    case Exited => 0
  }

  function Measure(c: Setup, s: State): int {
    MainRank(|s.ts|, s.main) + SumBy(RankFor(c.loops), s.ts)
  }

  lemma StepLowers(c: Setup, s: State, m: Move)
    requires Inv(c, s) && Enabled(s, m)
    ensures Measure(c, Next(c, s, m)) < Measure(c, s)
  {
    var t := Next(c, s, m);
    if m.MainMove? {
      if s.main.Create? && s.main.i < |s.ts| {
        assert ThreadOk(c, s.main, s.mutex, s.ts[s.main.i], s.main.i);
        SumUpdate(RankFor(c.loops), s.ts, s.main.i, t.ts[s.main.i]);
      }
    } else {
      assert ThreadOk(c, s.main, s.mutex, s.ts[m.i], m.i);
      SumUpdate(RankFor(c.loops), s.ts, m.i, t.ts[m.i]);
      assert t.ts == s.ts[m.i := t.ts[m.i]];
    }
  }

  lemma {:induction false} BoundedPrefix(c: Setup, n: nat, moves: seq<Move>, states: seq<State>, k: nat)
    requires IsRun(c, n, moves, states) && k <= |moves|
    ensures k + Measure(c, states[k]) <= 2 * n + 5 + (c.loops + 8) * n
  {
    hide IsStep, Inv, Measure;
    if k == 0 {
      InitialMeasure(c, n);
    } else {
      BoundedPrefix(c, n, moves, states, k - 1);
      RunInv(c, n, moves, states, k - 1);
      assert IsStep(c, states[k - 1], moves[k - 1], states[k - 1 + 1]);
      TakeStep(c, states[k - 1], moves[k - 1], states[k]);
    }
  }

  lemma TakeStep(c: Setup, s: State, m: Move, t: State)
    requires Inv(c, s) && IsStep(c, s, m, t)
    ensures Measure(c, t) < Measure(c, s)
  {
    StepLowers(c, s, m);
  }

  lemma InitialMeasure(c: Setup, n: nat)
    ensures Measure(c, Initial(c, n)) == 2 * n + 5 + (c.loops + 8) * n
  {
    var ts := Initial(c, n).ts;
    SumFull(RankFor(c.loops), ts, c.loops + 8);
  }

  /** Every run ends: at most loops + 10 steps per thread and 5 more. */
  lemma BoundedRun(c: Setup, n: nat, moves: seq<Move>, states: seq<State>)
    requires IsRun(c, n, moves, states)
    ensures |moves| <= (c.loops + 10) * n + 5
  {
    BoundedPrefix(c, n, moves, states, |moves|);
    RunInv(c, n, moves, states, |moves|);
    var s := states[|moves|];
    forall i | 0 <= i < |s.ts| ensures 0 <= RankFor(c.loops)(s.ts[i]) {
      assert ThreadOk(c, s.main, s.mutex, s.ts[i], i);
    }
    SumAtLeast(RankFor(c.loops), s.ts);
    assert (c.loops + 10) * n == 2 * n + (c.loops + 8) * n;
  }
}

/**
 The named-semaphore programs of 12_1: a creator (Process_1) and any number of joiners (Process_2, Process_3)
 share a section of `permits` places; a second semaphore counts completions and delays unlinking.
 */
module NamedSemaphore {
  import opened Sequences
  import opened Runs

  /** SEM_INITIAL_VALUE and CNT_JOINERS_EXPECTED. */
  datatype Setup = Setup(permits: nat, expected: nat)

  datatype CreatorPC =
    | CreateSem               // Process_1, 87
    | CreateDone              // 88
    | CreatorWait             // 101
    | CreatorPost             // 112
    | Collect(i: nat)         // 120-127
    | CreatorCloseDone        // 132
    | CreatorCloseSem         // 133
    | UnlinkDone              // 135
    | UnlinkSem               // 136
    | CreatorExited           // 138
    | CreatorFailed           // 125

  datatype JoinerPC =
    | OpenSem                 // Process_2, 40
    | OpenDone(ok: bool)      // 41
    | CheckOpen(ok: bool)     // 43
    | JoinerWait              // 55
    | JoinerPost              // 65
    | Notify                  // 72
    | JoinerCloseDone         // 75
    | JoinerCloseSem          // 76
    | JoinerExited            // 79
    | JoinerFailed            // 46

  /** How often each of the two semaphores is open in some process. */
  datatype Opens = Opens(sem: int, done: int)

  /** The two semaphore values, whether their names exist, and the descriptors. */
  datatype State = State(creator: CreatorPC, js: seq<JoinerPC>, sem: nat, done: nat, semNamed: bool, doneNamed: bool,
                         opens: Opens)

  /** A step of an agent, or its sem_wait failing: on the section semaphore or on the completion count. */
  datatype Move = CreatorMove | JoinerMove(i: nat) | CreatorWaitFails | JoinerWaitFails(i: nat) | CollectFails

  predicate Enabled(c: Setup, s: State, m: Move) {
    match m
    case CreatorMove =>
      (match s.creator
       case CreatorWait => s.sem > 0
       case Collect(i) => i < c.expected ==> s.done > 0
       case CreatorExited => false
       case CreatorFailed => false
       case _ => true)
    case JoinerMove(i) =>
      i < |s.js| &&
      (match s.js[i]
       case JoinerWait => s.sem > 0
       case JoinerExited => false
       case JoinerFailed => false
       case _ => true)
    case CreatorWaitFails => s.creator.CreatorWait?
    case JoinerWaitFails(i) => i < |s.js| && s.js[i].JoinerWait?
    case CollectFails => s.creator.Collect? && s.creator.i < c.expected
  }

  function CreatorNext(c: Setup, s: State): State
    requires Enabled(c, s, CreatorMove)
  {
    match s.creator
    case CreateSem =>
      s.(creator := CreateDone, sem := c.permits, semNamed := true, opens := s.opens.(sem := s.opens.sem + 1))
    case CreateDone =>
      s.(creator := CreatorWait, done := 0, doneNamed := true, opens := s.opens.(done := s.opens.done + 1))
    case CreatorWait => s.(creator := CreatorPost, sem := s.sem - 1)
    case CreatorPost => s.(creator := Collect(0), sem := s.sem + 1)
    case Collect(i) =>
      if i < c.expected then s.(creator := Collect(i + 1), done := s.done - 1) else s.(creator := CreatorCloseDone)
    case CreatorCloseDone => s.(creator := CreatorCloseSem, opens := s.opens.(done := s.opens.done - 1))
    case CreatorCloseSem => s.(creator := UnlinkDone, opens := s.opens.(sem := s.opens.sem - 1))
    case UnlinkDone => s.(creator := UnlinkSem, doneNamed := false)
    case UnlinkSem => s.(creator := CreatorExited, semNamed := false)
  }

  function JoinerNext(s: State, i: nat): State
    requires i < |s.js| && (s.js[i].JoinerWait? ==> s.sem > 0) && !s.js[i].JoinerExited? && !s.js[i].JoinerFailed?
  {
    match s.js[i]
    case OpenSem =>
      s.(js := s.js[i := OpenDone(s.semNamed)],
         opens := s.opens.(sem := s.opens.sem + if s.semNamed then 1 else 0))
    case OpenDone(ok) =>
      s.(js := s.js[i := CheckOpen(ok && s.doneNamed)],
         opens := s.opens.(done := s.opens.done + if s.doneNamed then 1 else 0))
    case CheckOpen(ok) => s.(js := s.js[i := if ok then JoinerWait else JoinerFailed])
    case JoinerWait => s.(js := s.js[i := JoinerPost], sem := s.sem - 1)
    case JoinerPost => s.(js := s.js[i := Notify], sem := s.sem + 1)
    case Notify => s.(js := s.js[i := JoinerCloseDone], done := s.done + 1)
    case JoinerCloseDone =>
      s.(js := s.js[i := JoinerCloseSem], opens := s.opens.(done := s.opens.done - 1))
    case JoinerCloseSem =>
      s.(js := s.js[i := JoinerExited], opens := s.opens.(sem := s.opens.sem - 1))
  }

  /** The result of the wait on `sem` is ignored; a failed wait on the completion count ends the creator. */
  function Next(c: Setup, s: State, m: Move): State
    requires Enabled(c, s, m)
  {
    match m
    case CreatorMove => CreatorNext(c, s)
    case JoinerMove(i) => JoinerNext(s, i)
    case CreatorWaitFails => s.(creator := CreatorPost)
    case JoinerWaitFails(i) => s.(js := s.js[i := JoinerPost])
    case CollectFails => s.(creator := CreatorFailed)
  }

  /** No semaphore of these names exists before the creator makes them. */
  function Initial(n: nat): State {
    State(CreateSem, seq(n, _ => OpenSem), 0, 0, false, false, Opens(0, 0))
  }

  ghost predicate IsRun(c: Setup, n: nat, moves: seq<Move>, states: seq<State>) {
    && |states| == |moves| + 1
    && states[0] == Initial(n)
    && forall k :: 0 <= k < |moves| ==> Enabled(c, states[k], moves[k]) && states[k + 1] == Next(c, states[k], moves[k])
  }

  // ----- Invariant -----

  function InsideBit(j: JoinerPC): int {
    if j.JoinerPost? then 1 else 0
  }

  predicate HasPosted(j: JoinerPC) {
    j.JoinerCloseDone? || j.JoinerCloseSem? || j.JoinerExited?
  }

  function PostedBit(j: JoinerPC): int {
    if HasPosted(j) then 1 else 0
  }

  /** The number of agents in the section, whether or not their wait succeeded. */
  function Inside(s: State): int {
    SumBy(InsideBit, s.js) + if s.creator.CreatorPost? then 1 else 0
  }

  predicate Created(pc: CreatorPC) {
    !pc.CreateSem? && !pc.CreateDone?
  }

  predicate PastCollect(pc: CreatorPC) {
    pc.CreatorCloseDone? || pc.CreatorCloseSem? || pc.UnlinkDone? || pc.UnlinkSem? || pc.CreatorExited?
  }

  /** How many completions the creator has consumed; a failed creator has stopped counting. */
  function Collected(c: Setup, pc: CreatorPC): nat {
    match pc
    case Collect(i) => i
    case CreatorCloseDone => c.expected
    case CreatorCloseSem => c.expected
    case UnlinkDone => c.expected
    case UnlinkSem => c.expected
    case CreatorExited => c.expected
    case _ => 0
  }

  predicate Opened(j: JoinerPC) {
    !j.OpenSem? && !j.OpenDone? && !j.JoinerFailed? && (j.CheckOpen? ==> j.ok)
  }

  ghost predicate Inv(c: Setup, s: State) {
    && (s.creator.CreateSem? ==> s.sem == 0 && Inside(s) == 0)
    && (!s.creator.CreateSem? ==> s.sem + Inside(s) >= c.permits)
    && (s.creator.Collect? ==> s.creator.i <= c.expected)
    && (!s.creator.CreatorFailed? ==> s.done + Collected(c, s.creator) == SumBy(PostedBit, s.js))
    && (s.semNamed <==> !s.creator.CreateSem? && !s.creator.CreatorExited?)
    && (s.doneNamed <==> Created(s.creator) && !s.creator.UnlinkSem? && !s.creator.CreatorExited?)
    && (forall i :: 0 <= i < |s.js| && Opened(s.js[i]) ==> Created(s.creator))
  }

  lemma {:induction false} NoneInside(js: seq<JoinerPC>)
    requires forall i :: 0 <= i < |js| ==> !js[i].JoinerPost? && !HasPosted(js[i])
    ensures SumBy(InsideBit, js) == 0 && SumBy(PostedBit, js) == 0
  {
    if js == [] {
    } else {
      NoneInside(js[1..]);
    }
  }

  /** A joiner's step keeps both balances. */
  lemma JoinerBalance(s: State, i: nat)
    requires i < |s.js| && (s.js[i].JoinerWait? ==> s.sem > 0) && !s.js[i].JoinerExited? && !s.js[i].JoinerFailed?
    ensures var t := JoinerNext(s, i);
            && t.sem + Inside(t) == s.sem + Inside(s)
            && t.done - SumBy(PostedBit, t.js) == s.done - SumBy(PostedBit, s.js)
  {
    var j := JoinerNext(s, i).js[i];
    SumUpdate(InsideBit, s.js, i, j);
    SumUpdate(PostedBit, s.js, i, j);
    assert JoinerNext(s, i).js == s.js[i := j];
  }

  lemma JoinerKeepsInv(c: Setup, s: State, i: nat)
    requires Inv(c, s) && Enabled(c, s, JoinerMove(i))
    ensures Inv(c, JoinerNext(s, i))
  {
    JoinerBalance(s, i);
    hide SumBy, InsideBit, PostedBit;
    if s.creator.CreateSem? {
      assert forall k :: 0 <= k < |s.js| ==> !Opened(s.js[k]);
      assert !s.js[i].JoinerWait? && !s.js[i].JoinerPost?;
    }
  }

  lemma CreatorKeepsInv(c: Setup, s: State)
    requires Inv(c, s) && Enabled(c, s, CreatorMove)
    ensures Inv(c, CreatorNext(c, s))
  {
    if s.creator.CreateDone? {
      NoneInside(s.js);
    }
  }

  lemma StepKeepsInv(c: Setup, s: State, m: Move)
    requires Inv(c, s) && Enabled(c, s, m)
    ensures Inv(c, Next(c, s, m))
  {
    match m
    case CreatorMove => CreatorKeepsInv(c, s);
    case JoinerMove(i) => JoinerKeepsInv(c, s, i);
    case JoinerWaitFails(i) =>
      SumUpdate(InsideBit, s.js, i, JoinerPost);
      SumUpdate(PostedBit, s.js, i, JoinerPost);
    case _ =>
  }

  lemma {:induction false} RunInv(c: Setup, n: nat, moves: seq<Move>, states: seq<State>, k: nat)
    requires IsRun(c, n, moves, states) && k <= |moves|
    ensures Inv(c, states[k]) && |states[k].js| == n
  {
    if k == 0 {
      NoneInside(Initial(n).js);
    } else {
      RunInv(c, n, moves, states, k - 1);
      assert states[k - 1 + 1] == Next(c, states[k - 1], moves[k - 1]);
      StepKeepsInv(c, states[k - 1], moves[k - 1]);
    }
  }

  // ----- Theorems -----

  /** A failed wait on the section semaphore, which the programs ignore. */
  predicate FailsToEnter(m: Move) {
    m.CreatorWaitFails? || m.JoinerWaitFails?
  }

  /** Permits and agents inside together: every failed wait adds one, nothing else changes it. */
  lemma StepBalance(c: Setup, s: State, m: Move)
    requires Inv(c, s) && Enabled(c, s, m) && !s.creator.CreateSem?
    ensures var t := Next(c, s, m);
            t.sem + Inside(t) == s.sem + Inside(s) + if FailsToEnter(m) then 1 else 0
  {
    match m
    case JoinerMove(i) => JoinerBalance(s, i);
    case JoinerWaitFails(i) => SumUpdate(InsideBit, s.js, i, JoinerPost);
    case _ =>
  }

  lemma NobodyYet(c: Setup, s: State, m: Move)
    requires Inv(c, s) && Enabled(c, s, m) && s.creator.CreateSem?
    ensures !FailsToEnter(m)
    ensures var t := Next(c, s, m); t.creator.CreateSem? || t.sem + Inside(t) == c.permits
  {
    assert forall i :: 0 <= i < |s.js| ==> !Opened(s.js[i]);
  }

  lemma {:induction false} Balance(c: Setup, n: nat, moves: seq<Move>, states: seq<State>, k: nat)
    requires IsRun(c, n, moves, states) && k <= |moves|
    ensures states[k].creator.CreateSem? ==> CountMoves(FailsToEnter, moves, k) == 0
    ensures !states[k].creator.CreateSem? ==>
              states[k].sem + Inside(states[k]) == c.permits + CountMoves(FailsToEnter, moves, k)
  {
    if k == 0 {
    } else {
      var s, m := states[k - 1], moves[k - 1];
      Balance(c, n, moves, states, k - 1);
      RunInv(c, n, moves, states, k - 1);
      assert states[k - 1 + 1] == Next(c, s, m);
      if s.creator.CreateSem? {
        NobodyYet(c, s, m);
      } else {
        StepBalance(c, s, m);
      }
    }
  }

  /** Once the semaphore exists, permits left and agents in the section add up to the initial value and the failed
      waits. As long as no wait has failed at most `permits` agents are inside, and at most one more for each. */
  lemma PermitsConserved(c: Setup, n: nat, moves: seq<Move>, states: seq<State>, k: nat)
    requires IsRun(c, n, moves, states) && k <= |moves|
    ensures var s := states[k];
            && (!s.creator.CreateSem? ==> s.sem + Inside(s) == c.permits + CountMoves(FailsToEnter, moves, k))
            && 0 <= Inside(s) <= c.permits + CountMoves(FailsToEnter, moves, k)
            && ((forall j :: 0 <= j < k ==> !FailsToEnter(moves[j])) ==> Inside(s) <= c.permits)
  {
    RunInv(c, n, moves, states, k);
    Balance(c, n, moves, states, k);
    SumAtLeast(InsideBit, states[k].js);
    if forall j :: 0 <= j < k ==> !FailsToEnter(moves[j]) {
      NoneCounted(FailsToEnter, moves, k);
    }
  }

  // ----- Building runs -----

  /** The run leads to the state `to`. */
  ghost predicate Leads(c: Setup, n: nat, run: Run<State, Move>, to: State) {
    IsRun(c, n, run.moves, run.states) && run.states[|run.moves|] == to
  }

  ghost function Failures(run: Run<State, Move>): nat {
    CountMoves(FailsToEnter, run.moves, |run.moves|)
  }

  /** One more move of a run. */
  lemma Go(c: Setup, n: nat, run: Run<State, Move>, s: State, m: Move) returns (longer: Run<State, Move>)
    requires Leads(c, n, run, s) && Enabled(c, s, m)
    ensures Leads(c, n, longer, Next(c, s, m))
    ensures Failures(longer) == Failures(run) + if FailsToEnter(m) then 1 else 0
  {
    longer := Run(run.moves + [m], run.states + [Next(c, s, m)]);
    SameCount(FailsToEnter, run.moves, [m], |run.moves|);
  }

  /** One more move of joiner `i`, which takes it to `pc`. */
  lemma GoJoiner(c: Setup, n: nat, run: Run<State, Move>, s: State, i: nat, js: seq<JoinerPC>, pc: JoinerPC)
    returns (longer: Run<State, Move>)
    requires Leads(c, n, run, s) && Enabled(c, s, JoinerMove(i)) && i < |js| == |s.js|
    requires s.js == js[i := s.js[i]] && JoinerNext(s, i).js[i] == pc
    ensures Leads(c, n, longer, JoinerNext(s, i).(js := js[i := pc])) && Failures(longer) == Failures(run)
  {
    longer := Go(c, n, run, s, JoinerMove(i));
    assert JoinerNext(s, i).js == js[i := pc];
  }

  /** Both semaphores opened once more. */
  function OneMore(o: Opens): Opens {
    Opens(o.sem + 1, o.done + 1)
  }

  /** Joiner `i` opens both semaphores. */
  lemma Arrive(c: Setup, n: nat, run: Run<State, Move>, s: State, i: nat) returns (longer: Run<State, Move>)
    requires Leads(c, n, run, s) && i < |s.js| && s.js[i].OpenSem? && s.semNamed && s.doneNamed
    ensures Leads(c, n, longer, s.(js := s.js[i := JoinerWait], opens := OneMore(s.opens)))
    ensures Failures(longer) == Failures(run)
  {
    longer := GoJoiner(c, n, run, s, i, s.js, OpenDone(true));
    var t := s.(js := s.js[i := OpenDone(true)], opens := Opens(s.opens.sem + 1, s.opens.done));
    longer := GoJoiner(c, n, longer, t, i, s.js, CheckOpen(true));
    t := s.(js := s.js[i := CheckOpen(true)], opens := OneMore(s.opens));
    longer := GoJoiner(c, n, longer, t, i, s.js, JoinerWait);
  }

  /** The creator makes both semaphores and gets into the section while the joiners stay where they are. */
  lemma CreatorIn(c: Setup, n: nat, run: Run<State, Move>, js: seq<JoinerPC>) returns (longer: Run<State, Move>)
    requires c.permits >= 1 && Leads(c, n, run, State(CreateSem, js, 0, 0, false, false, Opens(0, 0)))
    ensures Leads(c, n, longer, State(CreatorPost, js, c.permits - 1, 0, true, true, Opens(1, 1)))
    ensures Failures(longer) == Failures(run)
  {
    longer := Go(c, n, run, State(CreateSem, js, 0, 0, false, false, Opens(0, 0)), CreatorMove);
    longer := Go(c, n, longer, State(CreateDone, js, c.permits, 0, true, false, Opens(1, 0)), CreatorMove);
    longer := Go(c, n, longer, State(CreatorWait, js, c.permits, 0, true, true, Opens(1, 1)), CreatorMove);
  }

  /** It passes the section. */
  lemma CreatorFirst(c: Setup, n: nat, run: Run<State, Move>, js: seq<JoinerPC>) returns (longer: Run<State, Move>)
    requires c.permits >= 1 && Leads(c, n, run, State(CreateSem, js, 0, 0, false, false, Opens(0, 0)))
    ensures Leads(c, n, longer, State(Collect(0), js, c.permits, 0, true, true, Opens(1, 1)))
    ensures Failures(longer) == Failures(run)
  {
    longer := CreatorIn(c, n, run, js);
    longer := Go(c, n, longer, State(CreatorPost, js, c.permits - 1, 0, true, true, Opens(1, 1)), CreatorMove);
  }

  /** Of `n` joiners the first `f` failed to open, those up to `e` are at `pc`, the others have yet to start. */
  function Queue(n: nat, f: nat, e: nat, pc: JoinerPC): seq<JoinerPC> {
    seq(n, i => if i < f then JoinerFailed else if i < e then pc else OpenSem)
  }

  lemma {:induction false} Crowded(c: Setup, fails: nat, e: nat) returns (run: Run<State, Move>)
    requires c.permits >= 1 && e <= c.permits + fails
    ensures var n := c.permits + fails;
            && Leads(c, n, run, State(Collect(0), Queue(n, 0, e, JoinerPost),
                                     if e < fails then c.permits else n - e, 0, true, true,
                                     Opens(1 + e, 1 + e)))
            && Failures(run) == if e < fails then e else fails
  {
    var n := c.permits + fails;
    if e == 0 {
      run := CreatorFirst(c, n, Run([], [Initial(n)]), Initial(n).js);
      assert Initial(n).js == Queue(n, 0, 0, JoinerPost);
    } else {
      run := Crowded(c, fails, e - 1);
      var s := State(Collect(0), Queue(n, 0, e - 1, JoinerPost),
                     if e - 1 < fails then c.permits else n - (e - 1), 0, true, true, Opens(e, e));
      run := Arrive(c, n, run, s, e - 1);
      var t := s.(js := s.js[e - 1 := JoinerWait], opens := Opens(1 + e, 1 + e));
      run := Go(c, n, run, t, if e <= fails then JoinerWaitFails(e - 1) else JoinerMove(e - 1));
      assert t.js[e - 1 := JoinerPost] == Queue(n, 0, e, JoinerPost);
    }
  }

  /** The bound is sharp: for any number of permits and any number of failed waits there is a run with that many
      failures in which as many agents as both together are in the section. */
  lemma FailedWaitsLetIn(c: Setup, fails: nat) returns (run: Run<State, Move>)
    requires c.permits >= 1
    ensures IsRun(c, c.permits + fails, run.moves, run.states) && Failures(run) == fails
    ensures Inside(run.states[|run.moves|]) == c.permits + fails
  {
    run := Crowded(c, fails, c.permits + fails);
    SumFull(InsideBit, run.states[|run.moves|].js, 1);
  }

  lemma {:induction false} CrowdedWithCreator(c: Setup, fails: nat, e: nat) returns (run: Run<State, Move>)
    requires c.permits >= 1 && e <= c.permits - 1 + fails
    ensures var n := c.permits - 1 + fails;
            && Leads(c, n, run, State(CreatorPost, Queue(n, 0, e, JoinerPost),
                                      if e < fails then c.permits - 1 else n - e, 0, true, true,
                                      Opens(1 + e, 1 + e)))
            && Failures(run) == if e < fails then e else fails
  {
    var n := c.permits - 1 + fails;
    if e == 0 {
      run := CreatorIn(c, n, Run([], [Initial(n)]), Initial(n).js);
      assert Initial(n).js == Queue(n, 0, 0, JoinerPost);
    } else {
      run := CrowdedWithCreator(c, fails, e - 1);
      var s := State(CreatorPost, Queue(n, 0, e - 1, JoinerPost),
                     if e - 1 < fails then c.permits - 1 else n - (e - 1), 0, true, true, Opens(e, e));
      run := Arrive(c, n, run, s, e - 1);
      var t := s.(js := s.js[e - 1 := JoinerWait], opens := Opens(1 + e, 1 + e));
      run := Go(c, n, run, t, if e <= fails then JoinerWaitFails(e - 1) else JoinerMove(e - 1));
      assert t.js[e - 1 := JoinerPost] == Queue(n, 0, e, JoinerPost);
    }
  }

  /** The creator takes part: for any number of permits and failed waits there is a run in which it is in the section
      together with all joiners that fit, and no permit is left. */
  lemma CreatorSharesSection(c: Setup, fails: nat) returns (run: Run<State, Move>)
    requires c.permits >= 1
    ensures IsRun(c, c.permits - 1 + fails, run.moves, run.states) && Failures(run) == fails
    ensures var s := run.states[|run.moves|];
            && s.creator.CreatorPost? && s.sem == 0 && Inside(s) == c.permits + fails
            && forall i :: 0 <= i < |s.js| ==> s.js[i].JoinerPost?
  {
    run := CrowdedWithCreator(c, fails, c.permits - 1 + fails);
    SumFull(InsideBit, run.states[|run.moves|].js, 1);
  }

  /** The creator collects only after it has been in the section. */
  predicate BeforeSection(pc: CreatorPC) {
    pc.CreateSem? || pc.CreateDone? || pc.CreatorWait?
  }

  lemma {:induction false} CreatorWasInside(
      c: Setup, n: nat, moves: seq<Move>, states: seq<State>, k: nat) returns (j: nat)
    requires IsRun(c, n, moves, states) && k <= |moves| && !BeforeSection(states[k].creator)
    ensures j <= k && states[j].creator.CreatorPost?
    ensures Inside(states[j]) == SumBy(InsideBit, states[j].js) + 1
  {
    if k == 0 || states[k].creator.CreatorPost? {
      j := k;
    } else {
      assert states[k - 1 + 1] == Next(c, states[k - 1], moves[k - 1]);
      j := CreatorWasInside(c, n, moves, states, k - 1);
    }
  }

  // ----- What the programs do, seen from outside -----

  datatype Effect =
    | MakesSem(value: nat) | MakesDone(value: nat) | OpensSem | OpensDone
    | Takes | Fails | Posts | TakesDone | PostsDone
    | ClosesDone | ClosesSem | UnlinksDone | UnlinksSem

  /** What a step does to the section semaphore, read off the states before and after it. */
  function SeesSem(s: State, m: Move, t: State): seq<Effect> {
    if !s.semNamed && t.semNamed then [MakesSem(t.sem)]
    else
      (if FailsToEnter(m) then [Fails] else [])
      + (if t.sem < s.sem then [Takes] else if t.sem > s.sem then [Posts] else [])
      + (if t.opens.sem > s.opens.sem then [OpensSem] else if t.opens.sem < s.opens.sem then [ClosesSem] else [])
      + (if s.semNamed && !t.semNamed then [UnlinksSem] else [])
  }

  /** The same for the completion count. */
  function SeesDone(s: State, t: State): seq<Effect> {
    if !s.doneNamed && t.doneNamed then [MakesDone(t.done)]
    else
      (if t.done < s.done then [TakesDone] else if t.done > s.done then [PostsDone] else [])
      + (if t.opens.done > s.opens.done then [OpensDone]
         else if t.opens.done < s.opens.done then [ClosesDone] else [])
      + (if s.doneNamed && !t.doneNamed then [UnlinksDone] else [])
  }

  function Sees(s: State, m: Move, t: State): seq<Effect> {
    SeesSem(s, m, t) + SeesDone(s, t)
  }

  /** A step does one thing at a time: it has at most one effect. */
  lemma OneThingAtATime(c: Setup, s: State, m: Move)
    requires Inv(c, s) && Enabled(c, s, m)
    ensures |Sees(s, m, Next(c, s, m))| <= 1
  {
  }

  function OfCreator(m: Move): bool {
    m.CreatorMove? || m.CreatorWaitFails? || m.CollectFails?
  }

  function OfJoiner(i: nat): Move -> bool {
    (m: Move) => m == JoinerMove(i) || m == JoinerWaitFails(i)
  }

  function Times(e: Effect, n: nat): seq<Effect> {
    seq(n, _ => e)
  }

  /** Process_1, lines 87-136, after a wait on the section semaphore that ended with `entry`. */
  function CreatorProgram(c: Setup, entry: Effect): seq<Effect> {
    [MakesSem(c.permits), MakesDone(0), entry, Posts] + Times(TakesDone, c.expected)
    + [ClosesDone, ClosesSem, UnlinksDone, UnlinksSem]
  }

  /** How much of it is done. */
  function CreatorDid(c: Setup, pc: CreatorPC, entry: Effect): seq<Effect> {
    var collected := [MakesSem(c.permits), MakesDone(0), entry, Posts] + Times(TakesDone, c.expected);
    match pc
    case CreateSem => []
    case CreateDone => [MakesSem(c.permits)]
    case CreatorWait => [MakesSem(c.permits), MakesDone(0)]
    case CreatorPost => [MakesSem(c.permits), MakesDone(0), entry]
    case Collect(i) => [MakesSem(c.permits), MakesDone(0), entry, Posts] + Times(TakesDone, i)
    case CreatorCloseDone => collected
    case CreatorCloseSem => collected + [ClosesDone]
    case UnlinkDone => collected + [ClosesDone, ClosesSem]
    case UnlinkSem => collected + [ClosesDone, ClosesSem, UnlinksDone]
    case CreatorExited => CreatorProgram(c, entry)
    case CreatorFailed => []
  }

  predicate CreatorFits(c: Setup, pc: CreatorPC, trace: seq<Effect>, entry: Effect) {
    if pc.CreatorFailed? then
      exists i: nat :: i < c.expected && trace == CreatorDid(c, Collect(i), entry)
    else trace == CreatorDid(c, pc, entry)
  }

  lemma CreatorDidPrefix(c: Setup, pc: CreatorPC, entry: Effect)
    requires pc.Collect? ==> pc.i <= c.expected
    ensures CreatorDid(c, pc, entry) <= CreatorProgram(c, entry)
  {
    if pc.Collect? {
      assert Times(TakesDone, pc.i) <= Times(TakesDone, c.expected);
    }
  }

  lemma CreatorStep(c: Setup, s: State, entry: Effect)
    requires Inv(c, s) && Enabled(c, s, CreatorMove) && (s.creator.CreatorWait? ==> entry == Takes)
    ensures var t := CreatorNext(c, s);
            CreatorDid(c, t.creator, entry) == CreatorDid(c, s.creator, entry) + Sees(s, CreatorMove, t)
  {
    if s.creator.Collect? {
      assert s.creator.i < c.expected ==>
               Times(TakesDone, s.creator.i + 1) == Times(TakesDone, s.creator.i) + [TakesDone];
    }
  }

  /** A step of the creator or of another process, and the trace of the creator. */
  lemma CreatorStepFits(c: Setup, s: State, m: Move, trace: seq<Effect>)
    requires Inv(c, s) && Enabled(c, s, m)
    requires CreatorFits(c, s.creator, trace, Takes) || CreatorFits(c, s.creator, trace, Fails)
    ensures var t := Next(c, s, m);
            var after := trace + if OfCreator(m) then Sees(s, m, t) else [];
            CreatorFits(c, t.creator, after, Takes) || CreatorFits(c, t.creator, after, Fails)
  {
    assert trace + [] == trace;
    if m.CreatorMove? {
      CreatorStep(c, s, Takes);
      if !s.creator.CreatorWait? {
        CreatorStep(c, s, Fails);
      }
    } else if m.CollectFails? {
      assert Sees(s, m, Next(c, s, m)) == [];
    }
  }

  lemma {:induction false} CreatorRunFits(c: Setup, n: nat, moves: seq<Move>, states: seq<State>, k: nat)
    requires IsRun(c, n, moves, states) && k <= |moves|
    ensures var trace := Trace(OfCreator, Sees, moves, states, k);
            CreatorFits(c, states[k].creator, trace, Takes) || CreatorFits(c, states[k].creator, trace, Fails)
  {
    if k == 0 {
    } else {
      CreatorRunFits(c, n, moves, states, k - 1);
      RunInv(c, n, moves, states, k - 1);
      hide CreatorFits, Inv;
      assert states[k - 1 + 1] == Next(c, states[k - 1], moves[k - 1]);
      CreatorStepFits(c, states[k - 1], moves[k - 1], Trace(OfCreator, Sees, moves, states, k - 1));
    }
  }

  /** In every run the creator does to the two semaphores what its program says, in that order, and all of it before
      it exits: make both, take a permit or fail to, post, consume the expected completions, close both, unlink both. */
  lemma CreatorFollowsProgram(c: Setup, n: nat, moves: seq<Move>, states: seq<State>, k: nat)
    requires IsRun(c, n, moves, states) && k <= |moves|
    ensures var trace := Trace(OfCreator, Sees, moves, states, k);
            exists e :: (e == Takes || e == Fails) && trace <= CreatorProgram(c, e)
                        && (states[k].creator.CreatorExited? ==> trace == CreatorProgram(c, e))
  {
    RunInv(c, n, moves, states, k);
    CreatorRunFits(c, n, moves, states, k);
    var pc := states[k].creator;
    var trace := Trace(OfCreator, Sees, moves, states, k);
    var e := if CreatorFits(c, pc, trace, Takes) then Takes else Fails;
    assert CreatorFits(c, pc, trace, e);
    if pc.CreatorFailed? {
      var i: nat :| i < c.expected && trace == CreatorDid(c, Collect(i), e);
      CreatorDidPrefix(c, Collect(i), e);
    } else {
      CreatorDidPrefix(c, pc, e);
    }
    assert trace <= CreatorProgram(c, e);
  }

  /** Process_2 and Process_3, lines 40-76. */
  function JoinerProgram(entry: Effect): seq<Effect> {
    [OpensSem, OpensDone, entry, Posts, PostsDone, ClosesDone, ClosesSem]
  }

  /** What is done: a joiner that fails to open a semaphore tries the other one all the same. */
  predicate JoinerFits(pc: JoinerPC, trace: seq<Effect>, entry: Effect) {
    var tried := trace == [] || trace == [OpensSem] || trace == [OpensDone];
    match pc
    case OpenSem => trace == []
    case OpenDone(ok) => trace == if ok then [OpensSem] else []
    case CheckOpen(ok) => if ok then trace == [OpensSem, OpensDone] else tried
    case JoinerWait => trace == [OpensSem, OpensDone]
    case JoinerPost => trace == [OpensSem, OpensDone, entry]
    case Notify => trace == [OpensSem, OpensDone, entry, Posts]
    case JoinerCloseDone => trace == [OpensSem, OpensDone, entry, Posts, PostsDone]
    case JoinerCloseSem => trace == [OpensSem, OpensDone, entry, Posts, PostsDone, ClosesDone]
    case JoinerExited => trace == JoinerProgram(entry)
    case JoinerFailed => tried
  }

  predicate Opening(pc: JoinerPC) {
    pc.OpenSem? || pc.OpenDone? || pc.CheckOpen?
  }

  lemma OpeningStep(c: Setup, s: State, i: nat, trace: seq<Effect>, entry: Effect)
    requires Enabled(c, s, JoinerMove(i)) && Opening(s.js[i]) && JoinerFits(s.js[i], trace, entry)
    ensures var t := JoinerNext(s, i);
            JoinerFits(t.js[i], trace + Sees(s, JoinerMove(i), t), entry)
  {
  }

  /** Past the check every step has exactly one effect. */
  lemma UsingStep(c: Setup, s: State, i: nat, entry: Effect)
    requires Enabled(c, s, JoinerMove(i)) && !Opening(s.js[i]) && (s.js[i].JoinerWait? ==> entry == Takes)
    ensures var t := JoinerNext(s, i);
            Sees(s, JoinerMove(i), t) ==
            match s.js[i] {
              case JoinerWait => [entry]
              case JoinerPost => [Posts]
              case Notify => [PostsDone]
              case JoinerCloseDone => [ClosesDone]
              case _ => [ClosesSem]
            }
  {
  }

  lemma JoinerStep(c: Setup, s: State, i: nat, trace: seq<Effect>, entry: Effect)
    requires Enabled(c, s, JoinerMove(i)) && JoinerFits(s.js[i], trace, entry)
    requires s.js[i].JoinerWait? ==> entry == Takes
    ensures var t := JoinerNext(s, i);
            JoinerFits(t.js[i], trace + Sees(s, JoinerMove(i), t), entry)
  {
    if Opening(s.js[i]) {
      OpeningStep(c, s, i, trace, entry);
    } else {
      UsingStep(c, s, i, entry);
      hide Sees;
    }
  }

  lemma JoinerFailingStep(c: Setup, s: State, i: nat, trace: seq<Effect>, entry: Effect)
    requires Enabled(c, s, JoinerWaitFails(i)) && JoinerFits(s.js[i], trace, entry)
    ensures var t := Next(c, s, JoinerWaitFails(i));
            JoinerFits(t.js[i], trace + Sees(s, JoinerWaitFails(i), t), Fails)
  {
  }

  lemma JoinerStepFits(c: Setup, s: State, m: Move, i: nat, trace: seq<Effect>)
    requires Enabled(c, s, m) && i < |s.js|
    requires JoinerFits(s.js[i], trace, Takes) || JoinerFits(s.js[i], trace, Fails)
    ensures var t := Next(c, s, m);
            var after := trace + if OfJoiner(i)(m) then Sees(s, m, t) else [];
            |t.js| == |s.js| && (JoinerFits(t.js[i], after, Takes) || JoinerFits(t.js[i], after, Fails))
  {
    assert trace + [] == trace;
    if m == JoinerMove(i) {
      if s.js[i].JoinerWait? || JoinerFits(s.js[i], trace, Takes) {
        JoinerStep(c, s, i, trace, Takes);
      } else {
        JoinerStep(c, s, i, trace, Fails);
      }
    } else if m == JoinerWaitFails(i) {
      JoinerFailingStep(c, s, i, trace, if JoinerFits(s.js[i], trace, Takes) then Takes else Fails);
    }
  }

  lemma {:induction false} JoinerRunFits(c: Setup, n: nat, moves: seq<Move>, states: seq<State>, k: nat, i: nat)
    requires IsRun(c, n, moves, states) && k <= |moves| && i < n
    ensures var trace := Trace(OfJoiner(i), Sees, moves, states, k);
            |states[k].js| == n
            && (JoinerFits(states[k].js[i], trace, Takes) || JoinerFits(states[k].js[i], trace, Fails))
  {
    if k == 0 {
    } else {
      JoinerRunFits(c, n, moves, states, k - 1, i);
      hide JoinerFits;
      assert states[k - 1 + 1] == Next(c, states[k - 1], moves[k - 1]);
      JoinerStepFits(c, states[k - 1], moves[k - 1], i, Trace(OfJoiner(i), Sees, moves, states, k - 1));
    }
  }

  /** In every run every joiner does to the two semaphores what its program says, in that order, and all of it before
      it exits: open both, take a permit or fail to, post, post the completion, close both. A joiner that gave up has
      opened at most one of them. */
  lemma JoinersFollowProgram(c: Setup, n: nat, moves: seq<Move>, states: seq<State>, k: nat, i: nat)
    requires IsRun(c, n, moves, states) && k <= |moves| && i < n
    ensures |states[k].js| == n
    ensures var trace, j := Trace(OfJoiner(i), Sees, moves, states, k), states[k].js[i];
            || trace == [OpensDone]
            || exists e :: (e == Takes || e == Fails) && trace <= JoinerProgram(e)
                           && (j.JoinerFailed? ==> |trace| <= 1)
                           && (j.JoinerExited? ==> trace == JoinerProgram(e))
  {
    JoinerRunFits(c, n, moves, states, k, i);
    var trace, j := Trace(OfJoiner(i), Sees, moves, states, k), states[k].js[i];
    var e := if JoinerFits(j, trace, Takes) then Takes else Fails;
    assert JoinerFits(j, trace, e);
    assert trace == [OpensDone] || trace <= JoinerProgram(e);
  }

  // ----- Unlinking -----

  /** Unlinking: when the creator has collected its completions, at least as many joiners as expected have posted
      theirs. If no more than expected take part, it is all of them: nobody is in the section or will use a
      semaphore again, `sem` is back at its initial value (plus the failed waits) and the completion
      count is 0. */
  lemma UnlinkAfterQuiescence(c: Setup, n: nat, moves: seq<Move>, states: seq<State>, k: nat)
    requires IsRun(c, n, moves, states) && k <= |moves| && PastCollect(states[k].creator)
    ensures var s := states[k];
            && |s.js| == n && SumBy(PostedBit, s.js) >= c.expected
            && (n <= c.expected ==>
                  && n == c.expected
                  && (forall i :: 0 <= i < n ==> HasPosted(s.js[i]))
                  && Inside(s) == 0 && s.sem == c.permits + CountMoves(FailsToEnter, moves, k) && s.done == 0)
  {
    RunInv(c, n, moves, states, k);
    Balance(c, n, moves, states, k);
    var s := states[k];
    SumFull(PostedBit, s.js, 1);
    if n <= c.expected {
      forall i | 0 <= i < n ensures HasPosted(s.js[i]) {
        assert PostedBit(s.js[i]) == 1;
      }
      AllPosted(s.js);
    }
  }

  /** Joiner `i` passes the section. */
  lemma Pass(c: Setup, n: nat, run: Run<State, Move>, s: State, i: nat) returns (longer: Run<State, Move>)
    requires Leads(c, n, run, s) && i < |s.js| && s.js[i].OpenSem? && s.semNamed && s.doneNamed && s.sem > 0
    ensures Leads(c, n, longer, s.(js := s.js[i := Notify], opens := OneMore(s.opens)))
  {
    longer := Arrive(c, n, run, s, i);
    var t := s.(opens := OneMore(s.opens));
    longer := GoJoiner(c, n, longer, t.(js := s.js[i := JoinerWait]), i, s.js, JoinerPost);
    longer := GoJoiner(c, n, longer, t.(js := s.js[i := JoinerPost], sem := s.sem - 1), i, s.js, Notify);
  }

  /** Joiner `i` passes the section, posts its completion, closes and exits. */
  lemma Complete(c: Setup, n: nat, run: Run<State, Move>, s: State, i: nat) returns (longer: Run<State, Move>)
    requires Leads(c, n, run, s) && i < |s.js| && s.js[i].OpenSem? && s.semNamed && s.doneNamed && s.sem > 0
    ensures Leads(c, n, longer, s.(js := s.js[i := JoinerExited], done := s.done + 1))
  {
    longer := Pass(c, n, run, s, i);
    var t := s.(opens := OneMore(s.opens));
    longer := GoJoiner(c, n, longer, t.(js := s.js[i := Notify]), i, s.js, JoinerCloseDone);
    t := t.(done := s.done + 1);
    longer := GoJoiner(c, n, longer, t.(js := s.js[i := JoinerCloseDone]), i, s.js, JoinerCloseSem);
    t := t.(opens := Opens(s.opens.sem + 1, s.opens.done));
    longer := GoJoiner(c, n, longer, t.(js := s.js[i := JoinerCloseSem]), i, s.js, JoinerExited);
  }

  lemma {:induction false} SomeComplete(c: Setup, n: nat, f: nat, e: nat) returns (run: Run<State, Move>)
    requires c.permits >= 1 && f <= e <= n
    ensures Leads(c, n, run, State(Collect(0), Queue(n, f, e, JoinerExited), c.permits, e - f, true, true,
                                   Opens(1, 1)))
  {
    if e == f {
      run := SomeGiveUp(c, n, f);
      run := CreatorFirst(c, n, run, Queue(n, f, f, OpenSem));
      assert Queue(n, f, f, OpenSem) == Queue(n, f, f, JoinerExited);
    } else {
      run := SomeComplete(c, n, f, e - 1);
      var s := State(Collect(0), Queue(n, f, e - 1, JoinerExited), c.permits, e - 1 - f, true, true, Opens(1, 1));
      run := Complete(c, n, run, s, e - 1);
      assert s.js[e - 1 := JoinerExited] == Queue(n, f, e, JoinerExited);
    }
  }

  /** The first `f` joiners come before the creator and give up. */
  lemma {:induction false} SomeGiveUp(c: Setup, n: nat, f: nat) returns (run: Run<State, Move>)
    requires f <= n
    ensures Leads(c, n, run, State(CreateSem, Queue(n, f, f, OpenSem), 0, 0, false, false, Opens(0, 0)))
  {
    if f == 0 {
      run := Run([], [Initial(n)]);
      assert Initial(n).js == Queue(n, 0, 0, OpenSem);
    } else {
      run := SomeGiveUp(c, n, f - 1);
      var s := State(CreateSem, Queue(n, f - 1, f - 1, OpenSem), 0, 0, false, false, Opens(0, 0));
      run := GoJoiner(c, n, run, s, f - 1, s.js, OpenDone(false));
      run := GoJoiner(c, n, run, s.(js := s.js[f - 1 := OpenDone(false)]), f - 1, s.js, CheckOpen(false));
      run := GoJoiner(c, n, run, s.(js := s.js[f - 1 := CheckOpen(false)]), f - 1, s.js, JoinerFailed);
      assert s.js[f - 1 := JoinerFailed] == Queue(n, f, f, OpenSem);
    }
  }

  /** The creator consumes `e` completions. */
  lemma {:induction false} CollectSome(c: Setup, n: nat, run: Run<State, Move>, s: State, e: nat)
    returns (longer: Run<State, Move>)
    requires Leads(c, n, run, s) && s.creator == Collect(0) && e <= c.expected && e <= s.done
    ensures Leads(c, n, longer, s.(creator := Collect(e), done := s.done - e))
  {
    if e == 0 {
      longer := run;
    } else {
      longer := CollectSome(c, n, run, s, e - 1);
      longer := Go(c, n, longer, s.(creator := Collect(e - 1), done := s.done - (e - 1)), CreatorMove);
    }
  }

  /** The creator closes and unlinks. */
  lemma Unlink(c: Setup, n: nat, run: Run<State, Move>, s: State) returns (longer: Run<State, Move>)
    requires Leads(c, n, run, s) && s.creator == Collect(c.expected)
    ensures Leads(c, n, longer, s.(creator := CreatorExited, semNamed := false, doneNamed := false,
                                   opens := Opens(s.opens.sem - 1, s.opens.done - 1)))
  {
    longer := Go(c, n, run, s, CreatorMove);
    longer := Go(c, n, longer, s.(creator := CreatorCloseDone), CreatorMove);
    var o := s.opens;
    longer := Go(c, n, longer, s.(creator := CreatorCloseSem, opens := Opens(o.sem, o.done - 1)), CreatorMove);
    var t := s.(opens := Opens(o.sem - 1, o.done - 1));
    longer := Go(c, n, longer, t.(creator := UnlinkDone), CreatorMove);
    longer := Go(c, n, longer, t.(creator := UnlinkSem, doneNamed := false), CreatorMove);
  }

  /** With more joiners than expected the creator can close, unlink and exit while one of them is in the section. */
  lemma TooManyJoiners(c: Setup, n: nat) returns (run: Run<State, Move>)
    requires c.permits >= 1 && n > c.expected
    ensures IsRun(c, n, run.moves, run.states)
    ensures var s := run.states[|run.moves|];
            && s.creator.CreatorExited? && !s.semNamed && !s.doneNamed
            && c.expected < |s.js| && s.js[c.expected].JoinerPost?
  {
    var e := c.expected;
    run := SomeComplete(c, n, 0, e);
    var s := State(Collect(0), Queue(n, 0, e, JoinerExited), c.permits, e, true, true, Opens(1, 1));
    run := Arrive(c, n, run, s, e);
    s := s.(js := s.js[e := JoinerWait], opens := Opens(2, 2));
    run := Go(c, n, run, s, JoinerMove(e));
    s := s.(js := s.js[e := JoinerPost], sem := s.sem - 1);
    run := CollectSome(c, n, run, s, e);
    run := Unlink(c, n, run, s.(creator := Collect(e), done := 0));
  }

  /** At the end of every run that takes the creator to close and unlink all joiners have posted their completion. */
  ghost predicate AlwaysQuietAtUnlink(c: Setup, n: nat) {
    forall run: Run<State, Move>, s: State :: Leads(c, n, run, s) && PastCollect(s.creator) ==>
      forall i :: 0 <= i < |s.js| ==> HasPosted(s.js[i])
  }

  /** The number configured in the creator must be at least the number of joiners, and that is enough. */
  lemma QuietIff(c: Setup, n: nat)
    requires c.permits >= 1
    ensures AlwaysQuietAtUnlink(c, n) <==> n <= c.expected
  {
    if n <= c.expected {
      forall run: Run<State, Move>, s: State | Leads(c, n, run, s) && PastCollect(s.creator)
        ensures forall i :: 0 <= i < |s.js| ==> HasPosted(s.js[i])
      {
        UnlinkAfterQuiescence(c, n, run.moves, run.states, |run.moves|);
      }
    } else {
      var run := TooManyJoiners(c, n);
      assert Leads(c, n, run, run.states[|run.moves|]);
    }
  }

  lemma {:induction false} AllPosted(js: seq<JoinerPC>)
    requires forall i :: 0 <= i < |js| ==> HasPosted(js[i])
    ensures SumBy(InsideBit, js) == 0
  {
    if js == [] {
    } else {
      AllPosted(js[1..]);
    }
  }

  /** The names exist until the creator unlinks them, after its collection; a creator whose wait on the completion
      count failed leaves both behind. */
  lemma NamesOutlastUse(c: Setup, n: nat, moves: seq<Move>, states: seq<State>, k: nat)
    requires IsRun(c, n, moves, states) && k <= |moves|
    ensures var s := states[k];
            && (s.creator.CreatorExited? ==> !s.semNamed && !s.doneNamed)
            && (s.creator.CreatorFailed? ==> s.semNamed && s.doneNamed)
            && (!(s.semNamed && s.doneNamed) && Created(s.creator) ==> PastCollect(s.creator))
            && (n <= c.expected && !(s.semNamed && s.doneNamed) ==>
                  forall i :: 0 <= i < |s.js| ==> !s.js[i].JoinerWait? && !s.js[i].JoinerPost? && !s.js[i].Notify?)
  {
    RunInv(c, n, moves, states, k);
    var s := states[k];
    if n <= c.expected && PastCollect(s.creator) {
      UnlinkAfterQuiescence(c, n, moves, states, k);
    }
    forall i | 0 <= i < |s.js| && n <= c.expected && !(s.semNamed && s.doneNamed)
      ensures !s.js[i].JoinerWait? && !s.js[i].JoinerPost? && !s.js[i].Notify?
    {
      assert Opened(s.js[i]) ==> Created(s.creator);
    }
  }

  ghost predicate Final(s: State) {
    && (s.creator.CreatorExited? || s.creator.CreatorFailed?)
    && forall i :: 0 <= i < |s.js| ==> s.js[i].JoinerExited? || s.js[i].JoinerFailed?
  }

  /** While a permit is out, its holder can go on; otherwise there is a permit left. */
  lemma PermitOrHolder(c: Setup, s: State) returns (m: Move)
    requires Inv(c, s) && c.permits >= 1 && Created(s.creator)
    ensures s.sem > 0 || (Enabled(c, s, m) && (m.CreatorMove? || m.JoinerMove?))
  {
    m := CreatorMove;
    if s.sem == 0 && !s.creator.CreatorPost? {
      var i := PositiveTerm(InsideBit, s.js);
      m := JoinerMove(i);
    }
  }

  /** A joiner that came before the semaphores and gave up. */
  function FailedBit(j: JoinerPC): int {
    if j.JoinerFailed? then 1 else 0
  }

  /** How many joiners have not failed to open the semaphores. */
  function Participants(js: seq<JoinerPC>): int {
    |js| - SumBy(FailedBit, js)
  }

  lemma {:induction false} PostedOrFailed(js: seq<JoinerPC>)
    ensures SumBy(PostedBit, js) <= Participants(js)
    ensures (forall i :: 0 <= i < |js| ==> js[i].JoinerExited? || js[i].JoinerFailed?) ==>
              SumBy(PostedBit, js) == Participants(js) && SumBy(InsideBit, js) == 0
  {
    if js == [] {
    } else {
      PostedOrFailed(js[1..]);
    }
  }

  /** As long as not everybody has come to an end and at least as many joiners as expected have not failed to open,
      an agent can make a step without a failing wait. */
  lemma NoDeadlock(c: Setup, s: State) returns (m: Move)
    requires Inv(c, s) && c.permits >= 1 && !Final(s) && Participants(s.js) >= c.expected
    ensures Enabled(c, s, m) && (m.CreatorMove? || m.JoinerMove?)
  {
    if i :| 0 <= i < |s.js| && !s.js[i].JoinerExited? && !s.js[i].JoinerFailed? {
      m := JoinerMove(i);
      if s.js[i].JoinerWait? && s.sem == 0 {
        m := PermitOrHolder(c, s);
      }
    } else {
      PostedOrFailed(s.js);
      m := CreatorMove;
    }
  }

  /** A joiner that came too early and gave up is missing: the creator gets past its collection only if at least as
      many joiners as expected did not fail to open. */
  lemma EarlyJoinerBlocks(c: Setup, n: nat, moves: seq<Move>, states: seq<State>, k: nat)
    requires IsRun(c, n, moves, states) && k <= |moves| && PastCollect(states[k].creator)
    ensures Participants(states[k].js) >= c.expected
  {
    UnlinkAfterQuiescence(c, n, moves, states, k);
    PostedOrFailed(states[k].js);
  }

  /** Some joiners too early, and the creator waits for ever: for any number of joiners of which fewer than expected
      come after the semaphores, a run that leaves the creator in its collection with nobody able to go on. */
  lemma EarlyJoinersBlockForever(c: Setup, n: nat, f: nat) returns (run: Run<State, Move>)
    requires c.permits >= 1 && f <= n < c.expected + f
    ensures IsRun(c, n, run.moves, run.states)
    ensures var s := run.states[|run.moves|];
            && s.creator == Collect(n - f) && |s.js| == n
            && (forall i :: 0 <= i < n ==> if i < f then s.js[i].JoinerFailed? else s.js[i].JoinerExited?)
            && forall m: Move :: m.CreatorMove? || m.JoinerMove? ==> !Enabled(c, s, m)
  {
    run := SomeComplete(c, n, f, n);
    var s := State(Collect(0), Queue(n, f, n, JoinerExited), c.permits, n - f, true, true, Opens(1, 1));
    run := CollectSome(c, n, run, s, n - f);
  }

  /** Joiner `i` found one of the names missing when it opened it. */
  ghost predicate CameEarly(moves: seq<Move>, states: seq<State>, k: nat, i: nat)
    requires k <= |moves| < |states|
  {
    exists j :: 0 <= j < k && MissesName(states[j], moves[j], i)
  }

  predicate MissesName(s: State, m: Move, i: nat) {
    && m == JoinerMove(i) && i < |s.js|
    && ((s.js[i].OpenSem? && !s.semNamed) || (s.js[i].OpenDone? && !s.doneNamed))
  }

  /** What a joiner knows about the names. */
  predicate Knows(j: JoinerPC, early: bool) {
    match j
    case OpenSem => !early
    case OpenDone(ok) => ok != early
    case CheckOpen(ok) => ok != early
    case JoinerFailed => early
    case _ => !early
  }

  lemma {:induction false} JoinerKnows(c: Setup, n: nat, moves: seq<Move>, states: seq<State>, k: nat, i: nat)
    requires IsRun(c, n, moves, states) && k <= |moves| && i < n
    ensures |states[k].js| == n && Knows(states[k].js[i], CameEarly(moves, states, k, i))
  {
    if k == 0 {
    } else {
      JoinerKnows(c, n, moves, states, k - 1, i);
      var s, m := states[k - 1], moves[k - 1];
      assert states[k - 1 + 1] == Next(c, s, m);
      CameEarlyStep(moves, states, k, i);
    }
  }

  lemma CameEarlyStep(moves: seq<Move>, states: seq<State>, k: nat, i: nat)
    requires 0 < k <= |moves| < |states|
    ensures CameEarly(moves, states, k, i)
            <==> CameEarly(moves, states, k - 1, i) || MissesName(states[k - 1], moves[k - 1], i)
  {
    hide MissesName;
  }

  /** A joiner that is past its check has failed if and only if one of the names was missing when it opened it. */
  lemma FailsIff(c: Setup, n: nat, moves: seq<Move>, states: seq<State>, k: nat, i: nat)
    requires IsRun(c, n, moves, states) && k <= |moves| && i < n
    ensures |states[k].js| == n
    ensures var j := states[k].js[i];
            !j.OpenSem? && !j.OpenDone? && !j.CheckOpen? ==>
              (j.JoinerFailed? <==> CameEarly(moves, states, k, i))
  {
    JoinerKnows(c, n, moves, states, k, i);
  }

  /** Exactly when the creator finishes, for any number of joiners: when no agent can go on without a failing wait,
      and no wait on the completion count failed, it is through if and only if at least as many joiners as expected
      did not fail to open, and then all of these are through as well. */
  lemma FinishesIff(c: Setup, n: nat, moves: seq<Move>, states: seq<State>)
    requires IsRun(c, n, moves, states) && c.permits >= 1
    requires forall m: Move :: m.CreatorMove? || m.JoinerMove? ==> !Enabled(c, states[|moves|], m)
    requires !states[|moves|].creator.CreatorFailed?
    ensures var s := states[|moves|];
            && (s.creator.CreatorExited? <==> Participants(s.js) >= c.expected)
            && (s.creator.CreatorExited? ==> Final(s))
  {
    var s := states[|moves|];
    RunInv(c, n, moves, states, |moves|);
    if s.creator.CreatorExited? {
      EarlyJoinerBlocks(c, n, moves, states, |moves|);
    }
    if !Final(s) && Participants(s.js) >= c.expected {
      var m := NoDeadlock(c, s);
    }
  }

  // ----- Every run is short -----

  function JoinerRank(j: JoinerPC): int {
    match j
    case OpenSem => 8
    case OpenDone(_) => 7
    case CheckOpen(_) => 6
    case JoinerWait => 5
    case JoinerPost => 4
    case Notify => 3
    case JoinerCloseDone => 2
    case JoinerCloseSem => 1
    case JoinerExited => 0
    case JoinerFailed => 0
  }

  function CreatorRank(c: Setup, pc: CreatorPC): int {
    match pc
    case CreateSem => c.expected + 9
    case CreateDone => c.expected + 8
    case CreatorWait => c.expected + 7
    case CreatorPost => c.expected + 6
    case Collect(i) => c.expected - i + 5
    case CreatorCloseDone => 4
    case CreatorCloseSem => 3
    case UnlinkDone => 2
    case UnlinkSem => 1
    case CreatorExited => 0
    case CreatorFailed => 0
  }

  function Measure(c: Setup, s: State): int {
    CreatorRank(c, s.creator) + SumBy(JoinerRank, s.js)
  }

  lemma StepLowers(c: Setup, s: State, m: Move)
    requires Inv(c, s) && Enabled(c, s, m)
    ensures Measure(c, Next(c, s, m)) < Measure(c, s)
  {
    var t := Next(c, s, m);
    if m.JoinerMove? || m.JoinerWaitFails? {
      SumUpdate(JoinerRank, s.js, m.i, t.js[m.i]);
      assert t.js == s.js[m.i := t.js[m.i]];
    }
  }

  lemma {:induction false} InitialRank(js: seq<JoinerPC>)
    requires forall i :: 0 <= i < |js| ==> js[i].OpenSem?
    ensures SumBy(JoinerRank, js) == 8 * |js|
  {
    if js == [] {
    } else {
      InitialRank(js[1..]);
    }
  }

  lemma {:induction false} BoundedPrefix(c: Setup, n: nat, moves: seq<Move>, states: seq<State>, k: nat)
    requires IsRun(c, n, moves, states) && k <= |moves|
    ensures k + Measure(c, states[k]) <= 8 * n + c.expected + 9
  {
    if k == 0 {
      InitialRank(Initial(n).js);
    } else {
      BoundedPrefix(c, n, moves, states, k - 1);
      RunInv(c, n, moves, states, k - 1);
      assert states[k - 1 + 1] == Next(c, states[k - 1], moves[k - 1]);
      StepLowers(c, states[k - 1], moves[k - 1]);
    }
  }

  /** Every run has at most 8 steps per joiner, one per expected completion and 9 more. */
  lemma BoundedRun(c: Setup, n: nat, moves: seq<Move>, states: seq<State>)
    requires IsRun(c, n, moves, states)
    ensures |moves| <= 8 * n + c.expected + 9
  {
    BoundedPrefix(c, n, moves, states, |moves|);
    RunInv(c, n, moves, states, |moves|);
    SumAtLeast(JoinerRank, states[|moves|].js);
  }
}

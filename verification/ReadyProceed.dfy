/**
 The ready/proceed protocol of 10_9 for any number of workers, as a step relation.
 A step is one pthread call or one access to shared data; numbers in comments are lines of its main.c.
 */
module ReadyProceed {
  import opened ReadyRing

  datatype Holder = Free | HeldByMain | HeldByWorker(id: nat)

  datatype MainPC =
    | Creating(i: nat)          // 68-77: initialise and start worker i
    | GrantLoop                 // 82
    | LockGlobal                // 84
    | CheckEmpty                // 85
    | CallWait                  // 87: about to wait
    | Asleep                    // 87: waiting on cond_g_to_main
    | Woken                     // 87: reacquiring mutex_g_sync
    | PopNext                   // 91
    | ReleaseGlobal(id: int)    // 93
    | LockOwn(id: int)          // 94
    | TestProceed(id: int)      // 95
    | Grant(id: int)            // 98-99
    | SignalGrant(id: int)      // 100
    | ReleaseOwn(id: int)       // 103
    | RelockGlobal              // 104
    | LeaveGlobal               // 106
    | JoinLoop                  // 110
    | JoinScan(i: nat)          // 112-120
    | Cleanup(i: nat)           // 124-125
    | DestroyMutex(i: nat)      // 126
    | DestroyCondTo(i: nat)     // 127
    | DestroyCondFrom(i: nat)   // 128
    | Exited                    // 135

  datatype WorkerPC =
    | Unborn
    | LockReady                 // 164
    | SetReady                  // 165
    | SignalReady               // 166
    | UnlockReady               // 167
    | LockPush                  // 169
    | PushId                    // 170
    | SignalMain                // 171
    | UnlockPush                // 172
    | LockGo                    // 176
    | TestGo                    // 177
    | WaitCall                  // 179: about to wait
    | Sleeping                  // 179: waiting on cond_to_t
    | Waking                    // 179: reacquiring its mutex
    | UnlockGo                  // 182
    | Leaving                   // 184-187
    | Gone

  /** A worker with its thread_data_t, its handle in main's table and how often each primitive was destroyed. */
  datatype Worker = Worker(
    pc: WorkerPC, ready: bool, toProceed: bool, lock: Holder, joined: bool,
    mutexDestroys: nat, condToDestroys: nat, condFromDestroys: nat)

  /** `pushed` and `granted` record the order of pushes and grants, `overflows` the uses of the overflow branch. */
  datatype State = State(
    main: MainPC, ws: seq<Worker>, global: Holder, ring: Ring,
    count: nat, finished: nat, pushed: seq<int>, granted: seq<int>, overflows: nat)

  /** A step of main or of worker i, or a spurious wakeup of either. */
  datatype Move = MainMove | WorkerMove(i: nat) | MainSpurious | WorkerSpurious(i: nat)

  predicate MainHoldsGlobal(pc: MainPC) {
    pc.CheckEmpty? || pc.CallWait? || pc.PopNext? || pc.ReleaseGlobal? || pc.LeaveGlobal?
  }

  predicate MainHoldsOwn(pc: MainPC, i: int) {
    (pc.TestProceed? || pc.Grant? || pc.SignalGrant? || pc.ReleaseOwn?) && pc.id == i
  }

  predicate HoldsGlobal(pc: WorkerPC) {
    pc.PushId? || pc.SignalMain? || pc.UnlockPush?
  }

  predicate HoldsOwn(pc: WorkerPC) {
    pc.SetReady? || pc.SignalReady? || pc.UnlockReady? || pc.TestGo? || pc.WaitCall? || pc.UnlockGo?
  }

  // ----- Which moves can happen -----

  predicate MainEnabled(s: State) {
    match s.main
    case LockGlobal => s.global.Free?
    case Woken => s.global.Free?
    case RelockGlobal => s.global.Free?
    case LockOwn(id) => 0 <= id < |s.ws| ==> s.ws[id].lock.Free?
    case Asleep => false
    case Exited => false
    case _ => true
  }

  predicate WorkerEnabled(s: State, i: nat)
    requires i < |s.ws|
  {
    match s.ws[i].pc
    case Unborn => false
    case LockReady => s.ws[i].lock.Free?
    case LockPush => s.global.Free?
    case LockGo => s.ws[i].lock.Free?
    case Waking => s.ws[i].lock.Free?
    case Sleeping => false
    case Gone => false
    case _ => true
  }

  predicate Enabled(s: State, m: Move) {
    match m
    case MainMove => MainEnabled(s)
    case WorkerMove(i) => i < |s.ws| && WorkerEnabled(s, i)
    case MainSpurious => s.main.Asleep?
    case WorkerSpurious(i) => i < |s.ws| && s.ws[i].pc.Sleeping?
  }

  /** A try-join on a worker that is still running; main then looks at the next handle. */
  predicate BusyPoll(s: State, m: Move) {
    m.MainMove? && s.main.JoinScan? && s.main.i < |s.ws| && !s.ws[s.main.i].joined && !s.ws[s.main.i].pc.Gone?
  }

  predicate Spurious(m: Move) {
    m.MainSpurious? || m.WorkerSpurious?
  }

  // ----- What a move must respect -----

  predicate Alive(w: Worker) {
    w.mutexDestroys == 0 && w.condToDestroys == 0 && w.condFromDestroys == 0
  }

  /** Ids in range, queue and flags touched only under their mutex, unlock and wait only by the holder,
      no use of a destroyed primitive, and destruction only of an idle, not yet destroyed one. */
  predicate MainLegal(s: State) {
    match s.main
    case Creating(i) => i <= |s.ws| && (i < |s.ws| ==> s.ws[i].pc.Unborn? && Alive(s.ws[i]) && s.ws[i].lock.Free?)
    case CheckEmpty => s.global.HeldByMain? && s.ring.Valid()
    case CallWait => s.global.HeldByMain?
    case PopNext => s.global.HeldByMain? && s.ring.Valid()
    case ReleaseGlobal(id) => s.global.HeldByMain?
    case LeaveGlobal => s.global.HeldByMain?
    case LockOwn(id) => 0 <= id < |s.ws| && Alive(s.ws[id])
    case TestProceed(id) => 0 <= id < |s.ws| && Alive(s.ws[id]) && s.ws[id].lock.HeldByMain?
    case Grant(id) => 0 <= id < |s.ws| && Alive(s.ws[id]) && s.ws[id].lock.HeldByMain?
    case SignalGrant(id) => 0 <= id < |s.ws| && Alive(s.ws[id]) && s.ws[id].lock.HeldByMain?
    case ReleaseOwn(id) => 0 <= id < |s.ws| && Alive(s.ws[id]) && s.ws[id].lock.HeldByMain?
    case JoinScan(i) => i <= |s.ws|
    case Cleanup(i) => i < |s.ws| && s.ws[i].pc.Gone? && !s.ws[i].joined
    case DestroyMutex(i) =>
      i < |s.ws| && s.ws[i].mutexDestroys == 0 && s.ws[i].pc.Gone? && s.ws[i].lock.Free?
    case DestroyCondTo(i) => i < |s.ws| && s.ws[i].condToDestroys == 0 && s.ws[i].pc.Gone?
    case DestroyCondFrom(i) => i < |s.ws| && s.ws[i].condFromDestroys == 0 && s.ws[i].pc.Gone?
    case _ => true
  }

  predicate WorkerLegal(s: State, i: nat)
    requires i < |s.ws|
  {
    var w := s.ws[i];
    match w.pc
    case LockReady => Alive(w)
    case LockGo => Alive(w)
    case Waking => Alive(w)
    case SetReady => Alive(w) && w.lock == HeldByWorker(i)
    case SignalReady => Alive(w) && w.lock == HeldByWorker(i)
    case UnlockReady => Alive(w) && w.lock == HeldByWorker(i)
    case TestGo => Alive(w) && w.lock == HeldByWorker(i)
    case WaitCall => Alive(w) && w.lock == HeldByWorker(i)
    case UnlockGo => Alive(w) && w.lock == HeldByWorker(i)
    case PushId => s.global == HeldByWorker(i) && s.ring.Valid()
    case SignalMain => s.global == HeldByWorker(i)
    case UnlockPush => s.global == HeldByWorker(i)
    case _ => true
  }

  predicate Legal(s: State, m: Move)
    requires Enabled(s, m)
  {
    match m
    case MainMove => MainLegal(s)
    case WorkerMove(i) => WorkerLegal(s, i)
    case MainSpurious => true
    case WorkerSpurious(i) => Alive(s.ws[i])
  }

  // ----- What a move does -----

  function MainNext(s: State): State
    requires MainEnabled(s) && MainLegal(s)
  {
    match s.main
    case Creating(i) =>
      if i == |s.ws| then s.(main := GrantLoop)
      else s.(main := Creating(i + 1),
              ws := s.ws[i := s.ws[i].(pc := LockReady, ready := false, toProceed := false)])
    case GrantLoop => s.(main := if s.count < |s.ws| then LockGlobal else JoinLoop)
    case LockGlobal => s.(main := CheckEmpty, global := HeldByMain)
    case CheckEmpty => s.(main := if s.ring.IsEmpty() then CallWait else PopNext)
    case CallWait => s.(main := Asleep, global := Free)
    case Woken => s.(main := CheckEmpty, global := HeldByMain)
    case PopNext =>
      if s.ring.IsEmpty() then s.(main := LeaveGlobal)
      else s.(main := ReleaseGlobal(s.ring.buf[s.ring.head]), ring := s.ring.Pop())
    case ReleaseGlobal(id) => s.(main := LockOwn(id), global := Free)
    case LockOwn(id) => s.(main := TestProceed(id), ws := s.ws[id := s.ws[id].(lock := HeldByMain)])
    case TestProceed(id) => s.(main := if s.ws[id].toProceed then ReleaseOwn(id) else Grant(id))
    case Grant(id) =>
      s.(main := SignalGrant(id), count := s.count + 1, granted := s.granted + [id],
         ws := s.ws[id := s.ws[id].(toProceed := true)])
    case SignalGrant(id) =>
      s.(main := ReleaseOwn(id),
         ws := if s.ws[id].pc.Sleeping? then s.ws[id := s.ws[id].(pc := Waking)] else s.ws)
    case ReleaseOwn(id) => s.(main := RelockGlobal, ws := s.ws[id := s.ws[id].(lock := Free)])
    case RelockGlobal => s.(main := PopNext, global := HeldByMain)
    case LeaveGlobal => s.(main := GrantLoop, global := Free)
    case JoinLoop => s.(main := if s.finished < |s.ws| then JoinScan(0) else Exited)
    case JoinScan(i) =>
      if i == |s.ws| then s.(main := JoinLoop)
      else if !s.ws[i].joined && s.ws[i].pc.Gone? then s.(main := Cleanup(i))
      else s.(main := JoinScan(i + 1))
    case Cleanup(i) =>
      s.(main := DestroyMutex(i), finished := s.finished + 1, ws := s.ws[i := s.ws[i].(joined := true)])
    case DestroyMutex(i) =>
      s.(main := DestroyCondTo(i), ws := s.ws[i := s.ws[i].(mutexDestroys := s.ws[i].mutexDestroys + 1)])
    case DestroyCondTo(i) =>
      s.(main := DestroyCondFrom(i), ws := s.ws[i := s.ws[i].(condToDestroys := s.ws[i].condToDestroys + 1)])
    case DestroyCondFrom(i) =>
      s.(main := JoinScan(i + 1), ws := s.ws[i := s.ws[i].(condFromDestroys := s.ws[i].condFromDestroys + 1)])
  }

  /** Worker i with a new program counter. */
  function At(s: State, i: nat, pc: WorkerPC): State
    requires i < |s.ws|
  {
    s.(ws := s.ws[i := s.ws[i].(pc := pc)])
  }

  /** Worker i with a new program counter and its own mutex in a new state. */
  function AtLock(s: State, i: nat, pc: WorkerPC, lock: Holder): State
    requires i < |s.ws|
  {
    s.(ws := s.ws[i := s.ws[i].(pc := pc, lock := lock)])
  }

  function WorkerNext(s: State, i: nat): State
    requires i < |s.ws| && WorkerEnabled(s, i) && WorkerLegal(s, i)
  {
    match s.ws[i].pc
    case LockReady => AtLock(s, i, SetReady, HeldByWorker(i))
    case SetReady => s.(ws := s.ws[i := s.ws[i].(pc := SignalReady, ready := true)])
    case SignalReady => At(s, i, UnlockReady)   // nobody ever waits on cond_from_t
    case UnlockReady => AtLock(s, i, LockPush, Free)
    case LockPush => At(s, i, PushId).(global := HeldByWorker(i))
    case PushId =>
      if s.ring.Overflows() then At(s, i, SignalMain).(overflows := s.overflows + 1)
      else At(s, i, SignalMain).(ring := s.ring.Push(i), pushed := s.pushed + [i])
    case SignalMain => At(s, i, UnlockPush).(main := if s.main.Asleep? then Woken else s.main)
    case UnlockPush => At(s, i, LockGo).(global := Free)
    case LockGo => AtLock(s, i, TestGo, HeldByWorker(i))
    case TestGo => At(s, i, if s.ws[i].toProceed then UnlockGo else WaitCall)
    case WaitCall => AtLock(s, i, Sleeping, Free)
    case Waking => AtLock(s, i, TestGo, HeldByWorker(i))
    case UnlockGo => AtLock(s, i, Leaving, Free)
    case Leaving => At(s, i, Gone)
  }

  function Next(s: State, m: Move): State
    requires Enabled(s, m) && Legal(s, m)
  {
    match m
    case MainMove => MainNext(s)
    case WorkerMove(i) => WorkerNext(s, i)
    case MainSpurious => s.(main := Woken)
    case WorkerSpurious(i) => At(s, i, Waking)
  }

  // ----- Runs -----

  /** All data zeroed (66), an empty queue of one slot more than workers (34-36). */
  function Initial(n: nat): State {
    State(Creating(0), seq(n, _ => Worker(Unborn, false, false, Free, false, 0, 0, 0)), Free,
          Ring(seq(n + 1, _ => 0), 0, 0), 0, 0, [], [], 0)
  }

  ghost predicate IsStep(s: State, m: Move, t: State) {
    Enabled(s, m) && Legal(s, m) && t == Next(s, m)
  }

  /** `states` is what the moves `moves` produce from the start with `n` workers, under any schedule. */
  ghost predicate IsRun(n: nat, moves: seq<Move>, states: seq<State>) {
    && |states| == |moves| + 1
    && states[0] == Initial(n)
    && forall k :: 0 <= k < |moves| ==> IsStep(states[k], moves[k], states[k + 1])
  }
}

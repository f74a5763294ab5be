/**
 The sync scheduler as a transition system. One step is one section under the scheduler's mutex,
 one channel operation, or one slot unlock; goroutines are threads with a program counter, and any
 enabled step of any thread may come next. Callers of an enqueue are part of the environment.
 */
module SyncScheduler {
  import opened Options
  import opened SyncQueues

  type Tid = nat

  /** Where a goroutine stands inside a dispatch; `Deciding` is before it looks at the runtime's context. */
  datatype Stage = Deciding | TryingSend | QueueFull | MustDrop

  datatype WorkerState =
    | Idle
    | Received(job: Job)
    | Running(job: Job)
    | Unlocked(job: Job, result: RunResult)
    | HandingOver(job: Job, result: RunResult, next: Job, stage: Stage)
    | Finishing(job: Job, result: RunResult)
    | Rerunning(next: Job, stage: Stage)
    | Exited

  datatype Thread =
    | Caller(job: Job, ownContext: bool, stage: Stage)
    | Dispatcher(job: Job)
    | RetryTimer(job: Job)
    | Worker(state: WorkerState)

  /** The token a thread carries for itself: a job that is pending in its hands. */
  function Carried(t: Thread): Option<Job> {
    match t
    case Caller(job, _, _) => Some(job)
    case Dispatcher(job) => Some(job)
    case RetryTimer(_) => None
    case Worker(Idle) => None
    case Worker(Exited) => None
    case Worker(Rerunning(next, _)) => Some(next)
    case Worker(state) => Some(state.job)
  }

  /** The parked job a worker popped while giving its slot back. */
  function Popped(t: Thread): Option<Job> {
    if t.Worker? && t.state.HandingOver? then Some(t.state.next) else None
  }

  /**
   What runs are judged by, and no step looks at: when a request of each key was last accepted, when
   the key last began its body and was last dropped unrun, and which keys left the pending map after
   not being found. A request that joins a pending entry is accepted at once; one that inserts the
   entry is accepted when its job is queued or handed to a dispatcher. `requests` and `runs` note the
   same acceptances and beginnings by the work that the request asked for and that the job does.
   */
  datatype History = History(
    clock: nat,
    accepted: map<Key, nat>,
    begun: map<Key, nat>,
    lost: map<Key, nat>,
    missing: set<Key>,
    requests: map<Work, nat>,
    runs: map<Work, nat>)
  {
    function Tick(): History { this.(clock := clock + 1) }
    function Insert(k: Key): History { Tick().(missing := missing - {k}) }
    function Accept(job: Job): History {
      Tick().(accepted := accepted[job.KeyOf() := clock], requests := requests[job.WorkOf() := clock])
    }
    function Begin(job: Job): History {
      Tick().(begun := begun[job.KeyOf() := clock], runs := runs[job.WorkOf() := clock])
    }
    function Lose(k: Key): History { Tick().(lost := lost[k := clock]) }
    function Miss(k: Key): History { Tick().(missing := missing + {k}) }
  }

  /** `workers` is how many sync workers the runtime starts. */
  datatype State = State(
    sh: Shared,
    workers: nat,
    started: bool,
    cancelled: bool,
    threads: map<Tid, Thread>,
    log: History)
  {
    predicate Live() { started && !cancelled }

    predicate At(t: Tid, th: Thread) { t in threads && threads[t] == th }

    predicate AtWorker(t: Tid) { t in threads && threads[t].Worker? }

    function Put(t: Tid, th: Thread): State { this.(threads := threads[t := th]) }

    function Remove(t: Tid): State { this.(threads := threads - {t}) }
  }

  function Init(capacity: nat, workers: nat): State {
    State(Shared(map[], map[], map[], map[], {}, {}, [], [], capacity), workers, false, false, map[],
          History(0, map[], map[], map[], {}, map[], map[]))
  }

  /** The step left the pending map, the failure counters and what was lost or missed alone. */
  predicate SameBooks(s: State, s': State) {
    && s'.sh.pending == s.sh.pending && s'.sh.failures == s.sh.failures
    && s'.log.lost == s.log.lost && s'.log.missing == s.log.missing
  }

  datatype Step =
    | Start(workers: set<Tid>)
    | Cancel
    | Enqueue(t: Tid, job: Job, ownContext: bool)
    | CallerSend(t: Tid)
    | CallerFull(t: Tid, expired: bool)
    | CallerDrop(t: Tid)
    | DispatcherSend(t: Tid)
    | DispatcherAbort(t: Tid)
    | TimerFire(t: Tid)
    | TimerExit(t: Tid)
    | Receive(w: Tid, tier: Tier)
    | AcquireSlot(w: Tid)
    | EndAndUnlock(w: Tid, result: RunResult)
    | Pop(w: Tid)
    | HandDecide(w: Tid)
    | HandSend(w: Tid)
    | HandFull(w: Tid, t: Tid)
    | HandDrop(w: Tid)
    | FinishJob(w: Tid, t: Tid)
    | RerunSend(w: Tid)
    | RerunFull(w: Tid, t: Tid)
    | RerunDrop(w: Tid)
    | Exit(w: Tid)

  function Workers(ws: set<Tid>): map<Tid, Thread> {
    map w | w in ws :: Worker(Idle)
  }

  // ---- the runtime's life ----

  predicate CanStart(s: State, ws: set<Tid>) {
    !s.started && ws !! s.threads.Keys && |ws| == s.workers
  }

  function DoStart(s: State, ws: set<Tid>): (s': State)
    ensures SameBooks(s, s')
  {
    s.(started := true, threads := s.threads + Workers(ws), log := s.log.Tick())
  }

  function DoCancel(s: State): State {
    s.(cancelled := true, log := s.log.Tick())
  }

  // ---- callers of an enqueue, dispatcher goroutines and backoff timers ----

  /** The locked part of an enqueue by thread `t`, which goes on to dispatch a new entry. */
  function DoEnqueue(s: State, t: Tid, job: Job, ownContext: bool): State {
    var (sh, inserted) := Admit(s.sh, job);
    if inserted then s.(sh := sh, log := s.log.Insert(job.KeyOf())).Put(t, Caller(job, ownContext, TryingSend))
    else s.(sh := sh, log := s.log.Accept(job))
  }

  predicate AtCaller(s: State, t: Tid, stage: Stage) {
    t in s.threads && s.threads[t].Caller? && s.threads[t].stage == stage
  }

  function DoCallerSend(s: State, t: Tid): (s': State)
    requires AtCaller(s, t, TryingSend)
    ensures SameBooks(s, s')
  {
    var th := s.threads[t];
    var (sh, sent) := TrySend(s.sh, th.job);
    if sent then s.(sh := sh, log := s.log.Accept(th.job)).Remove(t)
    else s.(log := s.log.Tick()).Put(t, Caller(th.job, th.ownContext, QueueFull))
  }

  /** The queue was full: give up on an expired context or a stopped runtime, else go dynamic. */
  function DoCallerFull(s: State, t: Tid, expired: bool): (s': State)
    requires AtCaller(s, t, QueueFull)
    ensures SameBooks(s, s')
  {
    var th := s.threads[t];
    if expired || !s.Live() then s.(log := s.log.Tick()).Put(t, Caller(th.job, th.ownContext, MustDrop))
    else s.(log := s.log.Accept(th.job)).Put(t, Dispatcher(th.job))
  }

  /** Deletes the pending entry whatever was added to it since it was inserted. */
  function DoDrop(s: State, t: Tid): State
    requires t in s.threads && (s.threads[t].Caller? || s.threads[t].Dispatcher?)
  {
    var key := s.threads[t].job.KeyOf();
    s.(sh := DropPending(s.sh, key), log := s.log.Lose(key)).Remove(t)
  }

  predicate AtDispatcher(s: State, t: Tid) {
    t in s.threads && s.threads[t].Dispatcher?
  }

  function DoDispatcherSend(s: State, t: Tid): (s': State)
    requires AtDispatcher(s, t)
    ensures SameBooks(s, s')
  {
    s.(sh := TrySend(s.sh, s.threads[t].job).0, log := s.log.Tick()).Remove(t)
  }

  predicate AtTimer(s: State, t: Tid) {
    t in s.threads && s.threads[t].RetryTimer?
  }

  /** A backoff timer expires: its goroutine enqueues the job again under the runtime's context. */
  function DoTimerFire(s: State, t: Tid): State
    requires AtTimer(s, t)
  {
    DoEnqueue(s.Remove(t), t, s.threads[t].job, false)
  }

  function DoTimerExit(s: State, t: Tid): State {
    s.(log := s.log.Tick()).Remove(t)
  }

  // ---- workers ----

  predicate CanReceive(s: State, w: Tid, tier: Tier) {
    s.At(w, Worker(Idle)) && s.sh.Queue(tier) != []
  }

  function DoReceive(s: State, w: Tid, tier: Tier): (s': State)
    requires CanReceive(s, w, tier)
    ensures SameBooks(s, s')
  {
    var q := s.sh.Queue(tier);
    s.(sh := s.sh.WithQueue(tier, q[1..]), log := s.log.Tick()).Put(w, Worker(Received(q[0])))
  }

  predicate AtReceived(s: State, w: Tid) {
    s.AtWorker(w) && s.threads[w].state.Received?
  }

  function DoAcquire(s: State, w: Tid): (s': State)
    requires AtReceived(s, w)
    ensures SameBooks(s, s')
  {
    var job := s.threads[w].state.job;
    var (sh, taken) := Acquire(s.sh, job);
    if taken then s.(sh := sh, log := s.log.Begin(job)).Put(w, Worker(Running(job)))
    else s.(sh := sh, log := s.log.Tick()).Put(w, Worker(Idle))
  }

  predicate AtRunning(s: State, w: Tid) {
    s.AtWorker(w) && s.threads[w].state.Running?
  }

  function DoEndAndUnlock(s: State, w: Tid, result: RunResult): (s': State)
    requires AtRunning(s, w)
    ensures SameBooks(s, s')
  {
    var job := s.threads[w].state.job;
    s.(sh := Unlock(s.sh, job.SlotOf()), log := s.log.Tick()).Put(w, Worker(Unlocked(job, result)))
  }

  predicate AtUnlocked(s: State, w: Tid) {
    s.AtWorker(w) && s.threads[w].state.Unlocked?
  }

  function DoPop(s: State, w: Tid): (s': State)
    requires AtUnlocked(s, w)
    ensures SameBooks(s, s')
  {
    var st := s.threads[w].state;
    var (sh, next) := PopWaiting(s.sh, st.job.SlotOf());
    var u := s.(sh := sh, log := s.log.Tick());
    if next == None then u.Put(w, Worker(Finishing(st.job, st.result)))
    else u.Put(w, Worker(HandingOver(st.job, st.result, next.value, Deciding)))
  }

  predicate AtHand(s: State, w: Tid, stage: Stage) {
    s.AtWorker(w) && s.threads[w].state.HandingOver? && s.threads[w].state.stage == stage
  }

  /** Outside the mutex the worker looks whether the runtime still runs. */
  function DoHandDecide(s: State, w: Tid): (s': State)
    requires AtHand(s, w, Deciding)
    ensures SameBooks(s, s')
  {
    var st := s.threads[w].state;
    s.(log := s.log.Tick())
    .Put(w, Worker(HandingOver(st.job, st.result, st.next, if s.cancelled then MustDrop else TryingSend)))
  }

  function DoHandSend(s: State, w: Tid): (s': State)
    requires AtHand(s, w, TryingSend)
    ensures SameBooks(s, s')
  {
    var st := s.threads[w].state;
    var (sh, sent) := TrySend(s.sh, st.next);
    s.(sh := sh, log := s.log.Tick())
    .Put(w, Worker(if sent then Finishing(st.job, st.result) else HandingOver(st.job, st.result, st.next, QueueFull)))
  }

  function DoHandFull(s: State, w: Tid, t: Tid): (s': State)
    requires AtHand(s, w, QueueFull)
    ensures SameBooks(s, s')
  {
    var st := s.threads[w].state;
    var u := s.(log := s.log.Tick());
    if !s.Live() then u.Put(w, Worker(HandingOver(st.job, st.result, st.next, MustDrop)))
    else u.Put(w, Worker(Finishing(st.job, st.result))).Put(t, Dispatcher(st.next))
  }

  function DoHandDrop(s: State, w: Tid): State
    requires AtHand(s, w, MustDrop)
  {
    var st := s.threads[w].state;
    var key := st.next.KeyOf();
    s.(sh := DropPending(s.sh, key), log := s.log.Lose(key)).Put(w, Worker(Finishing(st.job, st.result)))
  }

  predicate AtFinishing(s: State, w: Tid) {
    s.AtWorker(w) && s.threads[w].state.Finishing?
  }

  function DoFinish(s: State, w: Tid, t: Tid): State
    requires AtFinishing(s, w)
  {
    var st := s.threads[w].state;
    var (sh, outcome) := Finish(s.sh, st.job, st.result, !s.cancelled);
    var log := if st.result == NotFound && !outcome.Redispatch? then s.log.Miss(st.job.KeyOf()) else s.log.Tick();
    var u := s.(sh := sh, log := log);
    match outcome
    case Redispatch(next) => u.Put(w, Worker(Rerunning(next, TryingSend)))
    case ArmRetry => u.Put(w, Worker(Idle)).Put(t, RetryTimer(st.job))
    case Done => u.Put(w, Worker(Idle))
  }

  predicate AtRerun(s: State, w: Tid, stage: Stage) {
    s.AtWorker(w) && s.threads[w].state.Rerunning? && s.threads[w].state.stage == stage
  }

  function DoRerunSend(s: State, w: Tid): (s': State)
    requires AtRerun(s, w, TryingSend)
    ensures SameBooks(s, s')
  {
    var next := s.threads[w].state.next;
    var (sh, sent) := TrySend(s.sh, next);
    s.(sh := sh, log := s.log.Tick()).Put(w, Worker(if sent then Idle else Rerunning(next, QueueFull)))
  }

  function DoRerunFull(s: State, w: Tid, t: Tid): (s': State)
    requires AtRerun(s, w, QueueFull)
    ensures SameBooks(s, s')
  {
    var next := s.threads[w].state.next;
    var u := s.(log := s.log.Tick());
    if !s.Live() then u.Put(w, Worker(Rerunning(next, MustDrop)))
    else u.Put(w, Worker(Idle)).Put(t, Dispatcher(next))
  }

  function DoRerunDrop(s: State, w: Tid): State
    requires AtRerun(s, w, MustDrop)
  {
    var key := s.threads[w].state.next.KeyOf();
    s.(sh := DropPending(s.sh, key), log := s.log.Lose(key)).Put(w, Worker(Idle))
  }

  function DoExit(s: State, w: Tid): State {
    s.(log := s.log.Tick()).Put(w, Worker(Exited))
  }

  // ---- steps and runs ----

  /** Which steps a state allows. Steps that create a goroutine name a thread id not in use. */
  predicate Enabled(s: State, step: Step) {
    match step
    case Start(ws) => CanStart(s, ws)
    case Cancel => s.started
    case Enqueue(t, job, ownContext) => job.Valid() && t !in s.threads && (s.started || ownContext)
    case CallerSend(t) => AtCaller(s, t, TryingSend)
    case CallerFull(t, expired) => AtCaller(s, t, QueueFull) && (expired ==> s.threads[t].ownContext)
    case CallerDrop(t) => AtCaller(s, t, MustDrop)
    case DispatcherSend(t) => AtDispatcher(s, t) && |s.sh.Queue(s.threads[t].job.TierOf())| < s.sh.capacity
    case DispatcherAbort(t) => AtDispatcher(s, t) && s.cancelled
    case TimerFire(t) => AtTimer(s, t)
    case TimerExit(t) => AtTimer(s, t) && s.cancelled
    case Receive(w, tier) => CanReceive(s, w, tier)
    case AcquireSlot(w) => AtReceived(s, w)
    case EndAndUnlock(w, _) => AtRunning(s, w)
    case Pop(w) => AtUnlocked(s, w)
    case HandDecide(w) => AtHand(s, w, Deciding)
    case HandSend(w) => AtHand(s, w, TryingSend)
    case HandFull(w, t) => AtHand(s, w, QueueFull) && t !in s.threads
    case HandDrop(w) => AtHand(s, w, MustDrop)
    case FinishJob(w, t) => AtFinishing(s, w) && t !in s.threads
    case RerunSend(w) => AtRerun(s, w, TryingSend)
    case RerunFull(w, t) => AtRerun(s, w, QueueFull) && t !in s.threads
    case RerunDrop(w) => AtRerun(s, w, MustDrop)
    case Exit(w) => s.At(w, Worker(Idle)) && s.cancelled
  }

  /** The state after an allowed step. */
  function Next(s: State, step: Step): State
    requires Enabled(s, step)
  {
    match step
    case Start(ws) => DoStart(s, ws)
    case Cancel => DoCancel(s)
    case Enqueue(t, job, ownContext) => DoEnqueue(s, t, job, ownContext)
    case CallerSend(t) => DoCallerSend(s, t)
    case CallerFull(t, expired) => DoCallerFull(s, t, expired)
    case CallerDrop(t) => DoDrop(s, t)
    case DispatcherSend(t) => DoDispatcherSend(s, t)
    case DispatcherAbort(t) => DoDrop(s, t)
    case TimerFire(t) => DoTimerFire(s, t)
    case TimerExit(t) => DoTimerExit(s, t)
    case Receive(w, tier) => DoReceive(s, w, tier)
    case AcquireSlot(w) => DoAcquire(s, w)
    case EndAndUnlock(w, result) => DoEndAndUnlock(s, w, result)
    case Pop(w) => DoPop(s, w)
    case HandDecide(w) => DoHandDecide(s, w)
    case HandSend(w) => DoHandSend(s, w)
    case HandFull(w, t) => DoHandFull(s, w, t)
    case HandDrop(w) => DoHandDrop(s, w)
    case FinishJob(w, t) => DoFinish(s, w, t)
    case RerunSend(w) => DoRerunSend(s, w)
    case RerunFull(w, t) => DoRerunFull(s, w, t)
    case RerunDrop(w) => DoRerunDrop(s, w)
    case Exit(w) => DoExit(s, w)
  }

  /** Running `steps` from `s`, each of them allowed where it is taken, ends in `s'`. */
  ghost predicate IsRun(s: State, steps: seq<Step>, s': State)
    decreases |steps|
  {
    if steps == [] then s == s'
    else Enabled(s, steps[0]) && IsRun(Next(s, steps[0]), steps[1..], s')
  }
}

/**
 The scheduler's promises in the terms of its callers: which work was asked for, which work is run, and
 which of an account's two slots a kind of work may use. Nothing here depends on how keys are built.
 */
module SyncRequests {
  import opened Options
  import opened SyncQueues
  import opened SyncScheduler
  import opened SyncOwnership
  import opened SyncGuarantees

  // ---- the history by key and by work ----

  predicate Agree(byWork: map<Work, nat>, byKey: map<Key, nat>, job: Job) {
    && (job.WorkOf() in byWork <==> job.KeyOf() in byKey)
    && (job.KeyOf() in byKey && job.WorkOf() in byWork ==> byWork[job.WorkOf()] == byKey[job.KeyOf()])
  }

  /** What was noted for the key of a job was noted for its work. */
  ghost predicate Named(log: History) {
    forall job: Job :: Agree(log.requests, log.accepted, job) && Agree(log.runs, log.begun, job)
  }

  lemma NotedAgree(byWork: map<Work, nat>, byKey: map<Key, nat>, of: Job, at: nat, job: Job)
    requires Agree(byWork, byKey, job)
    ensures Agree(byWork[of.WorkOf() := at], byKey[of.KeyOf() := at], job)
  {
    KeysNameWork(of, job);
  }

  lemma BooksKeepAgree(log: History, of: Job, log': History, job: Job)
    requires Agree(log.requests, log.accepted, job) && Agree(log.runs, log.begun, job) && Books(log, of, log')
    ensures Agree(log'.requests, log'.accepted, job) && Agree(log'.runs, log'.begun, job)
  {
    NotedAgree(log.requests, log.accepted, of, log.clock, job);
    NotedAgree(log.runs, log.begun, of, log.clock, job);
  }

  lemma BooksKeepNamed(log: History, of: Job, log': History)
    requires Named(log) && Books(log, of, log')
    ensures Named(log')
  {
    forall job: Job
      ensures Agree(log'.requests, log'.accepted, job) && Agree(log'.runs, log'.begun, job)
    {
      BooksKeepAgree(log, of, log', job);
    }
  }

  lemma {:induction false} RunKeepsNamed(s: State, steps: seq<Step>, s': State)
    requires Named(s.log) && IsRun(s, steps, s')
    ensures Named(s'.log)
    decreases |steps|
  {
    if steps != [] {
      var of := StepBooks(s, steps[0]);
      BooksKeepNamed(s.log, of, Next(s, steps[0]).log);
      RunKeepsNamed(Next(s, steps[0]), steps[1..], s');
    }
  }

  // ---- every job stands for some work ----

  /** No entry and no retry timer is for a job without a kind. */
  ghost predicate Real(s: State) {
    && InvalidKey !in s.sh.pending
    && forall t :: AtTimer(s, t) ==> s.threads[t].job.kind != NoKind
  }

  lemma RealAfterEnqueue(s: State, t: Tid, job: Job, ownContext: bool)
    requires Real(s) && job.kind != NoKind && (t in s.threads ==> s.threads[t].RetryTimer?)
    ensures Real(DoEnqueue(s.Remove(t), t, job, ownContext))
  {
    var s' := DoEnqueue(s.Remove(t), t, job, ownContext);
    forall u | AtTimer(s', u)
      ensures s'.threads[u].job.kind != NoKind
    {
      assert AtTimer(s, u);
    }
  }

  lemma RealAfterFinish(s: State, w: Tid, t: Tid)
    requires Inv(s) && Real(s) && AtFinishing(s, w) && t !in s.threads
    ensures Real(DoFinish(s, w, t))
  {
    assert Holds(s, With(w), s.threads[w].state.job.KeyOf());
    var s' := DoFinish(s, w, t);
    forall u | AtTimer(s', u)
      ensures s'.threads[u].job.kind != NoKind
    {
      assert u != t ==> AtTimer(s, u);
    }
  }

  /** Only the booking of a run arms a timer. */
  lemma TimerBefore(s: State, step: Step, u: Tid)
    requires Enabled(s, step) && !step.FinishJob? && AtTimer(Next(s, step), u)
    ensures AtTimer(s, u) && s.threads[u] == Next(s, step).threads[u]
  {
  }

  lemma StepKeepsReal(s: State, step: Step)
    requires Inv(s) && Real(s) && Enabled(s, step)
    ensures Real(Next(s, step))
  {
    if step.Enqueue? {
      assert s.Remove(step.t) == s;
      RealAfterEnqueue(s, step.t, step.job, step.ownContext);
    } else if step.TimerFire? {
      RealAfterEnqueue(s, step.t, s.threads[step.t].job, false);
    } else if step.FinishJob? {
      RealAfterFinish(s, step.w, step.t);
    } else {
      NoNewEntry(s, step);
      forall u | AtTimer(Next(s, step), u)
        ensures Next(s, step).threads[u].job.kind != NoKind
      {
        TimerBefore(s, step, u);
      }
    }
  }

  lemma NoNewEntry(s: State, step: Step)
    requires Enabled(s, step) && !step.Enqueue? && !step.TimerFire? && !step.FinishJob?
    ensures Next(s, step).sh.pending.Keys <= s.sh.pending.Keys
  {
    if Bookless(step) {
      BooklessStep(s, step);
    }
  }

  lemma {:induction false} RunKeepsReal(s: State, steps: seq<Step>, s': State)
    requires Inv(s) && Real(s) && IsRun(s, steps, s')
    ensures Inv(s') && Real(s')
    decreases |steps|
  {
    if steps != [] {
      StepKeepsInv(s, steps[0]);
      StepKeepsReal(s, steps[0]);
      RunKeepsReal(Next(s, steps[0]), steps[1..], s');
    }
  }

  lemma Reached(capacity: nat, workers: nat, steps: seq<Step>, s: State)
    requires IsRun(Init(capacity, workers), steps, s)
    ensures Inv(s) && Real(s) && Named(s.log)
  {
    InitInv(capacity, workers);
    RunKeepsReal(Init(capacity, workers), steps, s);
    RunKeepsNamed(Init(capacity, workers), steps, s);
  }

  // ---- entries and tokens ----

  lemma EntryHasWork(s: State, k: Key, job: Job)
    requires Inv(s) && Real(s) && k in s.sh.pending
    ensures s.sh.pending[k].job.KeyOf() == k && s.sh.pending[k].job.kind != NoKind
    ensures job.KeyOf() == k <==> SameWork(s.sh.pending[k].job, job)
  {
    assert s.sh.pending[k].job.KeyOf() == k;
    KeysTellWork(s.sh.pending[k].job, job);
  }

  /**
   In all states that any runs reach, an entry's job may be replaced by another one but asks for the same
   work, and two entries ask for different work.
   */
  lemma EntryNamesItsWork(capacity: nat, workers: nat, steps: seq<Step>, s: State, k: Key,
                          steps': seq<Step>, s': State, l: Key)
    requires IsRun(Init(capacity, workers), steps, s) && k in s.sh.pending
    requires IsRun(Init(capacity, workers), steps', s') && l in s'.sh.pending
    ensures SameWork(s.sh.pending[k].job, s'.sh.pending[l].job) <==> k == l
  {
    Reached(capacity, workers, steps, s);
    Reached(capacity, workers, steps', s');
    EntryHasWork(s, k, s'.sh.pending[l].job);
    EntryHasWork(s', l, s.sh.pending[k].job);
  }

  /** What an enqueue of `job` by thread `t` does to the entries, told by the work they stand for. */
  ghost predicate Joined(s: State, s': State, job: Job) {
    && s'.threads == s.threads
    && s'.sh.pending.Keys == s.sh.pending.Keys
    && forall k :: k in s.sh.pending ==>
         s'.sh.pending[k] == if SameWork(s.sh.pending[k].job, job) then JobState(job, true) else s.sh.pending[k]
  }

  ghost predicate Inserted(s: State, s': State, t: Tid, job: Job, ownContext: bool) {
    && s'.threads == s.threads[t := Caller(job, ownContext, TryingSend)]
    && exists k :: k !in s.sh.pending && s'.sh.pending == s.sh.pending[k := JobState(job, false)]
  }

  lemma EnqueueJoins(s: State, t: Tid, job: Job, ownContext: bool)
    requires t !in s.threads
    requires forall k :: k in s.sh.pending ==> (job.KeyOf() == k <==> SameWork(s.sh.pending[k].job, job))
    ensures var s' := DoEnqueue(s, t, job, ownContext);
      if job.KeyOf() in s.sh.pending then Joined(s, s', job) else Inserted(s, s', t, job, ownContext)
  {
  }

  /**
   In every reachable state a request joins the pending entry for the same work and has it run again,
   and no other entry; when no entry is for that work, one is made and dispatched.
   */
  lemma RequestsJoinTheirWork(capacity: nat, workers: nat, steps: seq<Step>, s: State, t: Tid, job: Job, ownContext: bool)
    requires IsRun(Init(capacity, workers), steps, s) && Enabled(s, Enqueue(t, job, ownContext))
    ensures var s' := Next(s, Enqueue(t, job, ownContext));
      if exists k :: k in s.sh.pending && SameWork(s.sh.pending[k].job, job) then Joined(s, s', job)
      else Inserted(s, s', t, job, ownContext)
  {
    Reached(capacity, workers, steps, s);
    forall k | k in s.sh.pending
      ensures job.KeyOf() == k <==> SameWork(s.sh.pending[k].job, job)
    {
      EntryHasWork(s, k, job);
    }
    EnqueueJoins(s, t, job, ownContext);
  }

  /** The job `job` is somewhere on its way to a worker's body, or in it. */
  ghost predicate Carries(s: State, p: Place, job: Job) {
    match p
    case InQueue(Foreground) => job in s.sh.high
    case InQueue(Background) => job in s.sh.low
    case Parked(Slot(Foreground, account)) => account in s.sh.fgWaiting && job in s.sh.fgWaiting[account]
    case Parked(Slot(Background, account)) => account in s.sh.bgWaiting && job in s.sh.bgWaiting[account]
    case With(t) => t in s.threads && Carried(s.threads[t]) == Some(job)
    case PoppedBy(t) => t in s.threads && Popped(s.threads[t]) == Some(job)
  }

  lemma CarriesIsHolds(s: State, p: Place, job: Job)
    requires Carries(s, p, job)
    ensures Holds(s, p, job.KeyOf())
  {
    match p
    case InQueue(tier) => InHasKey(s.sh.Queue(tier), job);
    case Parked(slot) => InHasKey(s.sh.Waiting(slot), job);
    case _ =>
  }

  lemma InHasKey(js: seq<Job>, job: Job)
    requires job in js
    ensures HasKey(js, job.KeyOf())
  {
    var i :| 0 <= i < |js| && js[i] == job;
    assert js[i].KeyOf() == job.KeyOf();
  }

  lemma HoldsIsCarries(s: State, p: Place, k: Key) returns (job: Job)
    requires Holds(s, p, k)
    ensures job.KeyOf() == k && Carries(s, p, job)
  {
    match p
    case InQueue(tier) =>
      var i :| 0 <= i < |s.sh.Queue(tier)| && s.sh.Queue(tier)[i].KeyOf() == k;
      job := s.sh.Queue(tier)[i];
    case Parked(slot) =>
      var i :| 0 <= i < |s.sh.Waiting(slot)| && s.sh.Waiting(slot)[i].KeyOf() == k;
      job := s.sh.Waiting(slot)[i];
    case With(t) => job := Carried(s.threads[t]).value;
    case PoppedBy(t) => job := Popped(s.threads[t]).value;
  }

  /**
   In every reachable state each piece of work that is pending is carried by a job at one place, and
   no other place carries a job of the same work.
   */
  lemma WorkIsCarriedOnce(capacity: nat, workers: nat, steps: seq<Step>, s: State)
    requires IsRun(Init(capacity, workers), steps, s)
    ensures forall k :: k in s.sh.pending ==> exists p, job :: Carries(s, p, job) && SameWork(s.sh.pending[k].job, job)
    ensures forall p, job :: Carries(s, p, job) ==> exists k :: k in s.sh.pending && SameWork(s.sh.pending[k].job, job)
    ensures forall p, a, q, b :: Carries(s, p, a) && Carries(s, q, b) && SameWork(a, b) ==> p == q
  {
    Reached(capacity, workers, steps, s);
    forall k | k in s.sh.pending
      ensures exists p, job :: Carries(s, p, job) && SameWork(s.sh.pending[k].job, job)
    {
      var p :| Holds(s, p, k);
      var job := HoldsIsCarries(s, p, k);
      EntryHasWork(s, k, job);
    }
    forall p, job | Carries(s, p, job)
      ensures job.KeyOf() in s.sh.pending && SameWork(s.sh.pending[job.KeyOf()].job, job)
    {
      CarriesIsHolds(s, p, job);
      EntryHasWork(s, job.KeyOf(), job);
    }
    forall p, a, q, b | Carries(s, p, a) && Carries(s, q, b) && SameWork(a, b)
      ensures p == q
    {
      CarriesIsHolds(s, p, a);
      CarriesIsHolds(s, q, b);
      EntryHasWork(s, a.KeyOf(), a);
      KeysTellWork(a, b);
    }
  }

  // ---- what the history notes ----

  predicate IsLong(job: Job) {
    job.kind == Backfill || job.kind == Reconcile
  }

  /** The request that a step accepts: one that joins an entry, is queued, or is left to a dispatcher. */
  function Accepting(s: State, step: Step): Option<Job>
    requires Enabled(s, step)
  {
    match step
    case Enqueue(_, job, _) => if job.KeyOf() in s.sh.pending then Some(job) else None
    case TimerFire(t) => if s.threads[t].job.KeyOf() in s.sh.pending then Some(s.threads[t].job) else None
    case CallerSend(t) =>
      var job := s.threads[t].job;
      if |if IsLong(job) then s.sh.low else s.sh.high| < s.sh.capacity then Some(job) else None
    case CallerFull(t, expired) => if !expired && s.Live() then Some(s.threads[t].job) else None
    case _ => None
  }

  /** The job whose body a step begins: its worker finds the slot of its account and kind free. */
  function Beginning(s: State, step: Step): Option<Job>
    requires Enabled(s, step)
  {
    if step.AcquireSlot? then
      var job := s.threads[step.w].state.job;
      if job.account in (if IsLong(job) then s.sh.bgHeld else s.sh.fgHeld) then None else Some(job)
    else None
  }

  function Noted(times: map<Work, nat>, of: Option<Job>, clock: nat): map<Work, nat> {
    if of == None then times else times[of.value.WorkOf() := clock]
  }

  ghost predicate Exact(s: State, step: Step)
    requires Enabled(s, step)
  {
    && Next(s, step).log.requests == Noted(s.log.requests, Accepting(s, step), s.log.clock)
    && Next(s, step).log.runs == Noted(s.log.runs, Beginning(s, step), s.log.clock)
  }

  lemma EnqueueNotes(s: State, t: Tid, job: Job, ownContext: bool)
    ensures DoEnqueue(s, t, job, ownContext).log ==
            if job.KeyOf() in s.sh.pending then s.log.Accept(job) else s.log.Insert(job.KeyOf())
  {
  }

  lemma PlacingNotes(s: State, step: Step)
    requires Enabled(s, step) && (step.CallerSend? || step.CallerFull?)
    ensures Exact(s, step)
  {
  }

  lemma AcquireNotes(s: State, step: Step)
    requires Enabled(s, step) && step.AcquireSlot?
    ensures Exact(s, step)
  {
  }

  lemma FinishNotes(s: State, step: Step)
    requires Enabled(s, step) && (step.FinishJob? || step.CallerDrop?)
    ensures Exact(s, step)
  {
  }

  lemma GivingUpNotes(s: State, step: Step)
    requires Enabled(s, step) && GivesUp(step)
    ensures Exact(s, step)
  {
    match step
    case Cancel =>
    case DispatcherAbort(_) =>
    case HandDrop(_) =>
    case RerunDrop(_) =>
    case TimerExit(_) =>
    case Exit(_) =>
  }

  /** The history notes the requests that are accepted and the bodies that begin, and no others. */
  lemma HistoryIsExact(s: State, step: Step)
    requires Enabled(s, step)
    ensures Next(s, step).log.requests == Noted(s.log.requests, Accepting(s, step), s.log.clock)
    ensures Next(s, step).log.runs == Noted(s.log.runs, Beginning(s, step), s.log.clock)
  {
    match step
    case Enqueue(t, job, ownContext) => EnqueueNotes(s, t, job, ownContext);
    case TimerFire(t) => EnqueueNotes(s.Remove(t), t, s.threads[t].job, false);
    case CallerSend(_) | CallerFull(_, _) => PlacingNotes(s, step);
    case AcquireSlot(_) => AcquireNotes(s, step);
    case FinishJob(_, _) | CallerDrop(_) => FinishNotes(s, step);
    case Cancel | DispatcherAbort(_) | HandDrop(_) | RerunDrop(_) | TimerExit(_) | Exit(_) => GivingUpNotes(s, step);
    case _ => UneventfulBooksNothing(s, step);
  }

  // ---- requested work is run ----

  /** A worker is in the body of a job, from its begin until its outcome is booked. */
  ghost predicate InBodyOf(s: State, t: Tid, job: Job) {
    && s.AtWorker(t)
    && (s.threads[t].state.Running? || s.threads[t].state.Unlocked? || s.threads[t].state.HandingOver?
        || s.threads[t].state.Finishing?)
    && SameWork(s.threads[t].state.job, job)
  }

  ghost predicate RunSince(s: State, job: Job)
    requires job.WorkOf() in s.log.requests
  {
    job.WorkOf() in s.log.runs && s.log.requests[job.WorkOf()] < s.log.runs[job.WorkOf()]
  }

  /** A job for the work of `job` is on its way and its body has not begun. */
  ghost predicate WorkOwed(s: State, job: Job) {
    exists p, j :: Carries(s, p, j) && SameWork(j, job) && !(p.With? && InBodyOf(s, p.t, job))
  }

  /** The work of `job` is being run and its entry says that it is to be run again. */
  ghost predicate WorkAgain(s: State, job: Job) {
    && (exists k :: k in s.sh.pending && SameWork(s.sh.pending[k].job, job) && s.sh.pending[k].rerun)
    && (exists t :: InBodyOf(s, t, job))
  }

  lemma MetIsRun(s: State, job: Job)
    requires Inv(s) && Real(s) && Named(s.log) && job.WorkOf() in s.log.requests && job.kind != NoKind
    requires Met(s, job.KeyOf())
    ensures RunSince(s, job) || WorkOwed(s, job) || WorkAgain(s, job)
  {
    var k := job.KeyOf();
    assert Agree(s.log.requests, s.log.accepted, job) && Agree(s.log.runs, s.log.begun, job);
    if Owed(s, k) {
      OwedIsWorkOwed(s, job);
    } else if k in s.sh.pending && s.sh.pending[k].rerun && InBody(s, k) {
      EntryHasWork(s, k, job);
      var t :| BegunThread(s, t, k);
      KeysTellWork(job, s.threads[t].state.job);
      assert InBodyOf(s, t, job);
    }
  }

  lemma OwedIsWorkOwed(s: State, job: Job)
    requires job.kind != NoKind && Owed(s, job.KeyOf())
    ensures WorkOwed(s, job)
  {
    var k := job.KeyOf();
    var p :| Holds(s, p, k) && !(p.With? && BegunThread(s, p.t, k));
    var j := HoldsIsCarries(s, p, k);
    KeysTellWork(job, j);
    if p.With? && InBodyOf(s, p.t, job) {
      KeysTellWork(job, s.threads[p.t].state.job);
    }
  }

  /**
   At every state of a live runtime, for every piece of work whose request was accepted: a run of that very
   work began after its last request, or a job for it is on its way and has not begun, or it is being run
   and will be run again, or a caller dropped its entry after the request was accepted.
   */
  lemma RequestedWorkIsFresh(capacity: nat, workers: nat, steps: seq<Step>, s: State, job: Job)
    requires IsRun(Init(capacity, workers), steps, s) && !s.cancelled
    requires job.kind != NoKind && job.WorkOf() in s.log.requests
    ensures || RunSince(s, job) || WorkOwed(s, job) || WorkAgain(s, job)
            || (job.KeyOf() in s.log.lost && s.log.requests[job.WorkOf()] < s.log.lost[job.KeyOf()])
  {
    Reached(capacity, workers, steps, s);
    assert Agree(s.log.requests, s.log.accepted, job);
    Freshness(capacity, workers, steps, s, job.KeyOf());
    if Met(s, job.KeyOf()) {
      MetIsRun(s, job);
    }
  }

  /** The same without the exception, over runs whose drops of that work all found `rerun` unset. */
  lemma RequestedWorkIsRun(capacity: nat, workers: nat, steps: seq<Step>, s: State, job: Job)
    requires SparingRun(Init(capacity, workers), steps, s, job.KeyOf(), Request) && !s.cancelled
    requires job.kind != NoKind && job.WorkOf() in s.log.requests
    ensures RunSince(s, job) || WorkOwed(s, job) || WorkAgain(s, job)
  {
    SparingRunIsRun(Init(capacity, workers), steps, s, job.KeyOf(), Request);
    Reached(capacity, workers, steps, s);
    assert Agree(s.log.requests, s.log.accepted, job);
    RequestsAreMet(capacity, workers, steps, s, job.KeyOf());
    MetIsRun(s, job);
  }

  // ---- which slot a kind of work uses ----

  /** A worker runs a job of that account: a long one, or a quick one. */
  ghost predicate RunsFor(s: State, w: Tid, account: AccountId, long: bool) {
    s.AtWorker(w) && s.threads[w].state.Running? && s.threads[w].state.job.account == account
    && IsLong(s.threads[w].state.job) == long
  }

  /**
   In every reachable state backfills and reconciles are queued, wait and hold slots apart from all other
   jobs, and of each account at most one long and one quick job run, exactly while the slot is held.
   */
  lemma LongWorkStaysApart(capacity: nat, workers: nat, steps: seq<Step>, s: State, account: AccountId)
    requires IsRun(Init(capacity, workers), steps, s)
    ensures forall job :: job in s.sh.high ==> !IsLong(job)
    ensures forall job :: job in s.sh.low ==> IsLong(job)
    ensures account in s.sh.fgWaiting ==>
              forall job :: job in s.sh.fgWaiting[account] ==> !IsLong(job) && job.account == account
    ensures account in s.sh.bgWaiting ==>
              forall job :: job in s.sh.bgWaiting[account] ==> IsLong(job) && job.account == account
    ensures account in s.sh.fgHeld <==> exists w :: RunsFor(s, w, account, false)
    ensures account in s.sh.bgHeld <==> exists w :: RunsFor(s, w, account, true)
    ensures forall w, v, long :: RunsFor(s, w, account, long) && RunsFor(s, v, account, long) ==> w == v
  {
    Reached(capacity, workers, steps, s);
    assert s.sh.high == s.sh.Queue(Foreground) && s.sh.low == s.sh.Queue(Background);
    var fg, bg := Slot(Foreground, account), Slot(Background, account);
    assert account in s.sh.fgWaiting ==> s.sh.fgWaiting[account] == s.sh.Waiting(fg);
    assert account in s.sh.bgWaiting ==> s.sh.bgWaiting[account] == s.sh.Waiting(bg);
    forall w
      ensures Runs(s, w, fg) <==> RunsFor(s, w, account, false)
      ensures Runs(s, w, bg) <==> RunsFor(s, w, account, true)
    {
    }
    assert s.sh.Held(fg) <==> account in s.sh.fgHeld;
    assert s.sh.Held(bg) <==> account in s.sh.bgHeld;
  }

  // ---- failures and retries ----

  /** The failures in a row of the work of `job` along a run, after `before` earlier ones. */
  ghost function Streak(s: State, steps: seq<Step>, job: Job, before: nat): nat
    decreases |steps|
  {
    if steps == [] || !Enabled(s, steps[0]) then before
    else Streak(Next(s, steps[0]), steps[1..], job, StreakAfter(s, steps[0], job, before))
  }

  ghost function StreakAfter(s: State, step: Step, job: Job, before: nat): nat {
    if step.FinishJob? && AtFinishing(s, step.w) && SameWork(s.threads[step.w].state.job, job) then
      if s.threads[step.w].state.result == Ok then 0 else before + 1
    else before
  }

  lemma StepCountsFailures(s: State, step: Step, job: Job)
    requires Enabled(s, step) && job.kind != NoKind
    ensures Next(s, step).sh.Failures(job.KeyOf()) == StreakAfter(s, step, job, s.sh.Failures(job.KeyOf()))
  {
    if step.FinishJob? {
      KeysTellWork(job, s.threads[step.w].state.job);
    } else if Bookless(step) {
      BooklessStep(s, step);
    } else {
      FailuresStay(s, step);
    }
  }

  lemma FailuresStay(s: State, step: Step)
    requires Enabled(s, step) && !step.FinishJob? && !Bookless(step)
    ensures Next(s, step).sh.failures == s.sh.failures
  {
    if step.TimerFire? {
      EnqueueCountsNothing(s.Remove(step.t), step.t, s.threads[step.t].job, false);
    } else if step.Enqueue? {
      EnqueueCountsNothing(s, step.t, step.job, step.ownContext);
    }
  }

  lemma EnqueueCountsNothing(s: State, t: Tid, job: Job, ownContext: bool)
    ensures DoEnqueue(s, t, job, ownContext).sh.failures == s.sh.failures
  {
  }

  lemma {:induction false} StreakFrom(s: State, steps: seq<Step>, s': State, job: Job)
    requires IsRun(s, steps, s') && job.kind != NoKind
    ensures s'.sh.Failures(job.KeyOf()) == Streak(s, steps, job, s.sh.Failures(job.KeyOf()))
    decreases |steps|
  {
    if steps != [] {
      StepCountsFailures(s, steps[0], job);
      StreakFrom(Next(s, steps[0]), steps[1..], s', job);
    }
  }

  /** Over every run, the counter of a job is the number of its failures in a row: a success clears it. */
  lemma FailuresAreCounted(capacity: nat, workers: nat, steps: seq<Step>, s: State, job: Job)
    requires IsRun(Init(capacity, workers), steps, s) && job.kind != NoKind
    ensures s.sh.Failures(job.KeyOf()) == Streak(Init(capacity, workers), steps, job, 0)
  {
    StreakFrom(Init(capacity, workers), steps, s, job);
  }

  /** The new entries and threads after worker `w` booked a run whose entry is `k`. */
  ghost predicate Booked(s: State, s': State, w: Tid, t: Tid, k: Key)
    requires AtFinishing(s, w) && k in s.sh.pending
  {
    var job, result, idle := s.threads[w].state.job, s.threads[w].state.result, s.threads[w := Worker(Idle)];
    if s.sh.pending[k].rerun then
      && s'.sh.pending == s.sh.pending[k := JobState(s.sh.pending[k].job, false)]
      && s'.threads == s.threads[w := Worker(Rerunning(s.sh.pending[k].job, TryingSend))]
    else
      s'.sh.pending == s.sh.pending - {k} && s'.threads == if result == Failed then idle[t := RetryTimer(job)] else idle
  }

  lemma FinishBooks(s: State, w: Tid, t: Tid)
    requires AtFinishing(s, w) && t !in s.threads && !s.cancelled && s.threads[w].state.job.KeyOf() in s.sh.pending
    ensures Booked(s, DoFinish(s, w, t), w, t, s.threads[w].state.job.KeyOf())
  {
  }

  /**
   In every reachable state the worker that books a run finds the entry of its work: it goes on with the
   newest job asked for meanwhile, or lets the entry go, and then a retry of the job is armed exactly when
   the run failed otherwise than by not finding its target.
   */
  lemma BookingDecides(capacity: nat, workers: nat, steps: seq<Step>, s: State, w: Tid, t: Tid)
    requires IsRun(Init(capacity, workers), steps, s) && Enabled(s, FinishJob(w, t)) && !s.cancelled
    ensures exists k :: k in s.sh.pending && SameWork(s.sh.pending[k].job, s.threads[w].state.job)
                        && Booked(s, DoFinish(s, w, t), w, t, k)
  {
    Reached(capacity, workers, steps, s);
    var k := s.threads[w].state.job.KeyOf();
    assert Holds(s, With(w), k);
    EntryHasWork(s, k, s.threads[w].state.job);
    FinishBooks(s, w, t);
  }

  // ---- after the runtime was cancelled ----

  /** The thread gave up on the job it was placing, and its next step drops that job's entry. */
  ghost predicate GivesUpPlacing(s: State, t: Tid) {
    || AtCaller(s, t, MustDrop)
    || AtHand(s, t, MustDrop)
    || AtRerun(s, t, MustDrop)
  }

  /**
   Once the runtime is cancelled, whoever finds the queue full, or is about to hand over a parked job, gives the
   job up: no new goroutine is started for it.
   */
  lemma NothingPlacedAfterCancel(s: State, step: Step)
    requires Enabled(s, step) && s.cancelled
    requires step.CallerFull? || step.HandDecide? || step.HandFull? || step.RerunFull?
    ensures GivesUpPlacing(Next(s, step), if step.CallerFull? then step.t else step.w)
    ensures Next(s, step).sh == s.sh && Next(s, step).threads.Keys == s.threads.Keys
  {
  }

  /** A drop takes the entry of its job, and nothing else, out of the books. */
  lemma DropTakesOneEntry(s: State, step: Step, t: Tid)
    requires Enabled(s, step) && GivesUpPlacing(s, t) && (step == CallerDrop(t) || step == HandDrop(t) || step == RerunDrop(t))
    ensures var job := if step.CallerDrop? then s.threads[t].job else s.threads[t].state.next;
      Next(s, step).sh == s.sh.(pending := s.sh.pending - {job.KeyOf()})
  {
  }
}

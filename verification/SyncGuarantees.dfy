/**
 What the scheduler promises while the runtime is live: parked jobs are never stranded, an accepted
 request is never forgotten, and neither is a failing job. One step can break the last two: an enqueue
 caller with a context of its own, which gave up on a full queue, drops the entry it inserted. It loses an
 accepted request exactly when the entry has `rerun` set, and silences a failing key exactly when no retry
 of it is armed.
 */
module SyncGuarantees {
  import opened Options
  import opened SyncQueues
  import opened SyncScheduler
  import opened SyncOwnership

  // ---- definitions ----

  /** The jobs of the run that loses a request; the first also stands for a job nothing is said about. */
  const BLOCKER := Job(1, 1, 1, Folder)
  const VICTIM := Job(2, 2, 2, Folder)

  /** Workers, dispatchers and timers exist only once the runtime runs, and give up only after a cancel. */
  ghost predicate Steady(s: State) {
    && (forall t :: t in s.threads && !s.threads[t].Caller? ==> s.started)
    && (forall t :: t in s.threads && s.threads[t].Caller? && !s.threads[t].ownContext ==> s.started)
    && (forall t :: t in s.threads && GaveUp(s.threads[t]) ==> s.cancelled)
    && (s.cancelled ==> s.started)
  }

  /** Stages from which a token under the runtime's own context can only be dropped. */
  predicate GaveUp(t: Thread) {
    || (t.Caller? && !t.ownContext && t.stage == MustDrop)
    || (t.Worker? && t.state.HandingOver? && t.state.stage == MustDrop)
    || (t.Worker? && t.state.Rerunning? && t.state.stage == MustDrop)
  }

  /** The thread will ask for `slot`, or is about to pop the waiting list of `slot`. */
  predicate Bound(t: Thread, slot: Slot) {
    match t
    case Dispatcher(job) => job.SlotOf() == slot
    case Worker(Received(job)) => job.SlotOf() == slot
    case Worker(Unlocked(job, _)) => job.SlotOf() == slot
    case Worker(HandingOver(_, _, next, _)) => next.SlotOf() == slot
    case Worker(Rerunning(next, _)) => next.SlotOf() == slot
    case _ => false
  }

  ghost predicate BoundThread(s: State, t: Tid, slot: Slot) {
    t in s.threads && Bound(s.threads[t], slot)
  }

  ghost predicate Queued(s: State, i: nat, slot: Slot) {
    i < |s.sh.Queue(slot.tier)| && s.sh.Queue(slot.tier)[i].SlotOf() == slot
  }

  /** Someone holds `slot`, is about to pop its waiting list, or is on the way to take it. */
  ghost predicate Served(s: State, slot: Slot) {
    s.sh.Held(slot) || (exists i :: Queued(s, i, slot)) || (exists t :: BoundThread(s, t, slot))
  }

  /** If a job is parked behind `slot`, the slot is served. */
  ghost predicate Attended(s: State, slot: Slot) {
    s.sh.Waiting(slot) != [] ==> Served(s, slot)
  }

  ghost predicate NoneStranded(s: State) {
    !s.cancelled ==> forall slot :: Attended(s, slot)
  }

  /** The body of a run of `k` has begun in this thread and its outcome is not booked yet. */
  predicate Begun(t: Thread, k: Key) {
    && t.Worker?
    && (t.state.Running? || t.state.Unlocked? || t.state.HandingOver? || t.state.Finishing?)
    && t.state.job.KeyOf() == k
  }

  ghost predicate BegunThread(s: State, t: Tid, k: Key) {
    t in s.threads && Begun(s.threads[t], k)
  }

  ghost predicate InBody(s: State, k: Key) {
    exists t :: BegunThread(s, t, k)
  }

  /** Since a request of `k` was last accepted, no run of `k` has begun and no drop of `k` was booked. */
  predicate Unmet(s: State, k: Key) {
    && k in s.log.accepted
    && !(k in s.log.begun && s.log.accepted[k] < s.log.begun[k])
    && !(k in s.log.lost && s.log.accepted[k] < s.log.lost[k])
  }

  /** An unmet request has its entry, and whoever is in the body of the key was told to run it again. */
  ghost predicate Fresh(s: State, k: Key) {
    Unmet(s, k) ==> k in s.sh.pending && (s.sh.pending[k].rerun || !InBody(s, k))
  }

  /** What the history holds lies in the past. */
  ghost predicate Past(s: State) {
    && (forall k :: k in s.log.accepted ==> s.log.accepted[k] < s.log.clock)
    && (forall k :: k in s.log.begun ==> s.log.begun[k] < s.log.clock)
    && (forall k :: k in s.log.lost ==> s.log.lost[k] < s.log.clock)
  }

  /** While an enqueue has not placed its job, `rerun` says whether another request was accepted for the entry. */
  ghost predicate CallerFlags(s: State, t: Tid) {
    t in s.threads && s.threads[t].Caller? ==>
      var k := s.threads[t].job.KeyOf();
      k in s.sh.pending && (Unmet(s, k) <==> s.sh.pending[k].rerun)
  }

  ghost predicate AllFresh(s: State) {
    !s.cancelled ==> (forall k :: Fresh(s, k)) && (forall t :: CallerFlags(s, t))
  }

  ghost predicate TimerThread(s: State, t: Tid, k: Key) {
    t in s.threads && s.threads[t].RetryTimer? && s.threads[t].job.KeyOf() == k
  }

  ghost predicate Armed(s: State, k: Key) {
    exists t :: TimerThread(s, t, k)
  }

  /** The key has booked failures, and nothing in the scheduler will ever run it again. */
  ghost predicate Silent(s: State, k: Key) {
    s.sh.Failures(k) > 0 && k !in s.sh.pending && !Armed(s, k) && k !in s.log.missing
  }

  /** A key that was not found is forgotten until it is asked for again. */
  ghost predicate MissingGone(s: State) {
    forall k :: k in s.log.missing ==> k !in s.sh.pending
  }

  // ---- steadiness ----

  lemma StepKeepsSteady(s: State, step: Step)
    requires Steady(s) && Enabled(s, step)
    ensures Steady(Next(s, step))
  {
    var s' := Next(s, step);
    forall t | t in s'.threads
      ensures !s'.threads[t].Caller? || !s'.threads[t].ownContext ==> s'.started
      ensures GaveUp(s'.threads[t]) ==> s'.cancelled
    {
      ThreadStaysSteady(s, step, t);
    }
  }

  lemma ThreadStaysSteady(s: State, step: Step, t: Tid)
    requires Steady(s) && Enabled(s, step) && t in Next(s, step).threads
    ensures !Next(s, step).threads[t].Caller? || !Next(s, step).threads[t].ownContext ==> Next(s, step).started
    ensures GaveUp(Next(s, step).threads[t]) ==> Next(s, step).cancelled
  {
    if Bookless(step) {
      BooklessThreadStaysSteady(s, step, t);
    }
  }

  lemma BooklessThreadStaysSteady(s: State, step: Step, t: Tid)
    requires Steady(s) && Enabled(s, step) && Bookless(step) && t in Next(s, step).threads
    ensures !Next(s, step).threads[t].Caller? || !Next(s, step).threads[t].ownContext ==> Next(s, step).started
    ensures GaveUp(Next(s, step).threads[t]) ==> Next(s, step).cancelled
  {
    match step
    case Start(_) =>
    case CallerSend(_) =>
    case CallerFull(_, _) =>
    case DispatcherSend(_) =>
    case Receive(_, _) =>
    case AcquireSlot(_) =>
    case EndAndUnlock(_, _) =>
    case Pop(_) =>
    case HandDecide(_) =>
    case HandSend(_) =>
    case HandFull(_, _) =>
    case RerunSend(_) =>
    case RerunFull(_, _) =>
  }

  // ---- no parked job is stranded ----

  lemma SendServes(s: State, s': State, job: Job, t: Tid, slot: Slot)
    requires Attended(s, slot) && |s.sh.Queue(job.TierOf())| < s.sh.capacity
    requires s'.sh == TrySend(s.sh, job).0
    requires forall u :: u != t && BoundThread(s, u, slot) ==> BoundThread(s', u, slot)
    requires BoundThread(s, t, slot) ==> job.SlotOf() == slot || BoundThread(s', t, slot)
    ensures Attended(s', slot)
  {
    SendFiles(s.sh, job);
    forall i: nat | Queued(s, i, slot)
      ensures Served(s', slot)
    {
      assert Queued(s', i, slot);
    }
    if job.SlotOf() == slot {
      assert Queued(s', |s.sh.Queue(slot.tier)|, slot);
    }
  }

  /** Queues, held slots and the waiting list are as before and no bound thread of the slot was lost. */
  lemma ThreadsServe(s: State, s': State, slot: Slot)
    requires Attended(s, slot)
    requires s'.sh.high == s.sh.high && s'.sh.low == s.sh.low && s'.sh.Waiting(slot) == s.sh.Waiting(slot)
    requires s.sh.Held(slot) ==> s'.sh.Held(slot)
    requires forall t :: BoundThread(s, t, slot) ==> exists u :: BoundThread(s', u, slot)
    ensures Attended(s', slot)
  {
    forall i: nat | Queued(s, i, slot)
      ensures Served(s', slot)
    {
      assert Queued(s', i, slot);
    }
  }

  lemma ReceiveServes(s: State, w: Tid, tier: Tier, slot: Slot)
    requires CanReceive(s, w, tier) && Attended(s, slot)
    ensures Attended(DoReceive(s, w, tier), slot)
  {
    var s' := DoReceive(s, w, tier);
    assert s'.sh.Waiting(slot) == s.sh.Waiting(slot) && s'.sh.Held(slot) == s.sh.Held(slot);
    forall i: nat | Queued(s, i, slot)
      ensures Served(s', slot)
    {
      if slot.tier == tier {
        if i == 0 {
          assert BoundThread(s', w, slot);
        } else {
          assert Queued(s', i - 1, slot);
        }
      } else {
        assert Queued(s', i, slot);
      }
    }
    forall t | BoundThread(s, t, slot)
      ensures Served(s', slot)
    {
      assert BoundThread(s', t, slot);
    }
  }

  lemma AcquireServes(s: State, w: Tid, slot: Slot)
    requires AtReceived(s, w) && Attended(s, slot)
    ensures Attended(DoAcquire(s, w), slot)
  {
    var s' := DoAcquire(s, w);
    var at := s.threads[w].state.job.SlotOf();
    if s.sh.Held(at) {
      ParkFiles(s.sh, s.threads[w].state.job);
    }
    if slot != at {
      assert s'.sh.Waiting(slot) == s.sh.Waiting(slot);
      forall t | BoundThread(s, t, slot)
        ensures BoundThread(s', t, slot)
      {
      }
      ThreadsServe(s, s', slot);
    }
  }

  lemma UnlockServes(s: State, w: Tid, result: RunResult, slot: Slot)
    requires AtRunning(s, w) && Attended(s, slot)
    ensures Attended(DoEndAndUnlock(s, w, result), slot)
  {
    var s' := DoEndAndUnlock(s, w, result);
    if slot == s.threads[w].state.job.SlotOf() {
      assert BoundThread(s', w, slot);
    } else {
      assert forall t :: BoundThread(s, t, slot) ==> BoundThread(s', t, slot);
      ThreadsServe(s, s', slot);
    }
  }

  lemma PopServes(s: State, w: Tid, slot: Slot)
    requires AtUnlocked(s, w) && Filed(s) && Attended(s, slot)
    ensures Attended(DoPop(s, w), slot)
  {
    var s' := DoPop(s, w);
    var at := s.threads[w].state.job.SlotOf();
    if s.sh.Waiting(at) != [] {
      PopFiles(s.sh, at);
    }
    if slot == at {
      if s.sh.Waiting(at) != [] {
        assert s.sh.Waiting(at)[0].SlotOf() == at;
        assert BoundThread(s', w, slot);
      }
    } else {
      assert forall t :: BoundThread(s, t, slot) ==> BoundThread(s', t, slot);
      ThreadsServe(s, s', slot);
    }
  }

  lemma CallerSendServes(s: State, t: Tid, slot: Slot)
    requires AtCaller(s, t, TryingSend) && Attended(s, slot)
    ensures Attended(DoCallerSend(s, t), slot)
  {
    var s' := DoCallerSend(s, t);
    assert forall u :: BoundThread(s, u, slot) ==> BoundThread(s', u, slot);
    if TrySend(s.sh, s.threads[t].job).1 {
      SendServes(s, s', s.threads[t].job, t, slot);
    } else {
      ThreadsServe(s, s', slot);
    }
  }

  lemma CallerFullServes(s: State, t: Tid, expired: bool, slot: Slot)
    requires AtCaller(s, t, QueueFull) && Attended(s, slot)
    ensures Attended(DoCallerFull(s, t, expired), slot)
  {
    var s' := DoCallerFull(s, t, expired);
    assert forall u :: BoundThread(s, u, slot) ==> BoundThread(s', u, slot);
    ThreadsServe(s, s', slot);
  }

  lemma HandFullServes(s: State, w: Tid, t: Tid, slot: Slot)
    requires AtHand(s, w, QueueFull) && t !in s.threads && Attended(s, slot)
    ensures Attended(DoHandFull(s, w, t), slot)
  {
    var s' := DoHandFull(s, w, t);
    assert BoundThread(s, w, slot) ==> BoundThread(s', w, slot) || BoundThread(s', t, slot);
    assert forall u :: u != w && BoundThread(s, u, slot) ==> BoundThread(s', u, slot);
    ThreadsServe(s, s', slot);
  }

  lemma RerunFullServes(s: State, w: Tid, t: Tid, slot: Slot)
    requires AtRerun(s, w, QueueFull) && t !in s.threads && Attended(s, slot)
    ensures Attended(DoRerunFull(s, w, t), slot)
  {
    var s' := DoRerunFull(s, w, t);
    assert BoundThread(s, w, slot) ==> BoundThread(s', w, slot) || BoundThread(s', t, slot);
    assert forall u :: u != w && BoundThread(s, u, slot) ==> BoundThread(s', u, slot);
    ThreadsServe(s, s', slot);
  }

  lemma CallerDropServes(s: State, t: Tid, slot: Slot)
    requires AtCaller(s, t, MustDrop) && Attended(s, slot)
    ensures Attended(DoDrop(s, t), slot)
  {
    var s' := DoDrop(s, t);
    assert forall u :: BoundThread(s, u, slot) ==> BoundThread(s', u, slot);
    ThreadsServe(s, s', slot);
  }

  lemma EnqueueStepServes(s: State, t: Tid, job: Job, ownContext: bool, slot: Slot)
    requires Attended(s, slot) && (t in s.threads ==> s.threads[t].RetryTimer?)
    ensures Attended(DoEnqueue(s.Remove(t), t, job, ownContext), slot)
  {
    var s' := DoEnqueue(s.Remove(t), t, job, ownContext);
    assert forall u :: BoundThread(s, u, slot) ==> BoundThread(s', u, slot);
    EnqueueServes(s, s', slot);
  }

  lemma StartServes(s: State, ws: set<Tid>, slot: Slot)
    requires CanStart(s, ws) && Attended(s, slot)
    ensures Attended(DoStart(s, ws), slot)
  {
    var s' := DoStart(s, ws);
    assert forall u :: BoundThread(s, u, slot) ==> BoundThread(s', u, slot);
    ThreadsServe(s, s', slot);
  }

  lemma StepServes(s: State, step: Step, slot: Slot)
    requires Filed(s) && Attended(s, slot) && Enabled(s, step) && !GivesUp(step)
    ensures Attended(Next(s, step), slot)
  {
    match step
    case CallerSend(t) => CallerSendServes(s, t, slot);
    case DispatcherSend(t) => DispatcherSendServes(s, t, slot);
    case HandDecide(w) => HandDecideServes(s, w, slot);
    case HandSend(w) => HandSendServes(s, w, slot);
    case RerunSend(w) => RerunSendServes(s, w, slot);
    case CallerFull(t, expired) => CallerFullServes(s, t, expired, slot);
    case HandFull(w, t) => HandFullServes(s, w, t, slot);
    case RerunFull(w, t) => RerunFullServes(s, w, t, slot);
    case CallerDrop(t) => CallerDropServes(s, t, slot);
    case Enqueue(t, job, ownContext) =>
      assert s.Remove(t) == s;
      EnqueueStepServes(s, t, job, ownContext, slot);
    case TimerFire(t) => EnqueueStepServes(s, t, s.threads[t].job, false, slot);
    case Receive(w, tier) => ReceiveServes(s, w, tier, slot);
    case AcquireSlot(w) => AcquireServes(s, w, slot);
    case EndAndUnlock(w, result) => UnlockServes(s, w, result, slot);
    case Pop(w) => PopServes(s, w, slot);
    case FinishJob(w, t) => FinishServes(s, w, t, slot);
    case Start(ws) => StartServes(s, ws, slot);
  }

  /** Steps that only a cancelled runtime takes, and the cancellation itself. */
  predicate GivesUp(step: Step) {
    step.Cancel? || step.DispatcherAbort? || step.HandDrop? || step.RerunDrop? || step.TimerExit? || step.Exit?
  }

  lemma GivesUpWhenCancelled(s: State, step: Step)
    requires Steady(s) && Enabled(s, step) && GivesUp(step)
    ensures Next(s, step).cancelled
  {
  }

  lemma DispatcherSendServes(s: State, t: Tid, slot: Slot)
    requires AtDispatcher(s, t) && |s.sh.Queue(s.threads[t].job.TierOf())| < s.sh.capacity && Attended(s, slot)
    ensures Attended(DoDispatcherSend(s, t), slot)
  {
    var s' := DoDispatcherSend(s, t);
    assert forall u :: u != t && BoundThread(s, u, slot) ==> BoundThread(s', u, slot);
    SendServes(s, s', s.threads[t].job, t, slot);
  }

  lemma HandDecideServes(s: State, w: Tid, slot: Slot)
    requires AtHand(s, w, Deciding) && Attended(s, slot)
    ensures Attended(DoHandDecide(s, w), slot)
  {
    var s' := DoHandDecide(s, w);
    assert forall u :: BoundThread(s, u, slot) ==> BoundThread(s', u, slot);
    ThreadsServe(s, s', slot);
  }

  lemma HandSendServes(s: State, w: Tid, slot: Slot)
    requires AtHand(s, w, TryingSend) && Attended(s, slot)
    ensures Attended(DoHandSend(s, w), slot)
  {
    var s' := DoHandSend(s, w);
    var next := s.threads[w].state.next;
    assert forall u :: u != w && BoundThread(s, u, slot) ==> BoundThread(s', u, slot);
    if TrySend(s.sh, next).1 {
      SendServes(s, s', next, w, slot);
    } else {
      assert BoundThread(s, w, slot) ==> BoundThread(s', w, slot);
      ThreadsServe(s, s', slot);
    }
  }

  lemma RerunSendServes(s: State, w: Tid, slot: Slot)
    requires AtRerun(s, w, TryingSend) && Attended(s, slot)
    ensures Attended(DoRerunSend(s, w), slot)
  {
    var s' := DoRerunSend(s, w);
    var next := s.threads[w].state.next;
    assert forall u :: u != w && BoundThread(s, u, slot) ==> BoundThread(s', u, slot);
    if TrySend(s.sh, next).1 {
      SendServes(s, s', next, w, slot);
    } else {
      assert BoundThread(s, w, slot) ==> BoundThread(s', w, slot);
      ThreadsServe(s, s', slot);
    }
  }

  lemma EnqueueServes(s: State, s': State, slot: Slot)
    requires Attended(s, slot)
    requires s'.sh.(pending := s.sh.pending, failures := s.sh.failures) == s.sh
    requires forall u :: BoundThread(s, u, slot) ==> BoundThread(s', u, slot)
    ensures Attended(s', slot)
  {
    PendingOnly(s.sh, s'.sh);
    ThreadsServe(s, s', slot);
  }

  lemma FinishServes(s: State, w: Tid, t: Tid, slot: Slot)
    requires AtFinishing(s, w) && t !in s.threads && Attended(s, slot)
    ensures Attended(DoFinish(s, w, t), slot)
  {
    var s' := DoFinish(s, w, t);
    assert forall u :: u != w && u != t ==> (u in s'.threads <==> u in s.threads) && (u in s.threads ==> s'.threads[u] == s.threads[u]);
    EnqueueServes(s, s', slot);
  }

  /** Steps that leave the pending map, the failure counters and the timers alone. */
  predicate Bookless(step: Step) {
    !step.CallerDrop? && !step.Enqueue? && !step.TimerFire? && !step.FinishJob? && !GivesUp(step)
  }

  /** Nor do these accept a request, as placing a job does, or begin a run, as taking a slot does. */
  predicate Uneventful(step: Step) {
    Bookless(step) && !step.CallerSend? && !step.CallerFull? && !step.AcquireSlot?
  }

  lemma BooklessStep(s: State, step: Step)
    requires Enabled(s, step) && Bookless(step)
    ensures SameBooks(s, Next(s, step))
    ensures Uneventful(step) ==> Next(s, step).log.begun == s.log.begun && Next(s, step).log.accepted == s.log.accepted
  {
  }

  // ---- an accepted request is never forgotten ----

  /** Pending entries, requests and bodies of `k` are as before. */
  lemma FreshUnchanged(s: State, s': State, k: Key)
    requires Fresh(s, k)
    requires s'.log.accepted == s.log.accepted && s'.log.begun == s.log.begun && s'.log.lost == s.log.lost
    requires s'.sh.pending == s.sh.pending
    requires forall t :: BegunThread(s', t, k) ==> BegunThread(s, t, k)
    ensures Fresh(s', k)
  {
  }

  lemma FreshAfterDrop(s: State, s': State, dropped: Key, k: Key)
    requires Past(s) && Fresh(s, k)
    requires s'.log == s.log.Lose(dropped) && s'.sh.pending == s.sh.pending - {dropped}
    requires forall t :: BegunThread(s', t, k) ==> BegunThread(s, t, k)
    ensures Fresh(s', k)
  {
  }

  lemma NotInBody(s: State, k: Key)
    requires Inv(s) && k !in s.sh.pending
    ensures !InBody(s, k)
  {
    forall u
      ensures !BegunThread(s, u, k)
    {
      assert BegunThread(s, u, k) ==> Holds(s, With(u), k);
    }
  }

  lemma FreshAfterEnqueue(s: State, t: Tid, job: Job, ownContext: bool, k: Key)
    requires Inv(s) && Fresh(s, k) && (t in s.threads ==> s.threads[t].RetryTimer?)
    ensures Fresh(DoEnqueue(s.Remove(t), t, job, ownContext), k)
  {
    var s' := DoEnqueue(s.Remove(t), t, job, ownContext);
    assert t in s'.threads ==> s'.threads[t].Caller?;
    assert forall u :: u != t ==> (u in s'.threads <==> u in s.threads) && (u in s.threads ==> s'.threads[u] == s.threads[u]);
    assert forall u :: BegunThread(s', u, k) ==> BegunThread(s, u, k);
    if k == job.KeyOf() {
      assert k in s.sh.pending ==> s'.sh.pending[k].rerun;
      assert k !in s.sh.pending ==> !Unmet(s', k);
    } else {
      FreshElsewhere(s, s', k);
    }
  }

  /** Entry, requests and bodies of `k` are as before, whatever became of other keys. */
  lemma FreshElsewhere(s: State, s': State, k: Key)
    requires Fresh(s, k) && (Unmet(s', k) ==> Unmet(s, k))
    requires k in s.sh.pending ==> k in s'.sh.pending && s'.sh.pending[k] == s.sh.pending[k]
    requires forall t :: BegunThread(s', t, k) ==> BegunThread(s, t, k)
    ensures Fresh(s', k)
  {
  }

  /** A job on its way is not being run, so placing it makes its request one that will be met. */
  lemma CallerNotInBody(s: State, t: Tid, k: Key)
    requires Inv(s) && t in s.threads && s.threads[t].Caller? && k == s.threads[t].job.KeyOf()
    ensures k in s.sh.pending && !InBody(s, k)
  {
    assert Holds(s, With(t), k);
    forall u
      ensures !BegunThread(s, u, k)
    {
      assert BegunThread(s, u, k) ==> Holds(s, With(u), k);
    }
  }

  lemma PlacingAcceptsOwn(s: State, step: Step, k: Key)
    requires Enabled(s, step) && (step.CallerSend? || step.CallerFull?) && k != s.threads[step.t].job.KeyOf()
    ensures Unmet(Next(s, step), k) <==> Unmet(s, k)
  {
  }

  lemma FreshAfterPlacing(s: State, step: Step, k: Key)
    requires Inv(s) && Fresh(s, k) && Enabled(s, step) && (step.CallerSend? || step.CallerFull?)
    ensures Fresh(Next(s, step), k)
  {
    var s' := Next(s, step);
    BooklessStep(s, step);
    forall u | BegunThread(s', u, k)
      ensures BegunThread(s, u, k)
    {
      NoNewBody(s, step, u, k);
    }
    if k == s.threads[step.t].job.KeyOf() {
      CallerNotInBody(s, step.t, k);
    } else {
      PlacingAcceptsOwn(s, step, k);
      FreshElsewhere(s, s', k);
    }
  }

  lemma FreshAfterAcquire(s: State, w: Tid, k: Key)
    requires AtReceived(s, w) && Past(s) && Fresh(s, k)
    ensures Fresh(DoAcquire(s, w), k)
  {
    var s' := DoAcquire(s, w);
    var job := s.threads[w].state.job;
    if !s.sh.Held(job.SlotOf()) && k == job.KeyOf() {
      assert s'.log.begun == s.log.begun[k := s.log.clock];
    } else {
      assert forall u :: u != w ==> (BegunThread(s', u, k) <==> BegunThread(s, u, k));
      assert !BegunThread(s', w, k);
      FreshElsewhere(s, s', k);
    }
  }

  lemma FinishStartsNoBody(s: State, w: Tid, t: Tid, k: Key)
    requires AtFinishing(s, w) && t !in s.threads
    ensures BegunThread(s, w, s.threads[w].state.job.KeyOf())
    ensures forall u :: BegunThread(DoFinish(s, w, t), u, k) ==> BegunThread(s, u, k) && u != w
  {
    var s' := DoFinish(s, w, t);
    assert !Begun(s'.threads[w], k) && (t in s'.threads ==> !Begun(s'.threads[t], k));
    assert forall u :: u != w && u != t ==> (u in s'.threads <==> u in s.threads) && (u in s.threads ==> s'.threads[u] == s.threads[u]);
  }

  /** No other worker is in the body of a key whose run is being booked. */
  lemma OnlyFinisher(s: State, w: Tid, t: Tid, k: Key)
    requires Inv(s) && AtFinishing(s, w) && t !in s.threads
    ensures BegunThread(s, w, s.threads[w].state.job.KeyOf())
    ensures forall u :: BegunThread(DoFinish(s, w, t), u, k) ==> BegunThread(s, u, k)
    ensures k == s.threads[w].state.job.KeyOf() ==> !InBody(DoFinish(s, w, t), k)
  {
    FinishStartsNoBody(s, w, t, k);
    if k == s.threads[w].state.job.KeyOf() {
      assert Holds(s, With(w), k);
      forall u
        ensures !BegunThread(DoFinish(s, w, t), u, k)
      {
        assert BegunThread(s, u, k) ==> Holds(s, With(u), k);
      }
    }
  }

  lemma FreshAfterFinish(s: State, w: Tid, t: Tid, k: Key)
    requires Inv(s) && AtFinishing(s, w) && t !in s.threads && Fresh(s, k) && !s.cancelled
    ensures Fresh(DoFinish(s, w, t), k)
  {
    var s' := DoFinish(s, w, t);
    OnlyFinisher(s, w, t, k);
    assert s'.log.accepted == s.log.accepted && s'.log.begun == s.log.begun && s'.log.lost == s.log.lost;
  }

  /** Only taking a slot puts a thread into the body of a run. */
  lemma NoNewBody(s: State, step: Step, t: Tid, k: Key)
    requires Enabled(s, step) && Bookless(step) && !step.AcquireSlot?
    requires BegunThread(Next(s, step), t, k)
    ensures BegunThread(s, t, k)
  {
    match step
    case Start(_) =>
    case CallerSend(_) =>
    case CallerFull(_, _) =>
    case DispatcherSend(_) =>
    case Receive(_, _) =>
    case EndAndUnlock(_, _) =>
    case Pop(_) =>
    case HandDecide(_) =>
    case HandSend(_) =>
    case HandFull(_, _) =>
    case RerunSend(_) =>
    case RerunFull(_, _) =>
  }

  lemma StepKeepsFresh(s: State, step: Step, k: Key)
    requires Inv(s) && Past(s) && Fresh(s, k) && Enabled(s, step) && !GivesUp(step) && !s.cancelled
    ensures Fresh(Next(s, step), k)
  {
    if Uneventful(step) {
      BooklessStep(s, step);
      forall t | BegunThread(Next(s, step), t, k)
        ensures BegunThread(s, t, k)
      {
        NoNewBody(s, step, t, k);
      }
      FreshUnchanged(s, Next(s, step), k);
    } else {
      match step
      case CallerSend(_) | CallerFull(_, _) => FreshAfterPlacing(s, step, k);
      case CallerDrop(t) => FreshAfterDrop(s, DoDrop(s, t), s.threads[t].job.KeyOf(), k);
      case Enqueue(t, job, ownContext) =>
        assert s.Remove(t) == s;
        FreshAfterEnqueue(s, t, job, ownContext, k);
      case TimerFire(t) => FreshAfterEnqueue(s, t, s.threads[t].job, false, k);
      case AcquireSlot(w) => FreshAfterAcquire(s, w, k);
      case FinishJob(w, t) => FreshAfterFinish(s, w, t, k);
    }
  }

  // ---- what a waiting enqueue can read from its entry ----

  /** Only an enqueue makes a caller. */
  lemma CallerBefore(s: State, step: Step, t: Tid)
    requires Enabled(s, step) && !step.Enqueue? && !step.TimerFire? && !GivesUp(step)
    requires t in Next(s, step).threads && Next(s, step).threads[t].Caller?
    ensures t in s.threads && s.threads[t].Caller? && s.threads[t].job == Next(s, step).threads[t].job
  {
    match step
    case Start(_) =>
    case CallerSend(_) =>
    case CallerFull(_, _) =>
    case CallerDrop(_) =>
    case DispatcherSend(_) =>
    case Receive(_, _) =>
    case AcquireSlot(_) =>
    case EndAndUnlock(_, _) =>
    case Pop(_) =>
    case HandDecide(_) =>
    case HandSend(_) =>
    case HandFull(_, _) =>
    case FinishJob(_, _) =>
    case RerunSend(_) =>
    case RerunFull(_, _) =>
  }

  lemma FlagsAfterEnqueue(s: State, t: Tid, job: Job, ownContext: bool, u: Tid)
    requires Inv(s) && Past(s) && Fresh(s, job.KeyOf()) && CallerFlags(s, u) && (t in s.threads ==> s.threads[t].RetryTimer?)
    ensures CallerFlags(DoEnqueue(s.Remove(t), t, job, ownContext), u)
  {
    var s' := DoEnqueue(s.Remove(t), t, job, ownContext);
    assert u != t ==> (u in s'.threads <==> u in s.threads) && (u in s.threads ==> s'.threads[u] == s.threads[u]);
  }

  /** The entry and the history of the caller's key are as before. */
  lemma FlagsUntouched(s: State, s': State, u: Tid)
    requires u in s.threads && s.threads[u].Caller? && CallerFlags(s, u)
    requires u in s'.threads && s'.threads[u].Caller? ==> s'.threads[u].job == s.threads[u].job
    requires var k := s.threads[u].job.KeyOf();
      k in s'.sh.pending && s'.sh.pending[k] == s.sh.pending[k] && (Unmet(s', k) <==> Unmet(s, k))
    ensures CallerFlags(s', u)
  {
  }

  /** A key has one token, so what a caller carries nobody else does. */
  lemma CarriedByOne(s: State, u: Tid, t: Tid)
    requires Inv(s) && u in s.threads && t in s.threads && u != t
    requires Carried(s.threads[u]).Some? && Carried(s.threads[t]).Some?
    ensures Carried(s.threads[u]).value.KeyOf() in s.sh.pending
    ensures Carried(s.threads[u]).value.KeyOf() != Carried(s.threads[t]).value.KeyOf()
  {
    assert Holds(s, With(u), Carried(s.threads[u]).value.KeyOf());
    assert Holds(s, With(t), Carried(s.threads[t]).value.KeyOf());
  }

  lemma FlagsAfterPlacing(s: State, step: Step, u: Tid)
    requires Inv(s) && Enabled(s, step) && (step.CallerSend? || step.CallerFull?)
    requires u in s.threads && s.threads[u].Caller? && CallerFlags(s, u)
    requires u in Next(s, step).threads && Next(s, step).threads[u].Caller?
    ensures CallerFlags(Next(s, step), u)
  {
    BooklessStep(s, step);
    if step.t != u {
      CarriedByOne(s, u, step.t);
      PlacingAcceptsOwn(s, step, s.threads[u].job.KeyOf());
    }
    FlagsUntouched(s, Next(s, step), u);
  }

  lemma FlagsAfterDrop(s: State, t: Tid, u: Tid)
    requires AtCaller(s, t, MustDrop) && t != u
    requires u in s.threads && s.threads[u].Caller? && CallerFlags(s, u)
    requires s.threads[u].job.KeyOf() != s.threads[t].job.KeyOf()
    ensures CallerFlags(DoDrop(s, t), u)
  {
    FlagsUntouched(s, DoDrop(s, t), u);
  }

  lemma FlagsAfterAcquire(s: State, w: Tid, u: Tid)
    requires AtReceived(s, w)
    requires u in s.threads && s.threads[u].Caller? && CallerFlags(s, u)
    requires s.threads[u].job.KeyOf() != s.threads[w].state.job.KeyOf()
    ensures CallerFlags(DoAcquire(s, w), u)
  {
    FlagsUntouched(s, DoAcquire(s, w), u);
  }

  lemma FlagsAfterFinish(s: State, w: Tid, t: Tid, u: Tid)
    requires AtFinishing(s, w) && t !in s.threads
    requires u in s.threads && s.threads[u].Caller? && CallerFlags(s, u)
    requires s.threads[u].job.KeyOf() != s.threads[w].state.job.KeyOf()
    ensures CallerFlags(DoFinish(s, w, t), u)
  {
    var s' := DoFinish(s, w, t);
    assert s'.threads[u] == s.threads[u];
    FlagsUntouched(s, s', u);
  }

  lemma FlagsAfterUneventful(s: State, step: Step, u: Tid)
    requires Inv(s) && Enabled(s, step) && Uneventful(step)
    requires u in s.threads && s.threads[u].Caller? && CallerFlags(s, u)
    requires u in Next(s, step).threads && Next(s, step).threads[u].Caller? && s.threads[u].job == Next(s, step).threads[u].job
    ensures CallerFlags(Next(s, step), u)
  {
    BooklessStep(s, step);
    FlagsUntouched(s, Next(s, step), u);
  }

  /** The key of a waiting caller is not touched by other threads, except that they may join its entry. */
  lemma FlagsElsewhere(s: State, step: Step, u: Tid)
    requires Inv(s) && Enabled(s, step) && !GivesUp(step) && !step.Enqueue? && !step.TimerFire?
    requires u in s.threads && s.threads[u].Caller? && CallerFlags(s, u)
    requires u in Next(s, step).threads && Next(s, step).threads[u].Caller? && s.threads[u].job == Next(s, step).threads[u].job
    ensures CallerFlags(Next(s, step), u)
  {
    if Uneventful(step) {
      FlagsAfterUneventful(s, step, u);
    } else if step.CallerSend? || step.CallerFull? {
      FlagsAfterPlacing(s, step, u);
    } else if step.CallerDrop? {
      CarriedByOne(s, u, step.t);
      FlagsAfterDrop(s, step.t, u);
    } else {
      CarriedByOne(s, u, step.w);
      if step.AcquireSlot? {
        FlagsAfterAcquire(s, step.w, u);
      } else {
        FlagsAfterFinish(s, step.w, step.t, u);
      }
    }
  }

  lemma StepKeepsFlags(s: State, step: Step, u: Tid)
    requires Inv(s) && Past(s) && Enabled(s, step) && !GivesUp(step) && CallerFlags(s, u)
    requires step.Enqueue? ==> Fresh(s, step.job.KeyOf())
    requires step.TimerFire? ==> Fresh(s, s.threads[step.t].job.KeyOf())
    ensures CallerFlags(Next(s, step), u)
  {
    if step.Enqueue? {
      assert s.Remove(step.t) == s;
      FlagsAfterEnqueue(s, step.t, step.job, step.ownContext, u);
    } else if step.TimerFire? {
      FlagsAfterEnqueue(s, step.t, s.threads[step.t].job, false, u);
    } else if u in Next(s, step).threads && Next(s, step).threads[u].Caller? {
      CallerBefore(s, step, u);
      FlagsElsewhere(s, step, u);
    }
  }

  // ---- a failing job is never forgotten ----

  lemma HeardUnchanged(s: State, s': State, k: Key)
    requires !Silent(s, k)
    requires s'.log.missing == s.log.missing && s'.sh.pending == s.sh.pending && s'.sh.failures == s.sh.failures
    requires forall t :: TimerThread(s, t, k) ==> TimerThread(s', t, k)
    ensures !Silent(s', k)
  {
  }

  /** An enqueue touches no timer but the one that fires, if any. */
  lemma EnqueueTimers(s: State, t: Tid, job: Job, ownContext: bool, k: Key, u: Tid)
    requires t in s.threads ==> s.threads[t].RetryTimer? && s.threads[t].job == job
    requires TimerThread(s, u, k) && k != job.KeyOf()
    ensures TimerThread(DoEnqueue(s.Remove(t), t, job, ownContext), u, k)
  {
  }

  lemma HeardAfterEnqueue(s: State, t: Tid, job: Job, ownContext: bool, k: Key)
    requires !Silent(s, k) && (t in s.threads ==> s.threads[t].RetryTimer? && s.threads[t].job == job)
    ensures !Silent(DoEnqueue(s.Remove(t), t, job, ownContext), k)
  {
    if k != job.KeyOf() && Armed(s, k) {
      var u :| TimerThread(s, u, k);
      EnqueueTimers(s, t, job, ownContext, k, u);
    }
  }

  /** A drop leaves the timers, the failures and what was not found as they are. */
  lemma DropSilences(s: State, t: Tid, k: Key)
    requires Inv(s) && MissingGone(s) && AtCaller(s, t, MustDrop)
    ensures !Silent(s, k) && Silent(DoDrop(s, t), k) <==>
            k == s.threads[t].job.KeyOf() && s.sh.Failures(k) > 0 && !Armed(s, k)
  {
    var s' := DoDrop(s, t);
    assert forall u :: TimerThread(s, u, k) <==> TimerThread(s', u, k);
    assert Holds(s, With(t), s.threads[t].job.KeyOf());
  }

  lemma HeardAfterFinish(s: State, w: Tid, t: Tid, k: Key)
    requires Inv(s) && AtFinishing(s, w) && t !in s.threads && !Silent(s, k) && !s.cancelled
    ensures !Silent(DoFinish(s, w, t), k)
  {
    var s' := DoFinish(s, w, t);
    var st := s.threads[w].state;
    var own := st.job.KeyOf();
    assert Holds(s, With(w), own);
    assert forall u :: TimerThread(s, u, k) ==> u != w && u != t;
    assert forall u :: TimerThread(s, u, k) ==> TimerThread(s', u, k);
    if k == own && Finish(s.sh, st.job, st.result, true).1 == ArmRetry {
      assert TimerThread(s', t, k);
    }
  }

  lemma BooklessTimers(s: State, step: Step, t: Tid)
    requires Enabled(s, step) && Bookless(step) && AtTimer(s, t)
    ensures AtTimer(Next(s, step), t) && Next(s, step).threads[t] == s.threads[t]
  {
  }

  /** Nothing but the drop of a caller that gave up silences a key of a live runtime. */
  lemma StepKeepsHeard(s: State, step: Step, k: Key)
    requires Inv(s) && !Silent(s, k) && Enabled(s, step) && !GivesUp(step) && !step.CallerDrop? && !s.cancelled
    ensures !Silent(Next(s, step), k)
  {
    if Bookless(step) {
      BooklessStep(s, step);
      forall t | TimerThread(s, t, k)
        ensures TimerThread(Next(s, step), t, k)
      {
        BooklessTimers(s, step, t);
      }
      HeardUnchanged(s, Next(s, step), k);
    } else {
      match step
      case Enqueue(t, job, ownContext) =>
        assert s.Remove(t) == s;
        HeardAfterEnqueue(s, t, job, ownContext, k);
      case TimerFire(t) => HeardAfterEnqueue(s, t, s.threads[t].job, false, k);
      case FinishJob(w, t) => HeardAfterFinish(s, w, t, k);
    }
  }

  lemma StepKeepsMissing(s: State, step: Step)
    requires Inv(s) && MissingGone(s) && Enabled(s, step)
    ensures MissingGone(Next(s, step))
  {
    if step.FinishJob? {
      FinishMissing(s, step.w, step.t);
    } else if Bookless(step) {
      BooklessStep(s, step);
    } else {
      NothingMissed(s, step);
    }
  }

  /** Outside the booking of a run no key becomes missing, and an entry is inserted for one that is not. */
  lemma NothingMissed(s: State, step: Step)
    requires Enabled(s, step) && !step.FinishJob? && !Bookless(step)
    ensures Next(s, step).log.missing <= s.log.missing
    ensures forall k :: k in Next(s, step).sh.pending ==> k in s.sh.pending || k !in Next(s, step).log.missing
  {
    match step
    case Enqueue(_, _, _) =>
    case TimerFire(_) =>
    case CallerDrop(_) =>
    case Cancel =>
    case DispatcherAbort(_) =>
    case TimerExit(_) =>
    case HandDrop(_) =>
    case RerunDrop(_) =>
    case Exit(_) =>
  }

  lemma FinishMissing(s: State, w: Tid, t: Tid)
    requires Inv(s) && MissingGone(s) && AtFinishing(s, w) && t !in s.threads
    ensures MissingGone(DoFinish(s, w, t))
  {
    assert Holds(s, With(w), s.threads[w].state.job.KeyOf());
  }

  // ---- over whole runs ----

  ghost predicate Good(s: State) {
    Inv(s) && Steady(s) && NoneStranded(s) && Past(s) && AllFresh(s) && MissingGone(s)
  }

  /** A step books at most one event about its job. */
  predicate Books(log: History, job: Job, log': History) {
    || log' == log.Tick() || log' == log.Insert(job.KeyOf()) || log' == log.Accept(job) || log' == log.Begin(job)
    || log' == log.Miss(job.KeyOf()) || log' == log.Lose(job.KeyOf())
  }

  lemma UneventfulBooksNothing(s: State, step: Step)
    requires Enabled(s, step) && Uneventful(step)
    ensures Next(s, step).log == s.log.Tick()
  {
  }

  lemma GivingUpBooks(s: State, step: Step) returns (job: Job)
    requires Enabled(s, step) && GivesUp(step)
    ensures Books(s.log, job, Next(s, step).log)
  {
    match step
    case DispatcherAbort(t) => job := s.threads[t].job;
    case HandDrop(w) => job := s.threads[w].state.next;
    case RerunDrop(w) => job := s.threads[w].state.next;
    case _ => job := BLOCKER;
  }

  /** Only drops book a loss. */
  lemma StepBooks(s: State, step: Step) returns (job: Job)
    requires Enabled(s, step)
    ensures Books(s.log, job, Next(s, step).log)
    ensures !step.CallerDrop? && !GivesUp(step) ==> Next(s, step).log.lost == s.log.lost
  {
    if Uneventful(step) {
      UneventfulBooksNothing(s, step);
      job := BLOCKER;
    } else if GivesUp(step) {
      job := GivingUpBooks(s, step);
    } else if step.Enqueue? {
      job := step.job;
    } else if step.AcquireSlot? || step.FinishJob? {
      job := s.threads[step.w].state.job;
    } else {
      job := s.threads[step.t].job;
    }
  }

  lemma StepKeepsPast(s: State, step: Step)
    requires Past(s) && Enabled(s, step)
    ensures Past(Next(s, step))
  {
    var job := StepBooks(s, step);
    BooksKeepPast(s, Next(s, step), job);
  }

  lemma BooksKeepPast(s: State, s': State, job: Job)
    requires Past(s) && Books(s.log, job, s'.log)
    ensures Past(s')
  {
  }

  lemma StepKeepsGood(s: State, step: Step)
    requires Good(s) && Enabled(s, step)
    ensures Good(Next(s, step))
  {
    var s' := Next(s, step);
    StepKeepsInv(s, step);
    StepKeepsSteady(s, step);
    StepKeepsPast(s, step);
    StepKeepsMissing(s, step);
    if GivesUp(step) {
      GivesUpWhenCancelled(s, step);
    } else if !s.cancelled {
      forall slot
        ensures Attended(s', slot)
      {
        StepServes(s, step, slot);
      }
      forall k
        ensures Fresh(s', k)
      {
        StepKeepsFresh(s, step, k);
      }
      forall t
        ensures CallerFlags(s', t)
      {
        StepKeepsFlags(s, step, t);
      }
    } else {
      StaysCancelled(s, step);
    }
  }

  lemma StaysCancelled(s: State, step: Step)
    requires Enabled(s, step) && s.cancelled
    ensures Next(s, step).cancelled
  {
  }

  lemma {:induction false} RunKeepsGood(s: State, steps: seq<Step>, s': State)
    requires Good(s) && IsRun(s, steps, s')
    ensures Good(s')
    decreases |steps|
  {
    if steps != [] {
      StepKeepsGood(s, steps[0]);
      RunKeepsGood(Next(s, steps[0]), steps[1..], s');
    }
  }

  lemma Reachable(capacity: nat, workers: nat, steps: seq<Step>, s: State)
    requires IsRun(Init(capacity, workers), steps, s)
    ensures Good(s)
  {
    InitInv(capacity, workers);
    RunKeepsGood(Init(capacity, workers), steps, s);
  }

  /** A token of `k` whose body has not begun. */
  ghost predicate Owed(s: State, k: Key) {
    exists p :: Holds(s, p, k) && !(p.With? && BegunThread(s, p.t, k))
  }

  /**
   At every state of a live runtime, whatever the interleaving: a job parked behind a slot has the
   slot held, its last holder about to pop the list, or a token of the slot on its way to take it.
   */
  lemma NoStrandedParkedJob(capacity: nat, workers: nat, steps: seq<Step>, s: State, slot: Slot)
    requires IsRun(Init(capacity, workers), steps, s) && !s.cancelled && s.sh.Waiting(slot) != []
    ensures Served(s, slot)
  {
    Reachable(capacity, workers, steps, s);
    assert Attended(s, slot);
  }

  /** Nothing queued, nobody enqueuing or dispatching, and every worker idle. */
  ghost predicate Quiescent(s: State) {
    && s.sh.high == [] && s.sh.low == []
    && forall t :: t in s.threads ==> s.threads[t] == Worker(Idle) || s.threads[t].RetryTimer?
  }

  /** When a live runtime comes to rest, nothing is parked, pending or locked. */
  lemma RestLeavesNothing(capacity: nat, workers: nat, steps: seq<Step>, s: State)
    requires IsRun(Init(capacity, workers), steps, s) && !s.cancelled && Quiescent(s)
    ensures s.sh.pending == map[]
    ensures forall slot :: s.sh.Waiting(slot) == [] && !s.sh.Held(slot)
  {
    Reachable(capacity, workers, steps, s);
    forall slot
      ensures s.sh.Waiting(slot) == [] && !s.sh.Held(slot)
    {
      assert forall w :: !Runs(s, w, slot);
      assert Attended(s, slot);
      assert forall t :: !BoundThread(s, t, slot);
      assert forall i :: !Queued(s, i, slot);
    }
    forall p, k
      ensures !Holds(s, p, k)
    {
    }
    assert forall k :: k !in s.sh.pending;
  }

  /** A run of `k` began after its last request was accepted, or is owed, or will follow the one under way. */
  ghost predicate Met(s: State, k: Key) {
    || (k in s.log.accepted && k in s.log.begun && s.log.accepted[k] < s.log.begun[k])
    || Owed(s, k)
    || (k in s.sh.pending && s.sh.pending[k].rerun && InBody(s, k))
  }

  lemma PendingIsMet(s: State, k: Key)
    requires Inv(s) && k in s.sh.pending && (s.sh.pending[k].rerun || !InBody(s, k))
    ensures Met(s, k)
  {
    if !InBody(s, k) {
      var p :| Holds(s, p, k);
      assert p.With? ==> !BegunThread(s, p.t, k);
    }
  }

  /**
   At every state of a live runtime, the last accepted request of a key was followed by the start of a
   run of that key, or is still owed a run by a token that has not started, or will be rerun by the
   worker that is running it, or a caller dropped the entry after the request was accepted.
   */
  lemma Freshness(capacity: nat, workers: nat, steps: seq<Step>, s: State, k: Key)
    requires IsRun(Init(capacity, workers), steps, s) && !s.cancelled && k in s.log.accepted
    ensures Met(s, k) || (k in s.log.lost && s.log.accepted[k] < s.log.lost[k])
  {
    Reachable(capacity, workers, steps, s);
    assert Fresh(s, k);
    if Unmet(s, k) {
      PendingIsMet(s, k);
    }
  }

  // ---- what the drop of a caller that gave up loses ----

  /** An enqueue caller that gave up on a full queue drops the entry of `k`. */
  predicate Drops(s: State, step: Step, k: Key) {
    step.CallerDrop? && step.t in s.threads && s.threads[step.t].Caller? && s.threads[step.t].job.KeyOf() == k
  }

  /** A request of `k` was accepted, no run of `k` began since, and no job of `k` is left to begin one. */
  predicate Forgotten(s: State, k: Key) {
    k in s.log.accepted && !(k in s.log.begun && s.log.accepted[k] < s.log.begun[k]) && k !in s.sh.pending
  }

  /** The step makes the scheduler forget a request that was accepted and not met yet. */
  predicate LosesRequest(s: State, step: Step, k: Key)
    requires Enabled(s, step)
  {
    Unmet(s, k) && Forgotten(Next(s, step), k)
  }

  lemma DropLoses(s: State, t: Tid, k: Key)
    requires AtCaller(s, t, MustDrop) && CallerFlags(s, t) && Fresh(s, k)
    ensures Unmet(s, k) && Forgotten(DoDrop(s, t), k) <==> k == s.threads[t].job.KeyOf() && s.sh.pending[k].rerun
  {
  }

  /** Where nothing is booked as lost, an unmet request stays unmet, and so keeps its entry. */
  lemma NothingLost(s: State, s': State, of: Job, k: Key)
    requires Past(s) && Books(s.log, of, s'.log) && s'.log.lost == s.log.lost && Fresh(s', k)
    ensures !(Unmet(s, k) && Forgotten(s', k))
  {
  }

  lemma GoodStepLoses(s: State, step: Step, k: Key)
    requires Good(s) && Enabled(s, step) && !Next(s, step).cancelled
    ensures LosesRequest(s, step, k) <==> Drops(s, step, k) && k in s.sh.pending && s.sh.pending[k].rerun
    ensures step.CallerDrop? ==> s.threads[step.t].ownContext
  {
    if s.cancelled {
      StaysCancelled(s, step);
    }
    if GivesUp(step) {
      GivesUpWhenCancelled(s, step);
    } else if step.CallerDrop? {
      DropLoses(s, step.t, k);
    } else {
      StepKeepsFresh(s, step, k);
      var of := StepBooks(s, step);
      NothingLost(s, Next(s, step), of, k);
    }
  }

  /**
   In every state that a live runtime reaches, a step loses an accepted request exactly when it is the
   drop of a caller that gave up and the entry it drops has `rerun` set: nothing else loses a request, and
   such a drop always does.
   */
  lemma DropLosesExactly(capacity: nat, workers: nat, steps: seq<Step>, s: State, step: Step, k: Key)
    requires IsRun(Init(capacity, workers), steps, s) && Enabled(s, step) && !Next(s, step).cancelled
    ensures LosesRequest(s, step, k) <==> Drops(s, step, k) && k in s.sh.pending && s.sh.pending[k].rerun
    ensures Drops(s, step, k) ==> s.threads[step.t].ownContext && !Owed(Next(s, step), k) && !InBody(Next(s, step), k)
  {
    Reachable(capacity, workers, steps, s);
    GoodStepLoses(s, step, k);
    StepKeepsGood(s, step);
    if Drops(s, step, k) {
      NotInBody(Next(s, step), k);
    }
  }

  /** The step makes a key with booked failures silent. */
  ghost predicate Silences(s: State, step: Step, k: Key)
    requires Enabled(s, step)
  {
    !Silent(s, k) && Silent(Next(s, step), k)
  }

  /**
   In every state that a live runtime reaches, a step silences a failing key exactly when it is the drop
   of a caller that gave up, the key has booked failures, and no retry of it is armed.
   */
  lemma DropSilencesExactly(capacity: nat, workers: nat, steps: seq<Step>, s: State, step: Step, k: Key)
    requires IsRun(Init(capacity, workers), steps, s) && Enabled(s, step) && !Next(s, step).cancelled
    ensures Silences(s, step, k) <==> Drops(s, step, k) && s.sh.Failures(k) > 0 && !Armed(s, k)
  {
    Reachable(capacity, workers, steps, s);
    GoodStepSilences(s, step, k);
  }

  lemma GoodStepSilences(s: State, step: Step, k: Key)
    requires Good(s) && Enabled(s, step) && !Next(s, step).cancelled
    ensures Silences(s, step, k) <==> Drops(s, step, k) && s.sh.Failures(k) > 0 && !Armed(s, k)
  {
    if GivesUp(step) {
      GivesUpWhenCancelled(s, step);
    } else if step.CallerDrop? {
      DropSilences(s, step.t, k);
    } else {
      if s.cancelled {
        StaysCancelled(s, step);
      }
      if !Silent(s, k) {
        StepKeepsHeard(s, step, k);
      }
    }
  }

  /** What a key may be promised as long as the drops of its entry leave it alone. */
  datatype Promise = Request | Retry

  /** The step is no drop of `k`, or it finds nothing of that kind to lose. */
  ghost predicate Spares(s: State, step: Step, k: Key, what: Promise) {
    Drops(s, step, k) ==>
      match what
      case Request => k in s.sh.pending && !s.sh.pending[k].rerun
      case Retry => s.sh.Failures(k) == 0 || Armed(s, k)
  }

  ghost predicate SparingRun(s: State, steps: seq<Step>, s': State, k: Key, what: Promise)
    decreases |steps|
  {
    if steps == [] then s == s'
    else Enabled(s, steps[0]) && Spares(s, steps[0], k, what) && SparingRun(Next(s, steps[0]), steps[1..], s', k, what)
  }

  lemma {:induction false} SparingRunIsRun(s: State, steps: seq<Step>, s': State, k: Key, what: Promise)
    requires SparingRun(s, steps, s', k, what)
    ensures IsRun(s, steps, s')
    decreases |steps|
  {
    if steps != [] {
      SparingRunIsRun(Next(s, steps[0]), steps[1..], s', k, what);
    }
  }

  lemma {:induction false} CancelLasts(s: State, steps: seq<Step>, s': State)
    requires IsRun(s, steps, s') && !s'.cancelled
    ensures !s.cancelled
    decreases |steps|
  {
    if steps != [] {
      CancelLasts(Next(s, steps[0]), steps[1..], s');
      if s.cancelled {
        StaysCancelled(s, steps[0]);
      }
    }
  }

  /** The drops of `k` so far came when no accepted request was waiting for a run. */
  predicate LossHarmless(s: State, k: Key) {
    k in s.log.accepted && k in s.log.lost && s.log.accepted[k] < s.log.lost[k] ==>
      k in s.log.begun && s.log.accepted[k] < s.log.begun[k]
  }

  lemma SparingDropIsHarmless(s: State, t: Tid, k: Key)
    requires AtCaller(s, t, MustDrop) && CallerFlags(s, t) && LossHarmless(s, k) && Spares(s, CallerDrop(t), k, Request)
    ensures LossHarmless(DoDrop(s, t), k)
  {
  }

  lemma BooksHarmless(s: State, s': State, of: Job, k: Key)
    requires Past(s) && Books(s.log, of, s'.log) && s'.log.lost == s.log.lost && LossHarmless(s, k)
    ensures LossHarmless(s', k)
  {
  }

  lemma SparingStepIsHarmless(s: State, step: Step, k: Key)
    requires Good(s) && Enabled(s, step) && !Next(s, step).cancelled && LossHarmless(s, k) && Spares(s, step, k, Request)
    ensures LossHarmless(Next(s, step), k)
  {
    if s.cancelled {
      StaysCancelled(s, step);
    }
    if GivesUp(step) {
      GivesUpWhenCancelled(s, step);
    } else if step.CallerDrop? {
      SparingDropIsHarmless(s, step.t, k);
    } else {
      var of := StepBooks(s, step);
      BooksHarmless(s, Next(s, step), of, k);
    }
  }

  lemma {:induction false} SparingRunIsHarmless(s: State, steps: seq<Step>, s': State, k: Key)
    requires Good(s) && SparingRun(s, steps, s', k, Request) && !s'.cancelled && LossHarmless(s, k)
    ensures Good(s') && LossHarmless(s', k)
    decreases |steps|
  {
    if steps != [] {
      var n := Next(s, steps[0]);
      SparingRunIsRun(n, steps[1..], s', k, Request);
      CancelLasts(n, steps[1..], s');
      StepKeepsGood(s, steps[0]);
      SparingStepIsHarmless(s, steps[0], k);
      SparingRunIsHarmless(n, steps[1..], s', k);
    }
  }

  /**
   At every state of a live runtime whose drops of the key all found `rerun` unset, whatever else was
   dropped: the last accepted request of the key is met, or a run or rerun of it is on its way.
   */
  lemma RequestsAreMet(capacity: nat, workers: nat, steps: seq<Step>, s: State, k: Key)
    requires SparingRun(Init(capacity, workers), steps, s, k, Request) && !s.cancelled && k in s.log.accepted
    ensures Met(s, k)
  {
    InitInv(capacity, workers);
    SparingRunIsHarmless(Init(capacity, workers), steps, s, k);
    SparingRunIsRun(Init(capacity, workers), steps, s, k, Request);
    Freshness(capacity, workers, steps, s, k);
  }

  lemma {:induction false} SparingRunIsHeard(s: State, steps: seq<Step>, s': State, k: Key)
    requires Good(s) && SparingRun(s, steps, s', k, Retry) && !s'.cancelled && !Silent(s, k)
    ensures !Silent(s', k)
    decreases |steps|
  {
    if steps != [] {
      var n := Next(s, steps[0]);
      SparingRunIsRun(n, steps[1..], s', k, Retry);
      CancelLasts(n, steps[1..], s');
      StepKeepsGood(s, steps[0]);
      GoodStepSilences(s, steps[0], k);
      SparingRunIsHeard(n, steps[1..], s', k);
    }
  }

  /**
   At every state of a live runtime whose drops of the key all found it without failures or with its
   retry armed: if the key has booked failures it is pending or its retry is armed, unless it was not
   found.
   */
  lemma FailingJobRemembered(capacity: nat, workers: nat, steps: seq<Step>, s: State, k: Key)
    requires SparingRun(Init(capacity, workers), steps, s, k, Retry) && !s.cancelled && s.sh.Failures(k) > 0
    ensures k in s.sh.pending || Armed(s, k) || k in s.log.missing
  {
    InitInv(capacity, workers);
    SparingRunIsHeard(Init(capacity, workers), steps, s, k);
  }

  // ---- a run in which one drop loses both ----

  lemma {:induction false} RunThen(s: State, steps: seq<Step>, u: State, step: Step)
    requires IsRun(s, steps, u) && Enabled(u, step)
    ensures IsRun(s, steps + [step], Next(u, step))
    decreases |steps|
  {
    if steps == [] {
      assert IsRun(Next(u, step), [], Next(u, step));
      assert ([step])[1..] == [];
    } else {
      RunThen(Next(s, steps[0]), steps[1..], u, step);
      assert (steps + [step])[1..] == steps[1..] + [step];
    }
  }

  /** A caller's job goes straight into the queue. */
  lemma RaceQueues(s0: State, before: seq<Step>, s: State, t: Tid, job: Job) returns (steps: seq<Step>, s': State)
    requires IsRun(s0, before, s) && t !in s.threads && job.Valid() && job.kind == Folder
    requires job.KeyOf() !in s.sh.pending && |s.sh.high| < s.sh.capacity
    ensures IsRun(s0, steps, s')
    ensures var k := job.KeyOf();
      s' == s.(sh := s.sh.(pending := s.sh.pending[k := JobState(job, false)], high := s.sh.high + [job]),
               log := s.log.Insert(k).Accept(job))
  {
    var s1 := Next(s, Enqueue(t, job, true));
    RunThen(s0, before, s, Enqueue(t, job, true));
    RunThen(s0, before + [Enqueue(t, job, true)], s1, CallerSend(t));
    steps := before + [Enqueue(t, job, true)] + [CallerSend(t)];
    s' := Next(s1, CallerSend(t));
    assert s1.threads - {t} == s.threads;
  }

  /** An idle worker takes the only job of the queue and its free slot. */
  lemma RaceRuns(s0: State, before: seq<Step>, s: State, w: Tid, job: Job) returns (steps: seq<Step>, s': State)
    requires IsRun(s0, before, s) && s.At(w, Worker(Idle)) && job.kind == Folder
    requires s.sh.high == [job] && !s.sh.Held(job.SlotOf())
    ensures IsRun(s0, steps, s')
    ensures s' == s.(sh := s.sh.(high := [], fgHeld := s.sh.fgHeld + {job.account}),
                     threads := s.threads[w := Worker(Running(job))], log := s.log.Tick().Begin(job))
  {
    var s1 := Next(s, Receive(w, Foreground));
    assert [job][1..] == [];
    RunThen(s0, before, s, Receive(w, Foreground));
    RunThen(s0, before + [Receive(w, Foreground)], s1, AcquireSlot(w));
    steps := before + [Receive(w, Foreground)] + [AcquireSlot(w)];
    s' := Next(s1, AcquireSlot(w));
    assert s1.threads[w := Worker(Running(job))] == s.threads[w := Worker(Running(job))];
  }

  /** The run fails and gives its slot back. */
  lemma RaceEnds(s0: State, before: seq<Step>, s: State, w: Tid, job: Job) returns (steps: seq<Step>, s': State)
    requires IsRun(s0, before, s) && s.At(w, Worker(Running(job))) && job.kind == Folder
    ensures IsRun(s0, steps, s')
    ensures s' == s.(sh := s.sh.(fgHeld := s.sh.fgHeld - {job.account}),
                     threads := s.threads[w := Worker(Unlocked(job, Failed))], log := s.log.Tick())
  {
    RunThen(s0, before, s, EndAndUnlock(w, Failed));
    steps, s' := before + [EndAndUnlock(w, Failed)], Next(s, EndAndUnlock(w, Failed));
  }

  /** Nobody waits for its slot. */
  lemma RacePops(s0: State, before: seq<Step>, s: State, w: Tid, job: Job) returns (steps: seq<Step>, s': State)
    requires IsRun(s0, before, s) && s.At(w, Worker(Unlocked(job, Failed))) && s.sh.Waiting(job.SlotOf()) == []
    ensures IsRun(s0, steps, s')
    ensures s' == s.(threads := s.threads[w := Worker(Finishing(job, Failed))], log := s.log.Tick())
  {
    RunThen(s0, before, s, Pop(w));
    steps, s' := before + [Pop(w)], Next(s, Pop(w));
  }

  /** The failure is counted, the entry goes, and a retry is armed. */
  lemma RaceFails(s0: State, before: seq<Step>, s: State, w: Tid, t: Tid, job: Job) returns (steps: seq<Step>, s': State)
    requires IsRun(s0, before, s) && s.At(w, Worker(Finishing(job, Failed))) && t !in s.threads && s.Live()
    requires job.KeyOf() in s.sh.pending && !s.sh.pending[job.KeyOf()].rerun
    ensures IsRun(s0, steps, s')
    ensures var k := job.KeyOf();
      s' == s.(sh := s.sh.(pending := s.sh.pending - {k}, failures := s.sh.failures[k := s.sh.Failures(k) + 1]),
               threads := s.threads[w := Worker(Idle)][t := RetryTimer(job)], log := s.log.Tick())
  {
    RunThen(s0, before, s, FinishJob(w, t));
    steps := before + [FinishJob(w, t)];
    s' := Next(s, FinishJob(w, t));
  }

  /** A caller inserts its job and finds the queue full. */
  lemma RaceBlocks(s0: State, before: seq<Step>, s: State, t: Tid, job: Job) returns (steps: seq<Step>, s': State)
    requires IsRun(s0, before, s) && t !in s.threads && job.Valid() && job.kind == Folder
    requires job.KeyOf() !in s.sh.pending && |s.sh.high| == s.sh.capacity
    ensures IsRun(s0, steps, s')
    ensures var k := job.KeyOf();
      s' == s.(sh := s.sh.(pending := s.sh.pending[k := JobState(job, false)]),
               threads := s.threads[t := Caller(job, true, QueueFull)], log := s.log.Insert(k).Tick())
  {
    var s1 := Next(s, Enqueue(t, job, true));
    RunThen(s0, before, s, Enqueue(t, job, true));
    RunThen(s0, before + [Enqueue(t, job, true)], s1, CallerSend(t));
    steps := before + [Enqueue(t, job, true)] + [CallerSend(t)];
    s' := Next(s1, CallerSend(t));
    assert s1.threads[t := Caller(job, true, QueueFull)] == s.threads[t := Caller(job, true, QueueFull)];
  }

  /** Another caller joins the entry, and so does the retry. */
  lemma RaceJoins(s0: State, before: seq<Step>, s: State, other: Tid, t: Tid, job: Job) returns (steps: seq<Step>, s': State)
    requires IsRun(s0, before, s) && other !in s.threads && s.At(t, RetryTimer(job)) && s.Live() && job.Valid()
    requires job.KeyOf() in s.sh.pending
    ensures IsRun(s0, steps, s')
    ensures var k := job.KeyOf();
      s' == s.(sh := s.sh.(pending := s.sh.pending[k := JobState(job, true)]), threads := s.threads - {t},
               log := s.log.Accept(job).Accept(job))
  {
    var s1 := Next(s, Enqueue(other, job, true));
    RunThen(s0, before, s, Enqueue(other, job, true));
    RunThen(s0, before + [Enqueue(other, job, true)], s1, TimerFire(t));
    steps := before + [Enqueue(other, job, true)] + [TimerFire(t)];
    s' := Next(s1, TimerFire(t));
    assert s1.sh.pending[job.KeyOf() := JobState(job, true)] == s1.sh.pending;
  }

  /** The context of the caller that found the queue full expires. */
  lemma RaceExpires(s0: State, before: seq<Step>, s: State, t: Tid, job: Job) returns (steps: seq<Step>, s': State)
    requires IsRun(s0, before, s) && s.At(t, Caller(job, true, QueueFull))
    ensures IsRun(s0, steps, s')
    ensures s' == s.(threads := s.threads[t := Caller(job, true, MustDrop)], log := s.log.Tick())
  {
    RunThen(s0, before, s, CallerFull(t, true));
    steps := before + [CallerFull(t, true)];
    s' := Next(s, CallerFull(t, true));
  }

  lemma RaceStarts() returns (steps: seq<Step>, s: State)
    ensures IsRun(Init(1, 1), steps, s)
    ensures s == Init(1, 1).(started := true, threads := map[0 := Worker(Idle)], log := Init(1, 1).log.Tick())
  {
    var s0 := Init(1, 1);
    assert IsRun(s0, [], s0);
    assert |{0}| == 1;
    RunThen(s0, [], s0, Start({0}));
    steps, s := [] + [Start({0})], Next(s0, Start({0}));
    assert s.threads == map[0 := Worker(Idle)];
  }

  /** The victim is queued. */
  lemma RaceQueued() returns (steps: seq<Step>, s: State)
    ensures IsRun(Init(1, 1), steps, s) && s.Live() && s.threads == map[0 := Worker(Idle)]
    ensures s.sh.pending == map[VICTIM.KeyOf() := JobState(VICTIM, false)] && s.sh.failures == map[] && s.sh.capacity == 1
    ensures s.sh.high == [VICTIM] && s.sh.fgWaiting == map[] && s.sh.fgHeld == {}
  {
    var u;
    steps, u := RaceStarts();
    steps, s := RaceQueues(Init(1, 1), steps, u, 1, VICTIM);
  }

  /** The victim is running. */
  lemma RaceBegins() returns (steps: seq<Step>, s: State)
    ensures IsRun(Init(1, 1), steps, s) && s.Live() && s.threads == map[0 := Worker(Running(VICTIM))]
    ensures s.sh.pending == map[VICTIM.KeyOf() := JobState(VICTIM, false)] && s.sh.failures == map[] && s.sh.capacity == 1
    ensures s.sh.high == [] && s.sh.fgWaiting == map[]
  {
    var u;
    steps, u := RaceQueued();
    steps, s := RaceRuns(Init(1, 1), steps, u, 0, VICTIM);
  }

  /** The victim's run has failed and nobody waited for its slot. */
  lemma RaceStops() returns (steps: seq<Step>, s: State)
    ensures IsRun(Init(1, 1), steps, s) && s.Live() && s.threads == map[0 := Worker(Finishing(VICTIM, Failed))]
    ensures s.sh.pending == map[VICTIM.KeyOf() := JobState(VICTIM, false)] && s.sh.failures == map[] && s.sh.capacity == 1
    ensures s.sh.high == []
  {
    var u;
    steps, u := RaceBegins();
    steps, u := RaceEnds(Init(1, 1), steps, u, 0, VICTIM);
    steps, s := RacePops(Init(1, 1), steps, u, 0, VICTIM);
  }

  /** The victim has failed, and its retry is armed. */
  lemma RaceArms() returns (steps: seq<Step>, s: State)
    ensures IsRun(Init(1, 1), steps, s) && s.Live()
    ensures s.threads.Keys == {0, 5} && s.At(0, Worker(Idle)) && s.At(5, RetryTimer(VICTIM))
    ensures s.sh.pending == map[] && s.sh.Failures(VICTIM.KeyOf()) == 1 && s.sh.high == [] && s.sh.capacity == 1
  {
    var u;
    steps, u := RaceStops();
    steps, s := RaceFails(Init(1, 1), steps, u, 0, 5, VICTIM);
  }

  /** Another job fills the queue. */
  lemma RaceFills() returns (steps: seq<Step>, s: State)
    ensures IsRun(Init(1, 1), steps, s) && s.Live()
    ensures s.threads.Keys == {0, 5} && s.At(0, Worker(Idle)) && s.At(5, RetryTimer(VICTIM))
    ensures VICTIM.KeyOf() !in s.sh.pending && s.sh.Failures(VICTIM.KeyOf()) == 1 && |s.sh.high| == s.sh.capacity
  {
    var u;
    steps, u := RaceArms();
    steps, s := RaceQueues(Init(1, 1), steps, u, 1, BLOCKER);
  }

  /** Caller 2 waits on a full queue for its job. */
  lemma RaceWaits(s0: State, before: seq<Step>, s: State, job: Job) returns (steps: seq<Step>, s': State)
    requires IsRun(s0, before, s) && s.Live() && s.threads.Keys == {0, 5} && s.At(5, RetryTimer(job))
    requires job.Valid() && job.kind == Folder && job.KeyOf() !in s.sh.pending && |s.sh.high| == s.sh.capacity
    ensures IsRun(s0, steps, s') && s'.Live() && s'.sh.failures == s.sh.failures
    ensures s'.threads == s.threads[2 := Caller(job, true, QueueFull)] && job.KeyOf() in s'.sh.pending
  {
    steps, s' := RaceBlocks(s0, before, s, 2, job);
  }

  /** The retry and another caller join it. */
  lemma RaceGathers(s0: State, before: seq<Step>, s: State, job: Job) returns (steps: seq<Step>, s': State)
    requires IsRun(s0, before, s) && s.Live() && 3 !in s.threads && s.At(5, RetryTimer(job))
    requires job.Valid() && job.KeyOf() in s.sh.pending
    ensures IsRun(s0, steps, s') && s'.Live() && s'.sh.failures == s.sh.failures
    ensures s'.threads == s.threads - {5}
    ensures job.KeyOf() in s'.sh.pending && s'.sh.pending[job.KeyOf()].rerun
  {
    steps, s' := RaceJoins(s0, before, s, 3, 5, job);
  }

  /** An accepted request and a booked failure hang on the entry of caller 2. */
  lemma RaceTurns() returns (steps: seq<Step>, s: State)
    ensures IsRun(Init(1, 1), steps, s) && s.Live() && s.sh.Failures(VICTIM.KeyOf()) == 1
    ensures s.threads.Keys == {0, 2} && s.threads[0] == Worker(Idle) && s.threads[2] == Caller(VICTIM, true, QueueFull)
    ensures VICTIM.KeyOf() in s.sh.pending && s.sh.pending[VICTIM.KeyOf()].rerun
  {
    var u0, u1;
    steps, u0 := RaceFills();
    steps, u1 := RaceWaits(Init(1, 1), steps, u0, VICTIM);
    assert u1.threads[5] == RetryTimer(VICTIM) && u1.threads.Keys == {0, 2, 5};
    steps, s := RaceGathers(Init(1, 1), steps, u1, VICTIM);
    assert s.threads.Keys == {0, 2};
  }

  /**
   A live run whose last step is such a drop: a request that a caller was told is accepted is forgotten,
   and a key that keeps failing is left with neither an entry nor a retry.
   */
  lemma OneDropLosesBoth() returns (steps: seq<Step>, s: State, step: Step, k: Key)
    ensures IsRun(Init(1, 1), steps, s) && Enabled(s, step) && Next(s, step).Live()
    ensures Drops(s, step, k) && LosesRequest(s, step, k) && Silences(s, step, k)
  {
    var u;
    steps, u := RaceTurns();
    steps, s := RaceExpires(Init(1, 1), steps, u, 2, VICTIM);
    step, k := CallerDrop(2), VICTIM.KeyOf();
    NoTimerLeft(s, k);
    DropLosesExactly(1, 1, steps, s, step, k);
    DropSilencesExactly(1, 1, steps, s, step, k);
  }

  lemma NoTimerLeft(s: State, k: Key)
    requires s.threads.Keys == {0, 2} && s.threads[0].Worker? && s.threads[2].Caller?
    ensures !Armed(s, k)
  {
  }
}

/**
 Job ownership: in every reachable state the pending keys and the live job tokens are in bijection,
 and a slot is taken exactly when one worker runs a job of that slot.
 */
module SyncOwnership {
  import opened Options
  import opened SyncQueues
  import opened SyncScheduler

  /** Where a token can be. A worker may hold two: its own job and the parked job it popped. */
  datatype Place = InQueue(tier: Tier) | Parked(slot: Slot) | With(t: Tid) | PoppedBy(t: Tid)

  ghost predicate HasKey(js: seq<Job>, k: Key) {
    exists i :: 0 <= i < |js| && js[i].KeyOf() == k
  }

  ghost predicate NoDup(js: seq<Job>) {
    forall i, j :: 0 <= i < j < |js| ==> js[i].KeyOf() != js[j].KeyOf()
  }

  ghost predicate Is(o: Option<Job>, k: Key) {
    o.Some? && o.value.KeyOf() == k
  }

  /** A token of key `k` is at place `p`. */
  ghost predicate Holds(s: State, p: Place, k: Key) {
    match p
    case InQueue(tier) => HasKey(s.sh.Queue(tier), k)
    case Parked(slot) => HasKey(s.sh.Waiting(slot), k)
    case With(t) => t in s.threads && Is(Carried(s.threads[t]), k)
    case PoppedBy(t) => t in s.threads && Is(Popped(s.threads[t]), k)
  }

  /** A pending key has a token, no key has two, and a token's key is pending. */
  ghost predicate Owned(s: State) {
    && (forall k :: k in s.sh.pending ==> exists p :: Holds(s, p, k))
    && (forall p, k :: Holds(s, p, k) ==> k in s.sh.pending)
    && (forall p, q, k :: Holds(s, p, k) && Holds(s, q, k) ==> p == q)
  }

  ghost predicate Filed(s: State) {
    && (forall k :: k in s.sh.pending ==> s.sh.pending[k].job.KeyOf() == k)
    && (forall tier :: NoDup(s.sh.Queue(tier)))
    && (forall slot :: NoDup(s.sh.Waiting(slot)))
    && (forall tier, i :: 0 <= i < |s.sh.Queue(tier)| ==> s.sh.Queue(tier)[i].TierOf() == tier)
    && (forall slot, i :: 0 <= i < |s.sh.Waiting(slot)| ==> s.sh.Waiting(slot)[i].SlotOf() == slot)
    && |s.sh.high| <= s.sh.capacity && |s.sh.low| <= s.sh.capacity
  }

  ghost predicate Runs(s: State, w: Tid, slot: Slot) {
    s.AtWorker(w) && s.threads[w].state.Running? && s.threads[w].state.job.SlotOf() == slot
  }

  ghost predicate SlotsExclusive(s: State) {
    && (forall slot :: s.sh.Held(slot) ==> exists w :: Runs(s, w, slot))
    && (forall w, slot :: Runs(s, w, slot) ==> s.sh.Held(slot))
    && (forall w, v, slot :: Runs(s, w, slot) && Runs(s, v, slot) ==> w == v)
  }

  ghost predicate Inv(s: State) {
    Owned(s) && Filed(s) && SlotsExclusive(s)
  }

  // ---- how a step may rearrange tokens ----

  /** The token of `k` is now at `to`; every other token is where it was. */
  ghost predicate Moved(s: State, s': State, k: Key, to: Place) {
    && s'.sh.pending.Keys == s.sh.pending.Keys + {k}
    && forall p, x {:trigger Holds(s', p, x)} ::
         Holds(s', p, x) <==> if x == k then p == to else Holds(s, p, x)
  }

  ghost predicate Removed(s: State, s': State, k: Key) {
    && s'.sh.pending.Keys == s.sh.pending.Keys - {k}
    && forall p, x {:trigger Holds(s', p, x)} :: Holds(s', p, x) <==> x != k && Holds(s, p, x)
  }

  ghost predicate Kept(s: State, s': State) {
    && s'.sh.pending.Keys == s.sh.pending.Keys
    && forall p, x {:trigger Holds(s', p, x)} :: Holds(s', p, x) <==> Holds(s, p, x)
  }

  lemma OwnedAfterMove(s: State, s': State, k: Key, to: Place)
    requires Owned(s) && Moved(s, s', k, to)
    ensures Owned(s')
  {
    forall x | x in s'.sh.pending
      ensures exists p :: Holds(s', p, x)
    {
      if x == k {
        assert Holds(s', to, x);
      } else {
        var p :| Holds(s, p, x);
        assert Holds(s', p, x);
      }
    }
  }

  lemma OwnedAfterRemoval(s: State, s': State, k: Key)
    requires Owned(s) && Removed(s, s', k)
    ensures Owned(s')
  {
    forall x | x in s'.sh.pending
      ensures exists p :: Holds(s', p, x)
    {
      var p :| Holds(s, p, x);
      assert Holds(s', p, x);
    }
  }

  lemma OwnedAfterKeeping(s: State, s': State)
    requires Owned(s) && Kept(s, s')
    ensures Owned(s')
  {
    forall x | x in s'.sh.pending
      ensures exists p :: Holds(s', p, x)
    {
      var p :| Holds(s, p, x);
      assert Holds(s', p, x);
    }
  }

  lemma HasKeyAppend(q: seq<Job>, j: Job)
    ensures forall k :: HasKey(q + [j], k) <==> HasKey(q, k) || j.KeyOf() == k
  {
    forall k
      ensures HasKey(q + [j], k) <==> HasKey(q, k) || j.KeyOf() == k
    {
      if HasKey(q, k) {
        var i :| 0 <= i < |q| && q[i].KeyOf() == k;
        assert (q + [j])[i].KeyOf() == k;
      }
      if j.KeyOf() == k {
        assert (q + [j])[|q|].KeyOf() == k;
      }
    }
  }

  lemma HasKeyTail(q: seq<Job>)
    requires q != [] && NoDup(q)
    ensures forall k :: HasKey(q[1..], k) <==> HasKey(q, k) && k != q[0].KeyOf()
    ensures HasKey(q, q[0].KeyOf())
  {
    forall k
      ensures HasKey(q[1..], k) <==> HasKey(q, k) && k != q[0].KeyOf()
    {
      if HasKey(q[1..], k) {
        var i :| 0 <= i < |q[1..]| && q[1..][i].KeyOf() == k;
        assert q[i + 1].KeyOf() == k;
      }
      if HasKey(q, k) && k != q[0].KeyOf() {
        var i :| 0 <= i < |q| && q[i].KeyOf() == k;
        assert q[1..][i - 1].KeyOf() == k;
      }
    }
  }

  lemma NoDupAppend(q: seq<Job>, j: Job)
    requires NoDup(q) && !HasKey(q, j.KeyOf())
    ensures NoDup(q + [j])
  {
  }

  // ---- what the atomic sections do to queues and waiting lists ----

  lemma SendFiles(sh: Shared, job: Job)
    requires |sh.Queue(job.TierOf())| < sh.capacity
    ensures var sh' := TrySend(sh, job).0;
            && sh'.pending == sh.pending
            && (forall slot :: sh'.Waiting(slot) == sh.Waiting(slot) && sh'.Held(slot) == sh.Held(slot))
            && (forall tier :: sh'.Queue(tier) ==
                               if tier == job.TierOf() then sh.Queue(tier) + [job] else sh.Queue(tier))
            && (forall tier, k :: HasKey(sh'.Queue(tier), k) <==>
                                  HasKey(sh.Queue(tier), k) || (tier == job.TierOf() && k == job.KeyOf()))
  {
    HasKeyAppend(sh.Queue(job.TierOf()), job);
  }

  lemma ReceiveFiles(sh: Shared, tier: Tier)
    requires sh.Queue(tier) != [] && NoDup(sh.Queue(tier))
    ensures var sh' := sh.WithQueue(tier, sh.Queue(tier)[1..]);
            var k0 := sh.Queue(tier)[0].KeyOf();
            && HasKey(sh.Queue(tier), k0)
            && (forall slot :: sh'.Waiting(slot) == sh.Waiting(slot) && sh'.Held(slot) == sh.Held(slot))
            && (forall u :: sh'.Queue(u) == if u == tier then sh.Queue(u)[1..] else sh.Queue(u))
            && (forall u, k :: HasKey(sh'.Queue(u), k) <==> HasKey(sh.Queue(u), k) && !(u == tier && k == k0))
  {
    HasKeyTail(sh.Queue(tier));
  }

  lemma ParkFiles(sh: Shared, job: Job)
    requires sh.Held(job.SlotOf())
    ensures var sh' := Acquire(sh, job).0;
            && sh'.pending == sh.pending
            && (forall tier :: sh'.Queue(tier) == sh.Queue(tier))
            && (forall slot :: sh'.Held(slot) == sh.Held(slot))
            && (forall slot :: sh'.Waiting(slot) ==
                               if slot == job.SlotOf() then sh.Waiting(slot) + [job] else sh.Waiting(slot))
            && (forall slot, k :: HasKey(sh'.Waiting(slot), k) <==>
                                  HasKey(sh.Waiting(slot), k) || (slot == job.SlotOf() && k == job.KeyOf()))
  {
    HasKeyAppend(sh.Waiting(job.SlotOf()), job);
  }

  lemma PopFiles(sh: Shared, at: Slot)
    requires sh.Waiting(at) != [] && NoDup(sh.Waiting(at))
    ensures var sh' := PopWaiting(sh, at).0;
            var k0 := sh.Waiting(at)[0].KeyOf();
            && PopWaiting(sh, at).1 == Some(sh.Waiting(at)[0])
            && HasKey(sh.Waiting(at), k0)
            && sh'.pending == sh.pending
            && (forall tier :: sh'.Queue(tier) == sh.Queue(tier))
            && (forall slot :: sh'.Held(slot) == sh.Held(slot))
            && (forall slot :: sh'.Waiting(slot) == if slot == at then sh.Waiting(slot)[1..] else sh.Waiting(slot))
            && (forall slot, k :: HasKey(sh'.Waiting(slot), k) <==>
                                  HasKey(sh.Waiting(slot), k) && !(slot == at && k == k0))
  {
    HasKeyTail(sh.Waiting(at));
  }

  // ---- every step keeps the invariant ----

  lemma SlotsKept(s: State, s': State)
    requires SlotsExclusive(s)
    requires forall w, slot :: Runs(s', w, slot) <==> Runs(s, w, slot)
    requires forall slot :: s'.sh.Held(slot) == s.sh.Held(slot)
    ensures SlotsExclusive(s')
  {
    forall slot | s'.sh.Held(slot)
      ensures exists w :: Runs(s', w, slot)
    {
      var w :| Runs(s, w, slot);
      assert Runs(s', w, slot);
    }
  }

  lemma FiledWithSameLists(s: State, s': State)
    requires Filed(s)
    requires forall k :: k in s'.sh.pending ==> s'.sh.pending[k].job.KeyOf() == k
    requires s'.sh.high == s.sh.high && s'.sh.low == s.sh.low && s'.sh.capacity == s.sh.capacity
    requires forall slot :: s'.sh.Waiting(slot) == s.sh.Waiting(slot)
    ensures Filed(s')
  {
    assert forall tier :: s'.sh.Queue(tier) == s.sh.Queue(tier);
  }

  /** A token that a thread carries or has popped goes into its queue. */
  lemma SendKeeps(s: State, s': State, job: Job, from: Place)
    requires Inv(s) && Holds(s, from, job.KeyOf()) && (from.With? || from.PoppedBy?)
    requires |s.sh.Queue(job.TierOf())| < s.sh.capacity
    requires s'.sh == TrySend(s.sh, job).0
    requires forall t, x :: Holds(s', With(t), x) <==> Holds(s, With(t), x) && !(from == With(t) && x == job.KeyOf())
    requires forall t, x :: Holds(s', PoppedBy(t), x) <==> Holds(s, PoppedBy(t), x) && !(from == PoppedBy(t) && x == job.KeyOf())
    requires forall w, slot :: Runs(s', w, slot) <==> Runs(s, w, slot)
    ensures Inv(s')
  {
    var k := job.KeyOf();
    SendFiles(s.sh, job);
    forall p, x
      ensures Holds(s', p, x) <==> if x == k then p == InQueue(job.TierOf()) else Holds(s, p, x)
    {
      SendMoves(s, s', job, from, p, x);
    }
    OwnedAfterMove(s, s', k, InQueue(job.TierOf()));
    assert !Holds(s, InQueue(job.TierOf()), k);
    SendFiled(s, s', job);
    SlotsKept(s, s');
  }

  lemma SendMoves(s: State, s': State, job: Job, from: Place, p: Place, x: Key)
    requires Owned(s) && Holds(s, from, job.KeyOf()) && (from.With? || from.PoppedBy?)
    requires |s.sh.Queue(job.TierOf())| < s.sh.capacity
    requires s'.sh == TrySend(s.sh, job).0
    requires forall t :: Holds(s', With(t), x) <==> Holds(s, With(t), x) && !(from == With(t) && x == job.KeyOf())
    requires forall t :: Holds(s', PoppedBy(t), x) <==> Holds(s, PoppedBy(t), x) && !(from == PoppedBy(t) && x == job.KeyOf())
    ensures Holds(s', p, x) <==> if x == job.KeyOf() then p == InQueue(job.TierOf()) else Holds(s, p, x)
  {
    SendFiles(s.sh, job);
    assert x == job.KeyOf() && Holds(s, p, x) ==> p == from;
  }

  lemma SendFiled(s: State, s': State, job: Job)
    requires Filed(s) && |s.sh.Queue(job.TierOf())| < s.sh.capacity && !HasKey(s.sh.Queue(job.TierOf()), job.KeyOf())
    requires s'.sh == TrySend(s.sh, job).0
    ensures Filed(s')
  {
    SendFiles(s.sh, job);
    NoDupAppend(s.sh.Queue(job.TierOf()), job);
    forall tier
      ensures NoDup(s'.sh.Queue(tier))
      ensures forall i :: 0 <= i < |s'.sh.Queue(tier)| ==> s'.sh.Queue(tier)[i].TierOf() == tier
    {
      assert NoDup(s.sh.Queue(tier));
    }
  }

  /** Only threads changed, and none of them gained, lost or moved a token. */
  lemma ThreadsKeep(s: State, s': State)
    requires Inv(s) && s'.sh == s.sh
    requires forall t, x :: Holds(s', With(t), x) <==> Holds(s, With(t), x)
    requires forall t, x :: Holds(s', PoppedBy(t), x) <==> Holds(s, PoppedBy(t), x)
    requires forall w, slot :: Runs(s', w, slot) <==> Runs(s, w, slot)
    ensures Inv(s') && Kept(s, s')
  {
    assert Kept(s, s');
    OwnedAfterKeeping(s, s');
    SlotsKept(s, s');
  }

  /** A token that a thread carries or has popped is dropped with its pending entry. */
  lemma DropKeeps(s: State, s': State, k: Key, from: Place)
    requires Inv(s) && Holds(s, from, k) && (from.With? || from.PoppedBy?)
    requires s'.sh.pending == s.sh.pending - {k}
    requires s'.sh.(pending := s.sh.pending, failures := s.sh.failures) == s.sh
    requires forall t, x :: Holds(s', With(t), x) <==> Holds(s, With(t), x) && !(from == With(t) && x == k)
    requires forall t, x :: Holds(s', PoppedBy(t), x) <==> Holds(s, PoppedBy(t), x) && !(from == PoppedBy(t) && x == k)
    requires forall w, slot :: Runs(s', w, slot) <==> Runs(s, w, slot)
    ensures Inv(s') && Removed(s, s', k)
  {
    assert forall tier :: s'.sh.Queue(tier) == s.sh.Queue(tier);
    assert forall slot :: s'.sh.Waiting(slot) == s.sh.Waiting(slot) && s'.sh.Held(slot) == s.sh.Held(slot);
    forall p, x
      ensures Holds(s', p, x) <==> x != k && Holds(s, p, x)
    {
      assert x == k && Holds(s, p, x) ==> p == from;
    }
    OwnedAfterRemoval(s, s', k);
    FiledWithSameLists(s, s');
    SlotsKept(s, s');
  }

  lemma CallerSendKeeps(s: State, t: Tid)
    requires Inv(s) && AtCaller(s, t, TryingSend)
    ensures Inv(DoCallerSend(s, t))
  {
    var job := s.threads[t].job;
    assert Holds(s, With(t), job.KeyOf());
    if TrySend(s.sh, job).1 {
      SendKeeps(s, DoCallerSend(s, t), job, With(t));
    } else {
      ThreadsKeep(s, DoCallerSend(s, t));
    }
  }

  lemma DispatcherSendKeeps(s: State, t: Tid)
    requires Inv(s) && AtDispatcher(s, t) && |s.sh.Queue(s.threads[t].job.TierOf())| < s.sh.capacity
    ensures Inv(DoDispatcherSend(s, t))
  {
    var job := s.threads[t].job;
    assert Holds(s, With(t), job.KeyOf());
    SendKeeps(s, DoDispatcherSend(s, t), job, With(t));
  }

  lemma HandSendKeeps(s: State, w: Tid)
    requires Inv(s) && AtHand(s, w, TryingSend)
    ensures Inv(DoHandSend(s, w))
  {
    var s' := DoHandSend(s, w);
    var job := s.threads[w].state.next;
    assert Holds(s, PoppedBy(w), job.KeyOf());
    assert Carried(s'.threads[w]) == Carried(s.threads[w]);
    assert s'.threads == s.threads[w := s'.threads[w]] && s'.threads[w].Worker? && !s'.threads[w].state.Running?;
    assert forall t, x :: Holds(s', With(t), x) <==> Holds(s, With(t), x);
    if TrySend(s.sh, job).1 {
      SendKeeps(s, s', job, PoppedBy(w));
    } else {
      ThreadsKeep(s, s');
    }
  }

  lemma RerunSendKeeps(s: State, w: Tid)
    requires Inv(s) && AtRerun(s, w, TryingSend)
    ensures Inv(DoRerunSend(s, w))
  {
    var s' := DoRerunSend(s, w);
    var job := s.threads[w].state.next;
    assert Holds(s, With(w), job.KeyOf());
    assert s'.threads == s.threads[w := s'.threads[w]] && s'.threads[w].Worker? && Popped(s'.threads[w]) == None;
    assert forall v, slot :: Runs(s', v, slot) <==> Runs(s, v, slot);
    if TrySend(s.sh, job).1 {
      SendKeeps(s, s', job, With(w));
    } else {
      ThreadsKeep(s, s');
    }
  }

  lemma CallerFullKeeps(s: State, t: Tid, expired: bool)
    requires Inv(s) && AtCaller(s, t, QueueFull)
    ensures Inv(DoCallerFull(s, t, expired))
  {
    ThreadsKeep(s, DoCallerFull(s, t, expired));
  }

  /** A token passes from one thread to another while queues and lists stay as they are. */
  lemma PassKeeps(s: State, s': State, k: Key, from: Place, to: Tid)
    requires Inv(s) && s'.sh == s.sh && Holds(s, from, k) && from != With(to)
    requires forall t, x :: Holds(s', With(t), x) <==> if x == k then t == to else Holds(s, With(t), x)
    requires forall t, x :: Holds(s', PoppedBy(t), x) <==> x != k && Holds(s, PoppedBy(t), x)
    requires from.With? || from.PoppedBy?
    requires forall w, slot :: Runs(s', w, slot) <==> Runs(s, w, slot)
    ensures Inv(s')
  {
    forall p, x
      ensures Holds(s', p, x) <==> if x == k then p == With(to) else Holds(s, p, x)
    {
      assert x == k && Holds(s, p, x) ==> p == from;
    }
    OwnedAfterMove(s, s', k, With(to));
    SlotsKept(s, s');
  }

  lemma HandFullKeeps(s: State, w: Tid, t: Tid)
    requires Inv(s) && AtHand(s, w, QueueFull) && t !in s.threads
    ensures Inv(DoHandFull(s, w, t))
  {
    var s' := DoHandFull(s, w, t);
    var k := s.threads[w].state.next.KeyOf();
    assert Holds(s, PoppedBy(w), k);
    if s.Live() {
      forall u, x
        ensures Holds(s', With(u), x) <==> if x == k then u == t else Holds(s, With(u), x)
        ensures Holds(s', PoppedBy(u), x) <==> x != k && Holds(s, PoppedBy(u), x)
      {
        assert x == k ==> !Holds(s, With(u), x);
        assert x == k && u != w ==> !Holds(s, PoppedBy(u), x);
      }
      PassKeeps(s, s', k, PoppedBy(w), t);
    } else {
      ThreadsKeep(s, s');
    }
  }

  lemma RerunFullKeeps(s: State, w: Tid, t: Tid)
    requires Inv(s) && AtRerun(s, w, QueueFull) && t !in s.threads
    ensures Inv(DoRerunFull(s, w, t))
  {
    var s' := DoRerunFull(s, w, t);
    var k := s.threads[w].state.next.KeyOf();
    assert Holds(s, With(w), k);
    if s.Live() {
      forall u, x
        ensures Holds(s', With(u), x) <==> if x == k then u == t else Holds(s, With(u), x)
        ensures Holds(s', PoppedBy(u), x) <==> x != k && Holds(s, PoppedBy(u), x)
      {
        assert x == k && u != w ==> !Holds(s, With(u), x);
        assert x == k ==> !Holds(s, PoppedBy(u), x);
      }
      PassKeeps(s, s', k, With(w), t);
    } else {
      ThreadsKeep(s, s');
    }
  }

  /** What a drop by thread `t` leaves behind, from the uniqueness of the dropped token. */
  lemma CallerDropKeeps(s: State, t: Tid)
    requires Inv(s) && t in s.threads && (s.threads[t].Caller? || s.threads[t].Dispatcher?)
    ensures Inv(DoDrop(s, t))
  {
    var k := s.threads[t].job.KeyOf();
    assert Holds(s, With(t), k);
    DropKeeps(s, DoDrop(s, t), k, With(t));
  }

  lemma HandDropKeeps(s: State, w: Tid)
    requires Inv(s) && AtHand(s, w, MustDrop)
    ensures Inv(DoHandDrop(s, w))
  {
    var k := s.threads[w].state.next.KeyOf();
    assert Holds(s, PoppedBy(w), k);
    DropKeeps(s, DoHandDrop(s, w), k, PoppedBy(w));
  }

  lemma RerunDropKeeps(s: State, w: Tid)
    requires Inv(s) && AtRerun(s, w, MustDrop)
    ensures Inv(DoRerunDrop(s, w))
  {
    var k := s.threads[w].state.next.KeyOf();
    assert Holds(s, With(w), k);
    DropKeeps(s, DoRerunDrop(s, w), k, With(w));
  }

  lemma EnqueueKeeps(s: State, t: Tid, job: Job, ownContext: bool)
    requires Inv(s) && t !in s.threads
    ensures Inv(DoEnqueue(s, t, job, ownContext))
  {
    if job.KeyOf() in s.sh.pending {
      JoinKeeps(s, t, job, ownContext);
    } else {
      InsertKeeps(s, t, job, ownContext);
    }
  }

  lemma JoinKeeps(s: State, t: Tid, job: Job, ownContext: bool)
    requires Inv(s) && job.KeyOf() in s.sh.pending
    ensures Inv(DoEnqueue(s, t, job, ownContext))
  {
    var s' := DoEnqueue(s, t, job, ownContext);
    PendingOnly(s.sh, s'.sh);
    FiledWithSameLists(s, s');
    assert s'.threads == s.threads;
    assert Kept(s, s');
    OwnedAfterKeeping(s, s');
    SlotsKept(s, s');
  }

  lemma InsertKeeps(s: State, t: Tid, job: Job, ownContext: bool)
    requires Inv(s) && t !in s.threads && job.KeyOf() !in s.sh.pending
    ensures Inv(DoEnqueue(s, t, job, ownContext))
  {
    var s' := DoEnqueue(s, t, job, ownContext);
    var k := job.KeyOf();
    PendingOnly(s.sh, s'.sh);
    FiledWithSameLists(s, s');
    assert s'.threads == s.threads[t := Caller(job, ownContext, TryingSend)];
    forall p, x
      ensures Holds(s', p, x) <==> if x == k then p == With(t) else Holds(s, p, x)
    {
      assert x == k ==> !Holds(s, p, x);
    }
    OwnedAfterMove(s, s', k, With(t));
    SlotsKept(s, s');
  }

  /** Only the pending map and the failure counters differ. */
  lemma PendingOnly(sh: Shared, sh': Shared)
    requires sh'.(pending := sh.pending, failures := sh.failures) == sh
    ensures forall tier :: sh'.Queue(tier) == sh.Queue(tier)
    ensures forall slot :: sh'.Waiting(slot) == sh.Waiting(slot) && sh'.Held(slot) == sh.Held(slot)
  {
  }

  lemma TimerFireKeeps(s: State, t: Tid)
    requires Inv(s) && AtTimer(s, t)
    ensures Inv(DoTimerFire(s, t))
  {
    ThreadsKeep(s, s.Remove(t));
    EnqueueKeeps(s.Remove(t), t, s.threads[t].job, false);
  }

  lemma ReceiveKeeps(s: State, w: Tid, from: Tier)
    requires Inv(s) && CanReceive(s, w, from)
    ensures Inv(DoReceive(s, w, from))
  {
    var s' := DoReceive(s, w, from);
    var k := s.sh.Queue(from)[0].KeyOf();
    ReceiveFiles(s.sh, from);
    assert Holds(s, InQueue(from), k);
    forall p, x
      ensures Holds(s', p, x) <==> if x == k then p == With(w) else Holds(s, p, x)
    {
      assert x == k && Holds(s, p, x) ==> p == InQueue(from);
    }
    OwnedAfterMove(s, s', k, With(w));
    forall tier
      ensures NoDup(s'.sh.Queue(tier))
      ensures forall i :: 0 <= i < |s'.sh.Queue(tier)| ==> s'.sh.Queue(tier)[i].TierOf() == tier
    {
      assert NoDup(s.sh.Queue(tier));
    }
    SlotsKept(s, s');
  }

  lemma ParkKeeps(s: State, w: Tid)
    requires Inv(s) && AtReceived(s, w) && s.sh.Held(s.threads[w].state.job.SlotOf())
    ensures Inv(DoAcquire(s, w))
  {
    var s' := DoAcquire(s, w);
    var job := s.threads[w].state.job;
    var at := job.SlotOf();
    assert Holds(s, With(w), job.KeyOf());
    assert s'.sh == Acquire(s.sh, job).0 && s'.threads == s.threads[w := Worker(Idle)];
    ParkFiles(s.sh, job);
    forall p, x
      ensures Holds(s', p, x) <==> if x == job.KeyOf() then p == Parked(at) else Holds(s, p, x)
    {
      assert x == job.KeyOf() && Holds(s, p, x) ==> p == With(w);
    }
    OwnedAfterMove(s, s', job.KeyOf(), Parked(at));
    assert !Holds(s, Parked(at), job.KeyOf());
    ParkFiled(s, s', job);
    SlotsKept(s, s');
  }

  lemma ParkFiled(s: State, s': State, job: Job)
    requires Filed(s) && s.sh.Held(job.SlotOf()) && !HasKey(s.sh.Waiting(job.SlotOf()), job.KeyOf())
    requires s'.sh == Acquire(s.sh, job).0
    ensures Filed(s')
  {
    ParkFiles(s.sh, job);
    NoDupAppend(s.sh.Waiting(job.SlotOf()), job);
    forall slot
      ensures NoDup(s'.sh.Waiting(slot))
      ensures forall i :: 0 <= i < |s'.sh.Waiting(slot)| ==> s'.sh.Waiting(slot)[i].SlotOf() == slot
    {
      assert NoDup(s.sh.Waiting(slot));
    }
  }

  lemma TakeSlotKeeps(s: State, w: Tid)
    requires Inv(s) && AtReceived(s, w) && !s.sh.Held(s.threads[w].state.job.SlotOf())
    ensures Inv(DoAcquire(s, w))
  {
    var s' := DoAcquire(s, w);
    var at := s.threads[w].state.job.SlotOf();
    assert forall tier :: s'.sh.Queue(tier) == s.sh.Queue(tier);
    assert forall slot :: s'.sh.Waiting(slot) == s.sh.Waiting(slot);
    assert forall slot :: s'.sh.Held(slot) <==> s.sh.Held(slot) || slot == at;
    assert Kept(s, s');
    OwnedAfterKeeping(s, s');
    FiledWithSameLists(s, s');
    assert forall v, slot :: Runs(s', v, slot) <==> Runs(s, v, slot) || (v == w && slot == at);
    forall slot | s'.sh.Held(slot)
      ensures exists v :: Runs(s', v, slot)
    {
      if slot == at {
        assert Runs(s', w, at);
      } else {
        var v :| Runs(s, v, slot);
        assert Runs(s', v, slot);
      }
    }
  }

  lemma UnlockKeeps(s: State, w: Tid, result: RunResult)
    requires Inv(s) && AtRunning(s, w)
    ensures Inv(DoEndAndUnlock(s, w, result))
  {
    var s' := DoEndAndUnlock(s, w, result);
    var at := s.threads[w].state.job.SlotOf();
    assert Runs(s, w, at);
    assert forall tier :: s'.sh.Queue(tier) == s.sh.Queue(tier);
    assert forall slot :: s'.sh.Waiting(slot) == s.sh.Waiting(slot);
    assert forall slot :: s'.sh.Held(slot) <==> s.sh.Held(slot) && slot != at;
    assert Kept(s, s');
    OwnedAfterKeeping(s, s');
    FiledWithSameLists(s, s');
    assert forall v, slot :: Runs(s', v, slot) <==> Runs(s, v, slot) && v != w;
    forall slot | s'.sh.Held(slot)
      ensures exists v :: Runs(s', v, slot)
    {
      var v :| Runs(s, v, slot);
      assert Runs(s', v, slot);
    }
  }

  lemma PopKeeps(s: State, w: Tid)
    requires Inv(s) && AtUnlocked(s, w)
    ensures Inv(DoPop(s, w))
  {
    if s.sh.Waiting(s.threads[w].state.job.SlotOf()) == [] {
      ThreadsKeep(s, DoPop(s, w));
    } else {
      PopOneKeeps(s, w);
    }
  }

  lemma PopOneKeeps(s: State, w: Tid)
    requires Inv(s) && AtUnlocked(s, w) && s.sh.Waiting(s.threads[w].state.job.SlotOf()) != []
    ensures Inv(DoPop(s, w))
  {
    var s' := DoPop(s, w);
    var at := s.threads[w].state.job.SlotOf();
    var next := s.sh.Waiting(at)[0];
    var k := next.KeyOf();
    PopFiles(s.sh, at);
    assert Holds(s, Parked(at), k);
    var th' := s'.threads[w];
    assert s'.threads == s.threads[w := th'];
    assert Carried(th') == Carried(s.threads[w]) && Popped(th') == Some(next) && Popped(s.threads[w]) == None;
    assert forall v, slot :: Runs(s', v, slot) <==> Runs(s, v, slot);
    forall p, x
      ensures Holds(s', p, x) <==> if x == k then p == PoppedBy(w) else Holds(s, p, x)
    {
      assert x == k && Holds(s, p, x) ==> p == Parked(at);
    }
    OwnedAfterMove(s, s', k, PoppedBy(w));
    PopFiled(s, s', at);
    SlotsKept(s, s');
  }

  lemma PopFiled(s: State, s': State, at: Slot)
    requires Filed(s) && s.sh.Waiting(at) != [] && s'.sh == PopWaiting(s.sh, at).0
    ensures Filed(s')
  {
    PopFiles(s.sh, at);
    forall slot
      ensures NoDup(s'.sh.Waiting(slot))
      ensures forall i :: 0 <= i < |s'.sh.Waiting(slot)| ==> s'.sh.Waiting(slot)[i].SlotOf() == slot
    {
      assert NoDup(s.sh.Waiting(slot));
    }
  }

  /** The finishing worker always finds its own pending entry. */
  lemma FinishKeeps(s: State, w: Tid, t: Tid)
    requires Inv(s) && AtFinishing(s, w) && t !in s.threads
    ensures s.threads[w].state.job.KeyOf() in s.sh.pending
    ensures Inv(DoFinish(s, w, t))
  {
    var s' := DoFinish(s, w, t);
    var k := s.threads[w].state.job.KeyOf();
    assert Holds(s, With(w), k);
    PendingOnly(s.sh, s'.sh);
    if s.sh.pending[k].rerun && !s.cancelled {
      RerunKeeps(s, w, t);
    } else {
      RetireKeeps(s, w, t);
    }
  }

  lemma RerunKeeps(s: State, w: Tid, t: Tid)
    requires Inv(s) && AtFinishing(s, w)
    requires var k := s.threads[w].state.job.KeyOf(); k in s.sh.pending && s.sh.pending[k].rerun && !s.cancelled
    ensures Inv(DoFinish(s, w, t))
  {
    var k := s.threads[w].state.job.KeyOf();
    Redispatched(s, w, t, k);
    RedispatchedKeeps(s, DoFinish(s, w, t), w, k);
  }

  /** What a rerun leaves: the worker goes on with the newest job of the entry. */
  lemma Redispatched(s: State, w: Tid, t: Tid, k: Key)
    requires AtFinishing(s, w) && k == s.threads[w].state.job.KeyOf()
    requires k in s.sh.pending && s.sh.pending[k].rerun && !s.cancelled
    ensures var s', next := DoFinish(s, w, t), s.sh.pending[k].job;
      && s'.threads == s.threads[w := Worker(Rerunning(next, TryingSend))]
      && s'.sh.pending == s.sh.pending[k := JobState(next, false)]
      && s'.sh.(pending := s.sh.pending, failures := s.sh.failures) == s.sh
  {
  }

  lemma RedispatchedKept(s: State, s': State, w: Tid, next: Job)
    requires AtFinishing(s, w) && next.KeyOf() == s.threads[w].state.job.KeyOf()
    requires s'.threads == s.threads[w := Worker(Rerunning(next, TryingSend))]
    requires s'.sh.pending.Keys == s.sh.pending.Keys
    requires forall tier :: s'.sh.Queue(tier) == s.sh.Queue(tier)
    requires forall slot :: s'.sh.Waiting(slot) == s.sh.Waiting(slot)
    ensures Kept(s, s')
    ensures forall v, slot :: Runs(s', v, slot) <==> Runs(s, v, slot)
  {
  }

  lemma RedispatchedKeeps(s: State, s': State, w: Tid, k: Key)
    requires Inv(s) && AtFinishing(s, w) && k == s.threads[w].state.job.KeyOf() && k in s.sh.pending
    requires s'.threads == s.threads[w := Worker(Rerunning(s.sh.pending[k].job, TryingSend))]
    requires s'.sh.pending == s.sh.pending[k := JobState(s.sh.pending[k].job, false)]
    requires s'.sh.(pending := s.sh.pending, failures := s.sh.failures) == s.sh
    ensures Inv(s')
  {
    PendingOnly(s.sh, s'.sh);
    RedispatchedKept(s, s', w, s.sh.pending[k].job);
    OwnedAfterKeeping(s, s');
    FiledWithSameLists(s, s');
    SlotsKept(s, s');
  }

  /** What a finished run leaves: an idle worker, perhaps a retry timer, and one pending entry less. */
  lemma Retired(s: State, w: Tid, t: Tid)
    requires AtFinishing(s, w) && t !in s.threads
    requires var k := s.threads[w].state.job.KeyOf(); k in s.sh.pending && (s.cancelled || !s.sh.pending[k].rerun)
    ensures var s', job, idle := DoFinish(s, w, t), s.threads[w].state.job, s.threads[w := Worker(Idle)];
      && (s'.threads == idle || s'.threads == idle[t := RetryTimer(job)])
      && s'.sh.pending == s.sh.pending - {job.KeyOf()}
      && s'.sh.(pending := s.sh.pending, failures := s.sh.failures) == s.sh
  {
  }

  lemma RetireKeeps(s: State, w: Tid, t: Tid)
    requires Inv(s) && AtFinishing(s, w) && t !in s.threads
    requires var k := s.threads[w].state.job.KeyOf(); k in s.sh.pending && (s.cancelled || !s.sh.pending[k].rerun)
    ensures Inv(DoFinish(s, w, t))
  {
    var k := s.threads[w].state.job.KeyOf();
    Retired(s, w, t);
    RetiredKeeps(s, DoFinish(s, w, t), w, t, k);
  }

  lemma RetiredKeeps(s: State, s': State, w: Tid, t: Tid, k: Key)
    requires Inv(s) && AtFinishing(s, w) && t !in s.threads && k == s.threads[w].state.job.KeyOf()
    requires var idle := s.threads[w := Worker(Idle)];
      s'.threads == idle || s'.threads == idle[t := RetryTimer(s.threads[w].state.job)]
    requires s'.sh.pending == s.sh.pending - {k}
    requires s'.sh.(pending := s.sh.pending, failures := s.sh.failures) == s.sh
    ensures Inv(s')
  {
    assert Holds(s, With(w), k);
    DropKeeps(s, s', k, With(w));
  }

  lemma DropStepKeeps(s: State, step: Step)
    requires Inv(s) && Enabled(s, step)
    requires step.CallerDrop? || step.DispatcherAbort? || step.HandDrop? || step.RerunDrop?
    ensures Inv(Next(s, step))
  {
    match step
    case CallerDrop(t) => CallerDropKeeps(s, t);
    case DispatcherAbort(t) => CallerDropKeeps(s, t);
    case HandDrop(w) => HandDropKeeps(s, w);
    case RerunDrop(w) => RerunDropKeeps(s, w);
  }

  lemma DispatchStepKeeps(s: State, step: Step)
    requires Inv(s) && Enabled(s, step)
    requires step.CallerSend? || step.DispatcherSend? || step.HandSend? || step.RerunSend? || step.CallerFull?
          || step.HandFull? || step.RerunFull?
    ensures Inv(Next(s, step))
  {
    match step
    case CallerSend(t) => CallerSendKeeps(s, t);
    case DispatcherSend(t) => DispatcherSendKeeps(s, t);
    case HandSend(w) => HandSendKeeps(s, w);
    case RerunSend(w) => RerunSendKeeps(s, w);
    case CallerFull(t, expired) => CallerFullKeeps(s, t, expired);
    case HandFull(w, t) => HandFullKeeps(s, w, t);
    case RerunFull(w, t) => RerunFullKeeps(s, w, t);
  }

  lemma StartKeeps(s: State, ws: set<Tid>)
    requires Inv(s) && CanStart(s, ws)
    ensures Inv(DoStart(s, ws))
  {
    ThreadsKeep(s, DoStart(s, ws));
  }

  lemma TimerExitKeeps(s: State, t: Tid)
    requires Inv(s) && AtTimer(s, t)
    ensures Inv(DoTimerExit(s, t))
  {
    ThreadsKeep(s, DoTimerExit(s, t));
  }

  lemma HandDecideKeeps(s: State, w: Tid)
    requires Inv(s) && AtHand(s, w, Deciding)
    ensures Inv(DoHandDecide(s, w))
  {
    ThreadsKeep(s, DoHandDecide(s, w));
  }

  lemma ExitKeeps(s: State, w: Tid)
    requires Inv(s) && s.At(w, Worker(Idle))
    ensures Inv(DoExit(s, w))
  {
    ThreadsKeep(s, DoExit(s, w));
  }

  lemma WorkStepKeeps(s: State, step: Step)
    requires Inv(s) && Enabled(s, step)
    requires step.Receive? || step.AcquireSlot? || step.EndAndUnlock? || step.Pop? || step.FinishJob?
    ensures Inv(Next(s, step))
  {
    match step
    case Receive(w, tier) => ReceiveKeeps(s, w, tier);
    case AcquireSlot(w) =>
      if s.sh.Held(s.threads[w].state.job.SlotOf()) { ParkKeeps(s, w); } else { TakeSlotKeeps(s, w); }
    case EndAndUnlock(w, result) => UnlockKeeps(s, w, result);
    case Pop(w) => PopKeeps(s, w);
    case FinishJob(w, t) => FinishKeeps(s, w, t);
  }

  lemma StepKeepsInv(s: State, step: Step)
    requires Inv(s) && Enabled(s, step)
    ensures Inv(Next(s, step))
  {
    match step
    case CallerDrop(_) | DispatcherAbort(_) | HandDrop(_) | RerunDrop(_) => DropStepKeeps(s, step);
    case Enqueue(t, job, ownContext) => EnqueueKeeps(s, t, job, ownContext);
    case TimerFire(t) => TimerFireKeeps(s, t);
    case Receive(_, _) | AcquireSlot(_) | EndAndUnlock(_, _) | Pop(_) | FinishJob(_, _) => WorkStepKeeps(s, step);
    case Start(ws) => StartKeeps(s, ws);
    case Cancel => ThreadsKeep(s, DoCancel(s));
    case TimerExit(t) => TimerExitKeeps(s, t);
    case Exit(w) => ExitKeeps(s, w);
    case HandDecide(w) => HandDecideKeeps(s, w);
    case _ => DispatchStepKeeps(s, step);
  }

  lemma {:induction false} RunKeepsInv(s: State, steps: seq<Step>, s': State)
    requires Inv(s) && IsRun(s, steps, s')
    ensures Inv(s')
    decreases |steps|
  {
    if steps != [] {
      StepKeepsInv(s, steps[0]);
      RunKeepsInv(Next(s, steps[0]), steps[1..], s');
    }
  }

  lemma InitInv(capacity: nat, workers: nat)
    ensures Inv(Init(capacity, workers))
  {
  }

  /**
   In every state that any run reaches: a key is pending exactly when a token of it exists, the
   token is at one place only, no channel or waiting list holds a key twice, and a slot is held
   exactly when one worker, and no second one, runs a job of it.
   */
  lemma JobOwnership(capacity: nat, workers: nat, steps: seq<Step>, s: State)
    requires IsRun(Init(capacity, workers), steps, s)
    ensures forall k :: k in s.sh.pending <==> exists p :: Holds(s, p, k)
    ensures forall p, q, k :: Holds(s, p, k) && Holds(s, q, k) ==> p == q
    ensures forall tier :: NoDup(s.sh.Queue(tier)) && |s.sh.Queue(tier)| <= s.sh.capacity
    ensures forall slot :: NoDup(s.sh.Waiting(slot))
    ensures forall slot :: s.sh.Held(slot) <==> exists w :: Runs(s, w, slot)
    ensures forall w, v, slot :: Runs(s, w, slot) && Runs(s, v, slot) ==> w == v
  {
    InitInv(capacity, workers);
    RunKeepsInv(Init(capacity, workers), steps, s);
  }
}

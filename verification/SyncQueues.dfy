/**
 The data that the sync scheduler guards with one mutex, its two bounded queues and its
 per-account slots, and every atomic section that touches them.

 Each section appears twice: as a function on a snapshot, and as a method of `Runtime` that
 updates the fields in place and is proved to do what the function says.
 */
module SyncQueues {
  import opened Options

  type AccountId = nat
  type FolderId = nat

  datatype JobKind = NoKind | Discover | Folder | Backfill | Reconcile

  /** Foreground jobs are quick and serve new mail; background jobs are long. */
  datatype Tier = Foreground | Background

  /** What a job is deduplicated by. A discover job ignores its folder. */
  datatype Key =
    | InvalidKey
    | DiscoverKey(account: AccountId)
    | FolderKey(account: AccountId, folder: FolderId)
    | BackfillKey(account: AccountId, folder: FolderId)
    | ReconcileKey(account: AccountId, folder: FolderId)

  /** One slot exists for each tier of each account. */
  datatype Slot = Slot(tier: Tier, account: AccountId)

  datatype Work = NoWork | Work(kind: JobKind, account: AccountId, folder: FolderId)

  datatype Job = Job(account: AccountId, folder: FolderId, mailbox: nat, kind: JobKind) {
    function KeyOf(): Key {
      match kind
      case NoKind => InvalidKey
      case Discover => DiscoverKey(account)
      case Folder => FolderKey(account, folder)
      case Backfill => BackfillKey(account, folder)
      case Reconcile => ReconcileKey(account, folder)
    }

    /** What is asked for: a discovery of an account, or one kind of work on one folder of it. */
    function WorkOf(): Work {
      match kind
      case NoKind => NoWork
      case Discover => Work(Discover, account, 0)
      case _ => Work(kind, account, folder)
    }

    function TierOf(): Tier {
      if kind == Backfill || kind == Reconcile then Background else Foreground
    }

    function SlotOf(): Slot {
      Slot(TierOf(), account)
    }

    predicate Valid() {
      account != 0 && kind != NoKind && (kind == Discover || (folder != 0 && mailbox != 0))
    }
  }

  /** Two jobs ask for the same: kind and account agree and, except for a discovery, the folder does. */
  predicate SameWork(a: Job, b: Job) {
    a.kind == b.kind && a.account == b.account && (a.kind == Discover || a.folder == b.folder)
  }

  /** Jobs are deduplicated exactly when they ask for the same work. */
  lemma KeysTellWork(a: Job, b: Job)
    requires a.kind != NoKind
    ensures a.KeyOf() == b.KeyOf() <==> SameWork(a, b)
    ensures a.WorkOf() == b.WorkOf() <==> SameWork(a, b)
  {
  }

  /** Keys and work name the same things, also for the jobs that no request may carry. */
  lemma KeysNameWork(a: Job, b: Job)
    ensures a.KeyOf() == b.KeyOf() <==> a.WorkOf() == b.WorkOf()
  {
  }

  /** The outcome of a job body; only the not-found error is told apart from the others. */
  datatype RunResult = Ok | Failed | NotFound

  datatype JobState = JobState(job: Job, rerun: bool)

  /** What the goroutine that finished a job does after leaving the mutex. */
  datatype FinishOutcome = Redispatch(next: Job) | ArmRetry | Done

  /** A snapshot of everything the scheduler's goroutines share. */
  datatype Shared = Shared(
    pending: map<Key, JobState>,
    failures: map<Key, nat>,
    fgWaiting: map<AccountId, seq<Job>>,
    bgWaiting: map<AccountId, seq<Job>>,
    fgHeld: set<AccountId>,
    bgHeld: set<AccountId>,
    high: seq<Job>,
    low: seq<Job>,
    capacity: nat)
  {
    function Queue(tier: Tier): seq<Job> {
      if tier == Foreground then high else low
    }

    function WithQueue(tier: Tier, q: seq<Job>): Shared {
      if tier == Foreground then this.(high := q) else this.(low := q)
    }

    function Waiting(slot: Slot): seq<Job> {
      var w := if slot.tier == Foreground then fgWaiting else bgWaiting;
      if slot.account in w then w[slot.account] else []
    }

    /** An empty waiting list is not kept in the map. */
    function WithWaiting(slot: Slot, q: seq<Job>): Shared {
      if slot.tier == Foreground then
        this.(fgWaiting := if q == [] then fgWaiting - {slot.account} else fgWaiting[slot.account := q])
      else
        this.(bgWaiting := if q == [] then bgWaiting - {slot.account} else bgWaiting[slot.account := q])
    }

    predicate Held(slot: Slot) {
      if slot.tier == Foreground then slot.account in fgHeld else slot.account in bgHeld
    }

    function WithHeld(slot: Slot, held: bool): Shared {
      if slot.tier == Foreground then
        this.(fgHeld := if held then fgHeld + {slot.account} else fgHeld - {slot.account})
      else
        this.(bgHeld := if held then bgHeld + {slot.account} else bgHeld - {slot.account})
    }

    function Failures(key: Key): nat {
      if key in failures then failures[key] else 0
    }
  }

  /** First section of an enqueue: join the pending entry or create it; the flag says which. */
  function Admit(sh: Shared, job: Job): (Shared, bool) {
    var key := job.KeyOf();
    if key in sh.pending then (sh.(pending := sh.pending[key := JobState(job, true)]), false)
    else (sh.(pending := sh.pending[key := JobState(job, false)]), true)
  }

  /** A non-blocking send on the queue of the job's tier. */
  function TrySend(sh: Shared, job: Job): (Shared, bool) {
    var q := sh.Queue(job.TierOf());
    if |q| < sh.capacity then (sh.WithQueue(job.TierOf(), q + [job]), true) else (sh, false)
  }

  function DropPending(sh: Shared, key: Key): Shared {
    sh.(pending := sh.pending - {key})
  }

  /** Takes the slot of the job, or parks the job behind its holder; the flag says which. */
  function Acquire(sh: Shared, job: Job): (Shared, bool) {
    if !sh.Held(job.SlotOf()) then (sh.WithHeld(job.SlotOf(), true), true)
    else (sh.WithWaiting(job.SlotOf(), sh.Waiting(job.SlotOf()) + [job]), false)
  }

  function Unlock(sh: Shared, slot: Slot): Shared {
    sh.WithHeld(slot, false)
  }

  /** Takes the longest parked job off the waiting list of a slot. */
  function PopWaiting(sh: Shared, slot: Slot): (Shared, Option<Job>) {
    var q := sh.Waiting(slot);
    if q == [] then (sh, None) else (sh.WithWaiting(slot, q[1..]), Some(q[0]))
  }

  /** Books the outcome of a run: failure counter, rerun request or removal. */
  function Finish(sh: Shared, job: Job, result: RunResult, live: bool): (Shared, FinishOutcome) {
    var key := job.KeyOf();
    var failures := if result == Ok then sh.failures - {key} else sh.failures[key := sh.Failures(key) + 1];
    var booked := sh.(failures := failures);
    if key in sh.pending && sh.pending[key].rerun && live then
      var next := sh.pending[key].job;
      (booked.(pending := sh.pending[key := JobState(next, false)]), Redispatch(next))
    else
      (booked.(pending := sh.pending - {key}), if result == Failed && live then ArmRetry else Done)
  }

  /** The scheduler's part of the runtime object. */
  class Runtime {
    var pending: map<Key, JobState>
    var failures: map<Key, nat>
    var fgWaiting: map<AccountId, seq<Job>>
    var bgWaiting: map<AccountId, seq<Job>>
    var fgHeld: set<AccountId>
    var bgHeld: set<AccountId>
    var syncHigh: seq<Job>
    var syncLow: seq<Job>
    const capacity: nat

    ghost function View(): Shared
      reads this
    {
      Shared(pending, failures, fgWaiting, bgWaiting, fgHeld, bgHeld, syncHigh, syncLow, capacity)
    }

    constructor (capacity: nat)
      ensures View() == Shared(map[], map[], map[], map[], {}, {}, [], [], capacity)
    {
      pending, failures, fgWaiting, bgWaiting := map[], map[], map[], map[];
      fgHeld, bgHeld, syncHigh, syncLow := {}, {}, [], [];
      this.capacity := capacity;
    }

    method AdmitJob(job: Job) returns (valid: bool, inserted: bool)
      modifies this
      ensures valid == job.Valid()
      ensures !valid ==> View() == old(View()) && !inserted
      ensures valid ==> (View(), inserted) == Admit(old(View()), job)
    {
      if job.account == 0 || job.kind == NoKind || (job.kind != Discover && (job.folder == 0 || job.mailbox == 0)) {
        return false, false;
      }
      var key := job.KeyOf();
      if key in pending {
        var current := pending[key];
        current := current.(job := job);
        current := current.(rerun := true);
        pending := pending[key := current];
        return true, false;
      }
      pending := pending[key := JobState(job, false)];
      return true, true;
    }

    method TrySendJob(job: Job) returns (sent: bool)
      modifies this
      ensures (View(), sent) == TrySend(old(View()), job)
    {
      sent := false;
      if job.kind == Backfill || job.kind == Reconcile {
        if |syncLow| < capacity {
          syncLow := syncLow + [job];
          sent := true;
        }
      } else if |syncHigh| < capacity {
        syncHigh := syncHigh + [job];
        sent := true;
      }
    }

    method DropPendingSync(job: Job)
      modifies this
      ensures View() == DropPending(old(View()), job.KeyOf())
    {
      pending := pending - {job.KeyOf()};
    }

    method AcquireSyncSlot(job: Job) returns (taken: bool)
      modifies this
      ensures (View(), taken) == Acquire(old(View()), job)
    {
      if job.kind == Backfill || job.kind == Reconcile {
        if job.account !in bgHeld {
          bgHeld := bgHeld + {job.account};
          return true;
        }
        var queue := if job.account in bgWaiting then bgWaiting[job.account] else [];
        bgWaiting := bgWaiting[job.account := queue + [job]];
        return false;
      }
      if job.account !in fgHeld {
        fgHeld := fgHeld + {job.account};
        return true;
      }
      var queue := if job.account in fgWaiting then fgWaiting[job.account] else [];
      fgWaiting := fgWaiting[job.account := queue + [job]];
      return false;
    }

    method UnlockSlot(slot: Slot)
      modifies this
      ensures View() == Unlock(old(View()), slot)
    {
      if slot.tier == Foreground {
        fgHeld := fgHeld - {slot.account};
      } else {
        bgHeld := bgHeld - {slot.account};
      }
    }

    /** The waiting map never holds an empty list, so a list of one is removed as a whole. */
    method PopNext(slot: Slot) returns (next: Option<Job>)
      modifies this
      ensures (View(), next) == PopWaiting(old(View()), slot)
    {
      var waiting := if slot.tier == Foreground then fgWaiting else bgWaiting;
      var queue := if slot.account in waiting then waiting[slot.account] else [];
      next := None;
      if |queue| > 0 {
        next := Some(queue[0]);
        if |queue| == 1 {
          waiting := waiting - {slot.account};
        } else {
          waiting := waiting[slot.account := queue[1..]];
        }
      }
      if slot.tier == Foreground {
        fgWaiting := waiting;
      } else {
        bgWaiting := waiting;
      }
    }

    method FinishSyncJob(job: Job, result: RunResult, live: bool) returns (outcome: FinishOutcome)
      modifies this
      ensures (View(), outcome) == Finish(old(View()), job, result, live)
    {
      var key := job.KeyOf();
      if result == Ok {
        failures := failures - {key};
      } else {
        failures := failures[key := (if key in failures then failures[key] else 0) + 1];
      }
      if key in pending && pending[key].rerun && live {
        var state := pending[key];
        pending := pending[key := state.(rerun := false)];
        return Redispatch(state.job);
      }
      pending := pending - {key};
      if result == Ok || !live || result == NotFound {
        return Done;
      }
      return ArmRetry;
    }
  }
}

/**
 At-most-once delivery over all runs: users create, edit, delete and send drafts at any moment, the
 one outbox worker advances by single transactions and delivery attempts, any of its commits may
 fail, and the process may crash between any two steps and recover later.
 */
module OutboxProtocol {
  import opened Options
  import opened Ordering
  import opened OutboxStore
  import Smtp

  datatype Worker =
    | Idle
    | Claimed(row: RowId, draft: DraftId, account: AccountId)
    | Delivered(row: RowId, draft: DraftId, account: AccountId)
    | Settling(row: RowId, to: OutboxState)

  /** What the mail server accepted, in order: the ghost record the property is about. */
  datatype Acceptance = Acceptance(row: RowId, draft: DraftId)

  datatype State = State(db: Db, up: bool, worker: Worker, used: set<DraftId>, accepted: seq<Acceptance>)

  function Init(): State {
    State(Db(map[], map[]), false, Idle, {}, [])
  }

  datatype Step =
    | CreateDraft(d: DraftId, a: AccountId)
    | UpdateDraft(d: DraftId, a: AccountId)
    | DeleteDraft(d: DraftId)
    | QueueDraft(d: DraftId, now: int, id: RowId)
    | ClaimRow(r: RowId)
    | BuildFails
    | Attempt(dialogue: Smtp.Dialogue)
    | CommitSent(ok: bool)
    | CommitSettled(ok: bool)
    | Crash
    | Restart

  ghost predicate Enabled(s: State, step: Step) {
    match step
    case CreateDraft(d, _) => d !in s.used
    case UpdateDraft(d, _) => d in s.db.drafts
    case DeleteDraft(_) => true
    case QueueDraft(_, _, id) => id !in s.db.outbox
    case ClaimRow(r) => s.up && s.worker.Idle? && r in s.db.outbox && s.db.outbox[r].state == Queued
    case BuildFails => s.up && s.worker.Claimed?
    case Attempt(_) => s.up && s.worker.Claimed?
    case CommitSent(_) => s.up && s.worker.Delivered?
    case CommitSettled(_) => s.up && s.worker.Settling?
    case Crash => s.up
    case Restart => !s.up
  }

  /** A claimed row without a draft is settled as failed; otherwise the worker goes on to build it. */
  function DoClaim(s: State, r: RowId): State
    requires r in s.db.outbox
  {
    var row := s.db.outbox[r];
    s.(db := Claim(s.db, r).0,
    worker := if row.draft == None then Settling(r, Failed) else Claimed(r, row.draft.value, row.account))
  }

  /** One delivery attempt: the server may accept, and the sender reports what it could tell. */
  function DoAttempt(s: State, dialogue: Smtp.Dialogue): State
    requires s.worker.Claimed?
  {
    var w := s.worker;
    var accepted := if dialogue.ServerAccepts() then s.accepted + [Acceptance(w.row, w.draft)] else s.accepted;
    s.(accepted := accepted,
    worker := match Smtp.SendStatus(dialogue)
      case Sent => Delivered(w.row, w.draft, w.account)
      case Unknown => Settling(w.row, Unknown)
      case Failed => Settling(w.row, Failed))
  }

  /** Marks the delivered row; when that commit fails, the outcome is recorded as unknown instead. */
  function DoCommitSent(s: State, ok: bool): State
    requires s.worker.Delivered?
  {
    var w := s.worker;
    var (db, changed) := MarkSent(s.db, w.row, w.draft, w.account);
    if ok && changed then s.(db := db, worker := Idle) else s.(worker := Settling(w.row, Unknown))
  }

  /** Records the outcome; a failed commit is only logged and leaves the row in flight. */
  function DoCommitSettled(s: State, ok: bool): State
    requires s.worker.Settling?
  {
    s.(db := if ok then Settle(s.db, s.worker.row, s.worker.to).0 else s.db, worker := Idle)
  }

  ghost function Next(s: State, step: Step): State
    requires Enabled(s, step)
  {
    match step
    case CreateDraft(d, a) => s.(db := s.db.(drafts := s.db.drafts[d := a]), used := s.used + {d})
    case UpdateDraft(d, a) => s.(db := s.db.(drafts := s.db.drafts[d := a]))
    case DeleteDraft(d) => s.(db := Delete(s.db, d))
    case QueueDraft(d, now, id) => s.(db := Queue(s.db, d, now, id).0)
    case ClaimRow(r) => DoClaim(s, r)
    case BuildFails => s.(worker := Settling(s.worker.row, Failed))
    case Attempt(dialogue) => DoAttempt(s, dialogue)
    case CommitSent(ok) => DoCommitSent(s, ok)
    case CommitSettled(ok) => DoCommitSettled(s, ok)
    case Crash => s.(up := false, worker := Idle)
    case Restart => s.(db := Recover(s.db), up := true)
  }

  ghost predicate IsRun(s: State, steps: seq<Step>, s': State)
    decreases |steps|
  {
    if steps == [] then s == s'
    else Enabled(s, steps[0]) && IsRun(Next(s, steps[0]), steps[1..], s')
  }

  // ---- the condition on the clock ----

  /** The new row sorts after every row its draft already has, as it does when the clock has moved. */
  ghost predicate SortsLast(db: Db, d: DraftId, now: int, id: RowId) {
    forall r :: RowOf(db, d, r) ==> Earlier(db.outbox[r].createdAt, r, now, id)
  }

  /** A request to send that inserts a row inserts it last; the others may come at any time. */
  ghost predicate InOrder(s: State, step: Step) {
    step.QueueDraft? && Queue(s.db, step.d, step.now, step.id).1.Inserted? ==> SortsLast(s.db, step.d, step.now, step.id)
  }

  ghost predicate OrderedRun(s: State, steps: seq<Step>, s': State)
    decreases |steps|
  {
    if steps == [] then s == s'
    else Enabled(s, steps[0]) && InOrder(s, steps[0]) && OrderedRun(Next(s, steps[0]), steps[1..], s')
  }

  // ---- the invariant ----

  /** Every row of a draft but the newest has failed. */
  ghost predicate OnlyNewestOpen(db: Db) {
    forall r, q ::
      r in db.outbox && q in db.outbox && r != q && db.outbox[r].origin == db.outbox[q].origin
      && Earlier(db.outbox[r].createdAt, r, db.outbox[q].createdAt, q)
      ==> db.outbox[r].state == Failed
  }

  ghost predicate References(s: State) {
    && s.db.drafts.Keys <= s.used
    && (forall r :: r in s.db.outbox ==> s.db.outbox[r].origin in s.used)
    && (forall r :: r in s.db.outbox ==>
                      s.db.outbox[r].draft == if s.db.outbox[r].origin in s.db.drafts then Some(s.db.outbox[r].origin) else None)
  }

  predicate Accepted(s: State, r: RowId) {
    exists i :: 0 <= i < |s.accepted| && s.accepted[i].row == r
  }

  ghost predicate Recorded(s: State) {
    && (forall i :: 0 <= i < |s.accepted| ==>
                      var a := s.accepted[i];
                      && a.row in s.db.outbox && s.db.outbox[a.row].origin == a.draft
                      && s.db.outbox[a.row].state != Queued && s.db.outbox[a.row].state != Failed)
    && (forall i, j :: 0 <= i < j < |s.accepted| ==> s.accepted[i].row != s.accepted[j].row)
  }

  ghost predicate WorkerHolds(s: State) {
    && (!s.up ==> s.worker.Idle?)
    && (!s.worker.Idle? ==> s.worker.row in s.db.outbox && s.db.outbox[s.worker.row].state == Sending)
    && (s.worker.Claimed? ==> s.db.outbox[s.worker.row].origin == s.worker.draft && !Accepted(s, s.worker.row))
    && (s.worker.Settling? ==> s.worker.to == Unknown || (s.worker.to == Failed && !Accepted(s, s.worker.row)))
  }

  /** What every run keeps, in whatever order rows are inserted. */
  ghost predicate Booked(s: State) {
    References(s) && Recorded(s) && WorkerHolds(s)
  }

  ghost predicate Inv(s: State) {
    OnlyNewestOpen(s.db) && Booked(s)
  }

  // ---- every step keeps it ----

  lemma AttemptKeepsBooked(s: State, dialogue: Smtp.Dialogue)
    requires Booked(s) && s.up && s.worker.Claimed?
    ensures Booked(DoAttempt(s, dialogue))
  {
    assert Accepted(DoAttempt(s, dialogue), s.worker.row) ==> dialogue.ServerAccepts();
  }

  lemma CommitSentKeepsBooked(s: State, ok: bool)
    requires Booked(s) && s.up && s.worker.Delivered?
    ensures Booked(DoCommitSent(s, ok))
  {
  }

  lemma StepKeepsBooked(s: State, step: Step)
    requires Booked(s) && Enabled(s, step)
    ensures Booked(Next(s, step))
  {
    match step
    case Attempt(dialogue) => AttemptKeepsBooked(s, dialogue);
    case CommitSent(ok) => CommitSentKeepsBooked(s, ok);
    case CreateDraft(_, _) =>
    case UpdateDraft(_, _) =>
    case DeleteDraft(_) =>
    case QueueDraft(_, _, _) =>
    case ClaimRow(_) =>
    case BuildFails =>
    case CommitSettled(_) =>
    case Crash =>
    case Restart =>
  }

  lemma {:induction false} RunKeepsBooked(s: State, steps: seq<Step>, s': State)
    requires Booked(s) && IsRun(s, steps, s')
    ensures Booked(s')
    decreases |steps|
  {
    if steps != [] {
      StepKeepsBooked(s, steps[0]);
      RunKeepsBooked(Next(s, steps[0]), steps[1..], s');
    }
  }

  lemma QueueKeeps(s: State, d: DraftId, now: int, id: RowId)
    requires Inv(s) && id !in s.db.outbox
    requires Queue(s.db, d, now, id).1.Inserted? ==> SortsLast(s.db, d, now, id)
    ensures Inv(s.(db := Queue(s.db, d, now, id).0))
  {
    var (db, result) := Queue(s.db, d, now, id);
    if result.Inserted? {
      var latest := Latest(s.db, d);
      forall r | r in s.db.outbox && s.db.outbox[r].origin == d
        ensures s.db.outbox[r].state == Failed && Earlier(s.db.outbox[r].createdAt, r, now, id)
      {
        assert RowOf(s.db, d, r);
        assert IsLatest(s.db, d, latest.value);
      }
      assert forall r :: r in db.outbox && r != id ==> db.outbox[r] == s.db.outbox[r];
    }
  }

  lemma ShiftKeepsOrder(db: Db, r: RowId, from: OutboxState, to: OutboxState)
    requires OnlyNewestOpen(db) && from != Failed
    ensures OnlyNewestOpen(Shift(db, r, from, to).0)
  {
  }

  lemma ClaimKeeps(s: State, r: RowId)
    requires Inv(s) && Enabled(s, ClaimRow(r))
    ensures Inv(DoClaim(s, r))
  {
    ShiftKeepsOrder(s.db, r, Queued, Sending);
  }

  lemma AttemptKeeps(s: State, dialogue: Smtp.Dialogue)
    requires Inv(s) && s.up && s.worker.Claimed?
    ensures Inv(DoAttempt(s, dialogue))
  {
    var s' := DoAttempt(s, dialogue);
    var r := s.worker.row;
    assert Accepted(s', r) ==> dialogue.ServerAccepts();
  }

  lemma DeleteKeeps(s: State, d: DraftId)
    requires Inv(s)
    ensures Inv(s.(db := Delete(s.db, d)))
  {
  }

  lemma CommitSentKeeps(s: State, ok: bool)
    requires Inv(s) && s.up && s.worker.Delivered?
    ensures Inv(DoCommitSent(s, ok))
  {
    var w := s.worker;
    var (db, changed) := Shift(s.db, w.row, Sending, Sent);
    ShiftKeepsOrder(s.db, w.row, Sending, Sent);
    if ok && changed {
      var mid := s.(db := db, worker := Idle);
      assert Inv(mid);
      DeleteKeeps(mid, w.draft);
    }
  }

  lemma CommitSettledKeeps(s: State, ok: bool)
    requires Inv(s) && s.up && s.worker.Settling?
    ensures Inv(DoCommitSettled(s, ok))
  {
    ShiftKeepsOrder(s.db, s.worker.row, Sending, s.worker.to);
  }

  lemma StepKeepsInv(s: State, step: Step)
    requires Inv(s) && Enabled(s, step) && InOrder(s, step)
    ensures Inv(Next(s, step))
  {
    match step
    case CreateDraft(_, _) =>
    case UpdateDraft(_, _) =>
    case DeleteDraft(d) => DeleteKeeps(s, d);
    case QueueDraft(d, now, id) => QueueKeeps(s, d, now, id);
    case ClaimRow(r) => ClaimKeeps(s, r);
    case BuildFails =>
    case Attempt(dialogue) => AttemptKeeps(s, dialogue);
    case CommitSent(ok) => CommitSentKeeps(s, ok);
    case CommitSettled(ok) => CommitSettledKeeps(s, ok);
    case Crash =>
    case Restart =>
  }

  lemma {:induction false} RunKeepsInv(s: State, steps: seq<Step>, s': State)
    requires Inv(s) && OrderedRun(s, steps, s')
    ensures Inv(s')
    decreases |steps|
  {
    if steps != [] {
      StepKeepsInv(s, steps[0]);
      RunKeepsInv(Next(s, steps[0]), steps[1..], s');
    }
  }

  // ---- the theorems ----

  ghost predicate AtMostOnce(s: State) {
    forall i, j :: 0 <= i < j < |s.accepted| ==> s.accepted[i].draft != s.accepted[j].draft
  }

  /** A failed row was not accepted by the server, and an accepted one is never reported as failed. */
  ghost predicate FailedMeansNotAccepted(s: State) {
    forall r :: r in s.db.outbox && s.db.outbox[r].state == Failed ==> !Accepted(s, r)
  }

  /** Over every run: a failed row was not accepted by the server, and no row is accepted twice. */
  lemma FailedIsNotAccepted(steps: seq<Step>, s: State)
    requires IsRun(Init(), steps, s)
    ensures FailedMeansNotAccepted(s)
    ensures forall i, j :: 0 <= i < j < |s.accepted| ==> s.accepted[i].row != s.accepted[j].row
  {
    RunKeepsBooked(Init(), steps, s);
  }

  /**
   Over every run with crashes, failing commits, deletions and repeated send requests, in which a row
   that is inserted always sorts after the older rows of its draft: the server accepts each draft at most once, all
   rows of a draft but the newest have failed, and a failed row was not accepted.
   */
  lemma AtMostOnceDelivery(steps: seq<Step>, s: State)
    requires OrderedRun(Init(), steps, s)
    ensures AtMostOnce(s)
    ensures OnlyNewestOpen(s.db)
    ensures FailedMeansNotAccepted(s)
  {
    RunKeepsInv(Init(), steps, s);
    forall i, j | 0 <= i < j < |s.accepted|
      ensures s.accepted[i].draft != s.accepted[j].draft
    {
      var r, q := s.accepted[i].row, s.accepted[j].row;
      assert Earlier(s.db.outbox[r].createdAt, r, s.db.outbox[q].createdAt, q)
          || Earlier(s.db.outbox[q].createdAt, q, s.db.outbox[r].createdAt, r);
    }
  }

  /** A clock that has moved on since the draft's newest row makes the new row sort last. */
  lemma LaterClockSortsLast(db: Db, d: DraftId, now: int, id: RowId)
    requires forall r :: RowOf(db, d, r) ==> db.outbox[r].createdAt < now
    ensures SortsLast(db, d, now, id)
  {
  }

  // ---- why the order of rows matters ----

  lemma {:induction false} RunsJoin(s: State, xs: seq<Step>, u: State, ys: seq<Step>, v: State)
    requires IsRun(s, xs, u) && IsRun(u, ys, v)
    ensures IsRun(s, xs + ys, v)
    decreases |xs|
  {
    if xs == [] {
      assert xs + ys == ys;
    } else {
      RunsJoin(Next(s, xs[0]), xs[1..], u, ys, v);
      assert (xs + ys)[1..] == xs[1..] + ys;
    }
  }

  lemma OneStep(s: State, step: Step)
    requires Enabled(s, step)
    ensures IsRun(s, [step], Next(s, step))
  {
    assert IsRun(Next(s, step), [], Next(s, step));
    assert [step][1..] == [];
  }

  /** A dialogue in which every stage succeeds. */
  const ALL_GOOD := Smtp.Dialogue(true, true, true, true, [], true, true, false, Smtp.Accepted)

  /** The worker takes a queued row, the server accepts it, and the local commit of that fails. */
  lemma AcceptedThenUnknown(s: State, r: RowId) returns (steps: seq<Step>, s': State)
    requires s.up && s.worker.Idle? && r in s.db.outbox
    requires s.db.outbox[r].state == Queued && s.db.outbox[r].draft.Some?
    ensures IsRun(s, steps, s') && s'.up && s'.worker.Idle?
    ensures s'.accepted == s.accepted + [Acceptance(r, s.db.outbox[r].draft.value)]
    ensures s'.db == s.db.(outbox := s.db.outbox[r := s.db.outbox[r].(state := Unknown)])
  {
    var s1 := Next(s, ClaimRow(r));
    var s2 := Next(s1, Attempt(ALL_GOOD));
    var s3 := Next(s2, CommitSent(false));
    s' := Next(s3, CommitSettled(true));
    OneStep(s, ClaimRow(r));
    OneStep(s1, Attempt(ALL_GOOD));
    OneStep(s2, CommitSent(false));
    OneStep(s3, CommitSettled(true));
    RunsJoin(s, [ClaimRow(r)], s1, [Attempt(ALL_GOOD)], s2);
    RunsJoin(s, [ClaimRow(r)] + [Attempt(ALL_GOOD)], s2, [CommitSent(false)], s3);
    RunsJoin(s, [ClaimRow(r)] + [Attempt(ALL_GOOD)] + [CommitSent(false)], s3, [CommitSettled(true)], s');
    steps := [ClaimRow(r)] + [Attempt(ALL_GOOD)] + [CommitSent(false)] + [CommitSettled(true)];
  }

  lemma FreshRow(outbox: map<RowId, Row>) returns (id: RowId)
    ensures id !in outbox
  {
    var rest := outbox.Keys;
    id := 0;
    while rest != {}
      invariant rest <= outbox.Keys
      invariant forall r :: r in outbox && r !in rest ==> r < id
      decreases |rest|
    {
      var r :| r in rest;
      id := if r < id then id else r + 1;
      rest := rest - {r};
    }
  }

  /** The rows are those of `db`, each where it was or further on; a failed row stays failed. */
  predicate Later(db: Db, db': Db) {
    && db'.drafts == db.drafts && db'.outbox.Keys == db.outbox.Keys
    && forall r :: r in db.outbox ==>
         && db'.outbox[r] == db.outbox[r].(state := db'.outbox[r].state)
         && (db.outbox[r].state == Failed ==> db'.outbox[r].state == Failed)
  }

  /** A row inserted out of order leaves an older, failed row the latest of its draft, whatever becomes of it. */
  lemma OutOfOrderHidesRow(db: Db, d: DraftId, now: int, id: RowId, db': Db)
    requires id !in db.outbox && Queue(db, d, now, id).1 == Inserted(id) && !SortsLast(db, d, now, id)
    requires Later(Queue(db, d, now, id).0, db')
    ensures Latest(db, d).Some? && Latest(db', d) == Latest(db, d) && db'.outbox[Latest(db, d).value].state == Failed
  {
    var outbox := Queue(db, d, now, id).0.outbox;
    var r :| RowOf(db, d, r) && !Earlier(db.outbox[r].createdAt, r, now, id);
    var top := Latest(db, d).value;
    assert IsLatest(db, d, top);
    assert outbox[top] == db.outbox[top] && db'.outbox[top].state == Failed;
    assert Earlier(now, id, db.outbox[top].createdAt, top);
    assert IsLatest(db', d, top) by {
      forall q | RowOf(db', d, q) && q != top
        ensures Earlier(db'.outbox[q].createdAt, q, db'.outbox[top].createdAt, top)
      {
        assert q in outbox && (q != id ==> outbox[q] == db.outbox[q] && RowOf(db, d, q));
      }
    }
    LatestUnique(db', d, top);
  }

  /** A crash and a restart get the worker idle; only rows in flight change. */
  lemma Rested(s: State) returns (steps: seq<Step>, s': State)
    requires !s.up ==> s.worker.Idle?
    ensures IsRun(s, steps, s') && s'.up && s'.worker.Idle? && s'.db == Recover(s.db) && s'.accepted == s.accepted
  {
    if s.up {
      var down := Next(s, Crash);
      OneStep(s, Crash);
      OneStep(down, Restart);
      RunsJoin(s, [Crash], down, [Restart], Next(down, Restart));
      steps, s' := [Crash] + [Restart], Next(down, Restart);
    } else {
      OneStep(s, Restart);
      steps, s' := [Restart], Next(s, Restart);
    }
  }

  /** A queued row is taken, accepted by the server and not recorded as such. */
  lemma DeliveredAgain(s: State, d: DraftId, r: RowId) returns (steps: seq<Step>, s': State)
    requires r in s.db.outbox && s.db.outbox[r].state == Queued && s.db.outbox[r].draft == Some(d)
    requires !s.up ==> s.worker.Idle?
    ensures IsRun(s, steps, s') && s'.up && s'.accepted == s.accepted + [Acceptance(r, d)] && Later(s.db, s'.db)
  {
    var first, rested := Rested(s);
    var second;
    second, s' := AcceptedThenUnknown(rested, r);
    RunsJoin(s, first, rested, second, s');
    steps := first + second;
  }

  /**
   The condition of `AtMostOnceDelivery` is exact: in whatever reachable state a row is inserted that does
   not sort after the rows its draft has, some continuation makes the server accept the draft twice.
   */
  lemma OutOfOrderRowCanDeliverTwice(before: seq<Step>, s: State, d: DraftId, now: int, id: RowId)
      returns (steps: seq<Step>, s': State)
    requires OrderedRun(Init(), before, s) && Enabled(s, QueueDraft(d, now, id))
    requires !InOrder(s, QueueDraft(d, now, id))
    ensures IsRun(s, [QueueDraft(d, now, id)] + steps, s') && !AtMostOnce(s')
  {
    RunKeepsInv(Init(), before, s);
    var s1 := Next(s, QueueDraft(d, now, id));
    OneStep(s, QueueDraft(d, now, id));
    var first, s2 := DeliveredAgain(s1, d, id);
    OutOfOrderHidesRow(s.db, d, now, id, s2.db);
    var id2 := FreshRow(s2.db.outbox);
    var s3 := Next(s2, QueueDraft(d, now + 1, id2));
    OneStep(s2, QueueDraft(d, now + 1, id2));
    var second;
    second, s' := DeliveredAgain(s3, d, id2);
    RunsJoin(s2, [QueueDraft(d, now + 1, id2)], s3, second, s');
    RunsJoin(s1, first, s2, [QueueDraft(d, now + 1, id2)] + second, s');
    steps := first + ([QueueDraft(d, now + 1, id2)] + second);
    RunsJoin(s, [QueueDraft(d, now, id)], s1, steps, s');
    assert s'.accepted[|s.accepted|].draft == d && s'.accepted[|s.accepted| + 1].draft == d;
  }

  lemma {:induction false} OrderedThen(s: State, steps: seq<Step>, u: State, step: Step)
    requires OrderedRun(s, steps, u) && Enabled(u, step) && InOrder(u, step)
    ensures OrderedRun(s, steps + [step], Next(u, step))
    decreases |steps|
  {
    if steps == [] {
      assert OrderedRun(Next(u, step), [], Next(u, step));
      assert ([step])[1..] == [];
    } else {
      OrderedThen(Next(s, steps[0]), steps[1..], u, step);
      assert (steps + [step])[1..] == steps[1..] + [step];
    }
  }

  /** A draft is queued under the identifier 5 and claimed. */
  lemma FirstRowIsClaimed() returns (steps: seq<Step>, s: State)
    ensures OrderedRun(Init(), steps, s)
    ensures s == State(Db(map[0 := 0], map[5 := Row(0, Some(0), 0, Sending, 0)]), true, Claimed(5, 0, 0), {0}, [])
  {
    assert OrderedRun(Init(), [], Init());
    OrderedThen(Init(), [], Init(), Restart);
    steps, s := [] + [Restart], Next(Init(), Restart);
    assert s.db.outbox == map[];
    OrderedThen(Init(), steps, s, CreateDraft(0, 0));
    steps, s := steps + [CreateDraft(0, 0)], Next(s, CreateDraft(0, 0));
    OrderedThen(Init(), steps, s, QueueDraft(0, 0, 5));
    steps, s := steps + [QueueDraft(0, 0, 5)], Next(s, QueueDraft(0, 0, 5));
    OrderedThen(Init(), steps, s, ClaimRow(5));
    steps, s := steps + [ClaimRow(5)], Next(s, ClaimRow(5));
  }

  /** Its message cannot be built, so the row fails within the same millisecond. */
  lemma FirstRowFails() returns (steps: seq<Step>, s: State)
    ensures OrderedRun(Init(), steps, s)
    ensures s.db == Db(map[0 := 0], map[5 := Row(0, Some(0), 0, Failed, 0)])
  {
    var u;
    steps, u := FirstRowIsClaimed();
    OrderedThen(Init(), steps, u, BuildFails);
    steps, u := steps + [BuildFails], Next(u, BuildFails);
    OrderedThen(Init(), steps, u, CommitSettled(true));
    steps, s := steps + [CommitSettled(true)], Next(u, CommitSettled(true));
  }

  /** A run in which the next row of the draft gets a smaller identifier, and the server accepts the draft twice. */
  lemma DraftIsDeliveredTwice() returns (before: seq<Step>, s: State, request: Step, after: seq<Step>, s': State)
    ensures OrderedRun(Init(), before, s) && Enabled(s, request) && !InOrder(s, request)
    ensures IsRun(s, [request] + after, s') && !AtMostOnce(s')
  {
    before, s := FirstRowFails();
    request := QueueDraft(0, 0, 3);
    assert IsLatest(s.db, 0, 5);
    LatestUnique(s.db, 0, 5);
    after, s' := OutOfOrderRowCanDeliverTwice(before, s, 0, 0, 3);
  }
}

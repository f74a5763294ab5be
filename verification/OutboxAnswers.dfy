/**
 What a user is told: the answer to a request to send, and the state a row ends in, judged by the
 tables and by what the mail server accepted.
 */
module OutboxAnswers {
  import opened Options
  import opened Ordering
  import opened OutboxStore
  import opened OutboxProtocol
  import Smtp

  // ---- the answer to one request ----

  /** The row of the draft that was created last; of rows created at the same time, the one with the largest id. */
  ghost predicate OnTop(db: Db, d: DraftId, r: RowId) {
    && r in db.outbox && db.outbox[r].draft == Some(d)
    && forall q :: q in db.outbox && db.outbox[q].draft == Some(d) && q != r ==>
         db.outbox[q].createdAt < db.outbox[r].createdAt || (db.outbox[q].createdAt == db.outbox[r].createdAt && q < r)
  }

  ghost predicate TopIs(db: Db, d: DraftId, states: set<OutboxState>) {
    exists r :: OnTop(db, d, r) && db.outbox[r].state in states
  }

  lemma TopIsLatest(db: Db, d: DraftId, r: RowId)
    ensures OnTop(db, d, r) <==> Latest(db, d) == Some(r)
  {
    if OnTop(db, d, r) {
      assert IsLatest(db, d, r);
      LatestUnique(db, d, r);
    } else if Latest(db, d) == Some(r) {
      assert IsLatest(db, d, r);
      forall q | q in db.outbox && db.outbox[q].draft == Some(d) && q != r
        ensures db.outbox[q].createdAt < db.outbox[r].createdAt || (db.outbox[q].createdAt == db.outbox[r].createdAt && q < r)
      {
        assert RowOf(db, d, q);
      }
    }
  }

  /**
   A draft that is not there is not found. One whose last row is queued keeps that row; one whose last row
   is in flight, sent or unknown is refused; any other gets a new queued row. Only the last changes anything.
   */
  lemma AnswerFollowsLastRow(db: Db, d: DraftId, now: int, id: RowId)
    ensures var (db', answer) := Queue(db, d, now, id);
      && (answer == NotFound <==> d !in db.drafts)
      && (answer == Conflict <==> d in db.drafts && TopIs(db, d, {Sending, Sent, Unknown}))
      && (forall r :: answer == Existing(r) <==> d in db.drafts && OnTop(db, d, r) && db.outbox[r].state == Queued)
      && (answer.Inserted? <==> d in db.drafts && !TopIs(db, d, {Queued, Sending, Sent, Unknown}))
      && (answer.Inserted? ==> answer.row == id && db'.drafts == db.drafts
                               && db'.outbox == db.outbox[id := Row(d, Some(d), db.drafts[d], Queued, now)])
      && (!answer.Inserted? ==> db' == db)
  {
    forall r: RowId
      ensures OnTop(db, d, r) <==> Latest(db, d) == Some(r)
    {
      TopIsLatest(db, d, r);
    }
    var latest := Latest(db, d);
    if latest.Some? {
      assert OnTop(db, d, latest.value);
    }
  }

  // ---- over whole runs ----

  /**
   Over every run: the row that a request is answered with belongs to the draft, waits to be sent, and was
   not accepted by the server.
   */
  lemma AnsweredRowWaits(steps: seq<Step>, s: State, d: DraftId, now: int, id: RowId)
    requires IsRun(Init(), steps, s) && Enabled(s, QueueDraft(d, now, id))
    ensures var (db, answer) := Queue(s.db, d, now, id);
      answer.Existing? || answer.Inserted? ==>
        && answer.row in db.outbox && db.outbox[answer.row].draft == Some(d) && db.outbox[answer.row].state == Queued
        && !Accepted(s, answer.row)
  {
    RunKeepsBooked(Init(), steps, s);
    AnswerFollowsLastRow(s.db, d, now, id);
  }

  /** Where rows are inserted in order, an accepted row of a draft is the last one the draft has. */
  lemma AcceptedIsOnTop(s: State, i: nat)
    requires Inv(s) && i < |s.accepted| && s.accepted[i].draft in s.db.drafts
    ensures OnTop(s.db, s.accepted[i].draft, s.accepted[i].row)
    ensures s.db.outbox[s.accepted[i].row].state in {Sending, Sent, Unknown}
  {
    var r, d := s.accepted[i].row, s.accepted[i].draft;
    assert s.db.outbox[r].origin == d && s.db.outbox[r].draft == Some(d);
    assert s.db.outbox[r].state != Queued && s.db.outbox[r].state != Failed;
    forall q | q in s.db.outbox && s.db.outbox[q].draft == Some(d) && q != r
      ensures Earlier(s.db.outbox[q].createdAt, q, s.db.outbox[r].createdAt, r)
    {
      assert s.db.outbox[q].origin == d;
    }
  }

  /**
   Over runs whose inserted rows sort last: a request for a draft that the server accepted is refused as
   long as the draft is there, and not found after that.
   */
  lemma AcceptedDraftIsRefused(steps: seq<Step>, s: State, i: nat, now: int, id: RowId)
    requires OrderedRun(Init(), steps, s) && i < |s.accepted|
    ensures Queue(s.db, s.accepted[i].draft, now, id) ==
            (s.db, if s.accepted[i].draft in s.db.drafts then Conflict else NotFound)
  {
    RunKeepsInv(Init(), steps, s);
    AnswerFollowsLastRow(s.db, s.accepted[i].draft, now, id);
    if s.accepted[i].draft in s.db.drafts {
      AcceptedIsOnTop(s, i);
    }
  }

  // ---- what a row's state says ----

  /** What is delivered or sent was accepted. */
  ghost predicate Told(s: State) {
    && (forall r :: r in s.db.outbox && s.db.outbox[r].state == Sent ==> Accepted(s, r))
    && (s.worker.Delivered? ==> Accepted(s, s.worker.row))
  }

  lemma AttemptKeepsTold(s: State, dialogue: Smtp.Dialogue)
    requires Told(s) && s.worker.Claimed?
    ensures Told(DoAttempt(s, dialogue))
  {
    var s' := DoAttempt(s, dialogue);
    forall r | Accepted(s, r)
      ensures Accepted(s', r)
    {
      var i :| 0 <= i < |s.accepted| && s.accepted[i].row == r;
      assert s'.accepted[i] == s.accepted[i];
    }
    if dialogue.ServerAccepts() {
      assert s'.accepted[|s.accepted|].row == s.worker.row;
    }
  }

  lemma StepKeepsTold(s: State, step: Step)
    requires Booked(s) && Told(s) && Enabled(s, step)
    ensures Told(Next(s, step))
  {
    if step.Attempt? {
      AttemptKeepsTold(s, step.dialogue);
    } else {
      assert forall r :: Accepted(s, r) ==> Accepted(Next(s, step), r);
    }
  }

  lemma {:induction false} RunKeepsTold(s: State, steps: seq<Step>, s': State)
    requires Booked(s) && Told(s) && IsRun(s, steps, s')
    ensures Booked(s') && Told(s')
    decreases |steps|
  {
    if steps != [] {
      StepKeepsBooked(s, steps[0]);
      StepKeepsTold(s, steps[0]);
      RunKeepsTold(Next(s, steps[0]), steps[1..], s');
    }
  }

  /** Over every run: a row said to be sent was accepted, and a queued or failed one was not. */
  lemma StateTellsAcceptance(steps: seq<Step>, s: State, r: RowId)
    requires IsRun(Init(), steps, s) && r in s.db.outbox
    ensures s.db.outbox[r].state == Sent ==> Accepted(s, r)
    ensures s.db.outbox[r].state == Queued || s.db.outbox[r].state == Failed ==> !Accepted(s, r)
  {
    RunKeepsTold(Init(), steps, s);
  }

  /**
   Over every run: when the worker records a delivery, the row is sent and its draft is deleted, unless it was
   moved to another account; rows and drafts of other messages stay as they are.
   */
  lemma RecordedDeliveryEndsDraft(steps: seq<Step>, s: State)
    requires IsRun(Init(), steps, s) && Enabled(s, CommitSent(true))
    ensures var w, db, db' := s.worker, s.db, Next(s, CommitSent(true)).db;
      && w.row in db'.outbox && db'.outbox[w.row].state == Sent
      && (forall d :: d in db'.drafts <==> d in db.drafts && (d == w.draft ==> db.drafts[d] != w.account))
      && (forall d :: d in db'.drafts ==> db'.drafts[d] == db.drafts[d])
      && db'.outbox.Keys == db.outbox.Keys
      && (forall r :: r in db.outbox && r != w.row && db.outbox[r].origin != w.draft ==> db'.outbox[r] == db.outbox[r])
      && (forall r :: r in db.outbox && r != w.row ==> db'.outbox[r].state == db.outbox[r].state)
  {
    RunKeepsBooked(Init(), steps, s);
  }

  /** Deleting a draft, in any run: the rows stay, and exactly those of the draft lose it. */
  lemma DeletionDetaches(steps: seq<Step>, s: State, d: DraftId)
    requires IsRun(Init(), steps, s)
    ensures var db' := Next(s, DeleteDraft(d)).db;
      && d !in db'.drafts && (forall e :: e != d ==> (e in db'.drafts <==> e in s.db.drafts))
      && (forall e :: e in db'.drafts ==> db'.drafts[e] == s.db.drafts[e])
      && db'.outbox.Keys == s.db.outbox.Keys
      && forall r :: r in s.db.outbox ==>
           db'.outbox[r] == s.db.outbox[r].(draft := if s.db.outbox[r].origin == d then None else s.db.outbox[r].draft)
  {
    RunKeepsBooked(Init(), steps, s);
  }

  /** A restart leaves nothing in flight, calls exactly the rows in flight unknown, and changes no other. */
  lemma RestartSettlesFlight(s: State)
    requires Enabled(s, Restart)
    ensures var db' := Next(s, Restart).db;
      && db'.drafts == s.db.drafts && db'.outbox.Keys == s.db.outbox.Keys
      && forall r :: r in s.db.outbox ==>
           && db'.outbox[r].state != Sending
           && if s.db.outbox[r].state == Sending then db'.outbox[r] == s.db.outbox[r].(state := Unknown)
              else db'.outbox[r] == s.db.outbox[r]
  {
  }

  /** A claimed row whose draft is gone ends as failed; any other goes on with its own draft and account. */
  lemma ClaimGoesOn(s: State, r: RowId)
    requires Enabled(s, ClaimRow(r))
    ensures var s', row := Next(s, ClaimRow(r)), s.db.outbox[r];
      && s'.db == s.db.(outbox := s.db.outbox[r := row.(state := Sending)]) && s'.accepted == s.accepted
      && (row.draft == None ==> s'.worker == Settling(r, Failed) && Next(s', CommitSettled(true)).db.outbox[r].state == Failed)
      && (row.draft.Some? ==> s'.worker == Claimed(r, row.draft.value, row.account))
  {
  }

  /**
   In any run, what the worker is about to record after an attempt: sent when the server said so at the end, unknown
   when the client lost track after the message data was asked for, failed otherwise. What the server took is noted.
   */
  lemma AttemptIsReported(steps: seq<Step>, s: State, dialogue: Smtp.Dialogue)
    requires IsRun(Init(), steps, s) && Enabled(s, Attempt(dialogue))
    ensures var s', w := Next(s, Attempt(dialogue)), s.worker;
      && s'.db == s.db
      && s'.accepted == (if dialogue.ServerAccepts() then s.accepted + [Acceptance(w.row, w.draft)] else s.accepted)
      && s'.worker == if !dialogue.ReachesData() then Settling(w.row, Failed)
                      else if !dialogue.copyOk || dialogue.end.Lost? then Settling(w.row, Unknown)
                      else if dialogue.end.Rejected? then Settling(w.row, Failed)
                      else Delivered(w.row, w.draft, w.account)
  {
  }

  /** A message that cannot be built fails, and a settled row gets the status it was to get, unless the commit fails. */
  lemma SettledAsDecided(steps: seq<Step>, s: State, ok: bool)
    requires IsRun(Init(), steps, s)
    ensures Enabled(s, BuildFails) ==> Next(s, BuildFails) == s.(worker := Settling(s.worker.row, Failed))
    ensures Enabled(s, CommitSettled(ok)) ==>
              var r := s.worker.row;
              && r in s.db.outbox && Next(s, CommitSettled(ok)).worker == Idle
              && Next(s, CommitSettled(ok)).db ==
                 if ok then s.db.(outbox := s.db.outbox[r := s.db.outbox[r].(state := s.worker.to)]) else s.db
  {
    RunKeepsBooked(Init(), steps, s);
  }
}

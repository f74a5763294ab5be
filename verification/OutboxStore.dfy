/**
 Drafts and outbox rows, and the transactions on them. Each transaction is one atomic step, given
 as a function on a snapshot and as a method of `Mailroom` proved to do what the function says.
 */
module OutboxStore {
  import opened Options
  import opened Ordering

  type DraftId = nat
  type AccountId = nat
  type RowId = nat

  datatype OutboxState = Queued | Sending | Sent | Failed | Unknown

  /** `origin` remembers whose row it is after the deletion of the draft has emptied `draft`. */
  datatype Row = Row(origin: DraftId, draft: Option<DraftId>, account: AccountId, state: OutboxState, createdAt: int)

  datatype Db = Db(drafts: map<DraftId, AccountId>, outbox: map<RowId, Row>)

  /** A row is queued with its creation time as the time of its next attempt. */
  predicate Due(row: Row, now: int) {
    row.state == Queued && row.createdAt <= now
  }

  predicate RowOf(db: Db, d: DraftId, r: RowId) {
    r in db.outbox && db.outbox[r].draft == Some(d)
  }

  /** `r` is the row that ORDER BY created_at DESC, id DESC LIMIT 1 finds for draft `d`. */
  ghost predicate IsLatest(db: Db, d: DraftId, r: RowId) {
    && RowOf(db, d, r)
    && forall q :: RowOf(db, d, q) && q != r ==> Earlier(db.outbox[q].createdAt, q, db.outbox[r].createdAt, r)
  }

  ghost function Latest(db: Db, d: DraftId): (latest: Option<RowId>)
    ensures latest == None <==> forall r :: !RowOf(db, d, r)
    ensures latest.Some? ==> IsLatest(db, d, latest.value)
  {
    if exists r :: RowOf(db, d, r) then
      HasLatest(db, d);
      var r :| IsLatest(db, d, r);
      Some(r)
    else None
  }

  lemma HasLatest(db: Db, d: DraftId)
    requires exists r :: RowOf(db, d, r)
    ensures exists r :: IsLatest(db, d, r)
  {
    var best :| RowOf(db, d, best);
    var rest := (set r | r in db.outbox && RowOf(db, d, r)) - {best};
    while rest != {}
      invariant RowOf(db, d, best)
      invariant rest <= set r | r in db.outbox && RowOf(db, d, r)
      invariant best !in rest
      invariant forall q :: RowOf(db, d, q) && q != best && q !in rest ==>
                              Earlier(db.outbox[q].createdAt, q, db.outbox[best].createdAt, best)
      decreases |rest|
    {
      var q :| q in rest;
      if Earlier(db.outbox[best].createdAt, best, db.outbox[q].createdAt, q) {
        best := q;
      }
      rest := rest - {q};
    }
    assert IsLatest(db, d, best);
  }

  lemma LatestUnique(db: Db, d: DraftId, r: RowId)
    requires IsLatest(db, d, r)
    ensures Latest(db, d) == Some(r)
  {
    assert RowOf(db, d, r);
    var q := Latest(db, d).value;
    assert q != r ==> Earlier(db.outbox[q].createdAt, q, db.outbox[r].createdAt, r);
  }

  datatype QueueResult = NotFound | Conflict | Existing(row: RowId) | Inserted(row: RowId)

  /** Whether and how a request to send draft `d` enters the outbox; `id` is the fresh row's name. */
  ghost function Queue(db: Db, d: DraftId, now: int, id: RowId): (Db, QueueResult) {
    if d !in db.drafts then (db, NotFound)
    else
      var latest := Latest(db, d);
      if latest.Some? && db.outbox[latest.value].state == Queued then (db, Existing(latest.value))
      else if latest.Some? && db.outbox[latest.value].state != Failed then (db, Conflict)
      else (db.(outbox := db.outbox[id := Row(d, Some(d), db.drafts[d], Queued, now)]), Inserted(id))
  }

  /** Deleting a draft empties the reference its rows hold. */
  function Detach(outbox: map<RowId, Row>, d: DraftId): map<RowId, Row> {
    map r | r in outbox :: if outbox[r].draft == Some(d) then outbox[r].(draft := None) else outbox[r]
  }

  function Delete(db: Db, d: DraftId): Db {
    if d in db.drafts then Db(db.drafts - {d}, Detach(db.outbox, d)) else db
  }

  /** Moves a row on, but only out of the state it must be in. */
  function Shift(db: Db, r: RowId, from: OutboxState, to: OutboxState): (Db, bool) {
    if r in db.outbox && db.outbox[r].state == from then (db.(outbox := db.outbox[r := db.outbox[r].(state := to)]), true)
    else (db, false)
  }

  function Claim(db: Db, r: RowId): (Db, bool) { Shift(db, r, Queued, Sending) }

  function Settle(db: Db, r: RowId, to: OutboxState): (Db, bool) { Shift(db, r, Sending, to) }

  /** Marks the row sent and deletes its draft, unless the draft moved to another account. */
  function MarkSent(db: Db, r: RowId, d: DraftId, a: AccountId): (Db, bool) {
    var (db', ok) := Shift(db, r, Sending, Sent);
    if ok && d in db'.drafts && db'.drafts[d] == a then (Delete(db', d), true) else (db', ok)
  }

  /** On start every row left in flight becomes unknown. */
  function Recover(db: Db): Db {
    db.(outbox := map r | r in db.outbox ::
      if db.outbox[r].state == Sending then db.outbox[r].(state := Unknown) else db.outbox[r])
  }

  class Mailroom {
    var drafts: map<DraftId, AccountId>
    var outbox: map<RowId, Row>

    ghost function View(): Db
      reads this
    {
      Db(drafts, outbox)
    }

    /** The newest row of a draft, if there is one. */
    method LatestRow(d: DraftId) returns (latest: Option<RowId>)
      ensures latest == Latest(View(), d)
    {
      latest := None;
      var rest := outbox.Keys;
      while rest != {}
        invariant rest <= outbox.Keys
        invariant latest == None ==> forall q :: RowOf(View(), d, q) ==> q in rest
        invariant latest.Some? ==> RowOf(View(), d, latest.value) && latest.value !in rest
        invariant latest.Some? ==> forall q :: RowOf(View(), d, q) && q != latest.value && q !in rest ==>
                      Earlier(outbox[q].createdAt, q, outbox[latest.value].createdAt, latest.value)
        decreases |rest|
      {
        var q :| q in rest;
        rest := rest - {q};
        if outbox[q].draft == Some(d) {
          if latest == None || Earlier(outbox[latest.value].createdAt, latest.value, outbox[q].createdAt, q) {
            latest := Some(q);
          }
        }
      }
      if latest.Some? {
        LatestUnique(View(), d, latest.value);
      }
    }

    method QueueDraft(d: DraftId, now: int, id: RowId) returns (result: QueueResult)
      modifies this
      ensures (View(), result) == Queue(old(View()), d, now, id)
      ensures result.Existing? || result.Inserted? ==> RowOf(View(), d, result.row) && outbox[result.row].state == Queued
      ensures !result.Inserted? ==> View() == old(View())
    {
      if d !in drafts {
        return NotFound;
      }
      var latest := LatestRow(d);
      if latest.Some? {
        var existing := outbox[latest.value].state;
        if existing == Queued {
          return Existing(latest.value);
        }
        if existing == Sending || existing == Sent || existing == Unknown {
          return Conflict;
        }
      }
      outbox := outbox[id := Row(d, Some(d), drafts[d], Queued, now)];
      return Inserted(id);
    }

    method DeleteDraft(d: DraftId) returns (found: bool)
      modifies this
      ensures View() == Delete(old(View()), d) && found == (d in old(drafts))
    {
      found := d in drafts;
      if found {
        drafts := drafts - {d};
        outbox := Detach(outbox, d);
      }
    }

    /** Claims the oldest queued row that is due; the draft it belongs to may be gone. */
    method ClaimOutbox(now: int) returns (work: Option<RowId>)
      modifies this
      ensures work == None ==> View() == old(View()) && forall r :: r in outbox ==> !Due(outbox[r], now)
      ensures work.Some? ==> (View(), true) == Claim(old(View()), work.value)
      ensures work.Some? ==> Due(old(outbox)[work.value], now)
      ensures work.Some? ==> forall q :: q in old(outbox) && Due(old(outbox)[q], now) && q != work.value ==>
                    Earlier(old(outbox)[work.value].createdAt, work.value, old(outbox)[q].createdAt, q)
    {
      work := None;
      var rest := outbox.Keys;
      while rest != {}
        invariant rest <= outbox.Keys
        invariant View() == old(View())
        invariant work == None ==> forall q :: q in outbox && Due(outbox[q], now) ==> q in rest
        invariant work.Some? ==> work.value in outbox && Due(outbox[work.value], now) && work.value !in rest
        invariant work.Some? ==> forall q :: q in outbox && Due(outbox[q], now) && q != work.value && q !in rest ==>
                      Earlier(outbox[work.value].createdAt, work.value, outbox[q].createdAt, q)
        decreases |rest|
      {
        var q :| q in rest;
        rest := rest - {q};
        if outbox[q].state == Queued && outbox[q].createdAt <= now {
          if work == None || Earlier(outbox[q].createdAt, q, outbox[work.value].createdAt, work.value) {
            work := Some(q);
          }
        }
      }
      if work.Some? {
        outbox := outbox[work.value := outbox[work.value].(state := Sending)];
      }
    }

    method FinishOutbox(r: RowId, to: OutboxState) returns (ok: bool)
      modifies this
      ensures (View(), ok) == Settle(old(View()), r, to)
    {
      ok := r in outbox && outbox[r].state == Sending;
      if ok {
        outbox := outbox[r := outbox[r].(state := to)];
      }
    }

    method MarkOutboxSent(r: RowId, d: DraftId, a: AccountId) returns (ok: bool)
      modifies this
      ensures (View(), ok) == MarkSent(old(View()), r, d, a)
    {
      ok := r in outbox && outbox[r].state == Sending;
      if ok {
        outbox := outbox[r := outbox[r].(state := Sent)];
        if d in drafts && drafts[d] == a {
          drafts := drafts - {d};
          outbox := Detach(outbox, d);
        }
      }
    }

    method RecoverInFlight()
      modifies this
      ensures View() == Recover(old(View()))
    {
      outbox := map r | r in outbox ::
        if outbox[r].state == Sending then outbox[r].(state := Unknown) else outbox[r];
    }
  }
}

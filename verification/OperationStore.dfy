/**
 Mail operations and the transactions on their status. Each transaction is one atomic step, given as
 a function on the rows and as a method of `Operations` proved to do what the function says.
 */
module OperationStore {
  import opened Options
  import opened Ordering

  type OpId = nat

  datatype Kind = MarkRead | MarkUnread | Star | Unstar | Archive | Move | Trash | Delete

  datatype Status = Queued | Running | Succeeded | Failed | Cancelled | Unknown | NeedsAttention

  datatype Op = Op(kind: Kind, status: Status, executeAfter: int, undoUntil: Option<int>, createdAt: int, payloadValid: bool)

  type Rows = map<OpId, Op>

  const UNDO_WINDOW: int := 5000

  predicate IsTerminal(status: Status) {
    status != Queued && status != Running
  }

  function WithStatus(rows: Rows, id: OpId, status: Status): Rows
    requires id in rows
  {
    rows[id := rows[id].(status := status)]
  }

  /** Archive and trash wait for the undo window; the others may run at once and cannot be undone. */
  function NewOp(kind: Kind, now: int, payloadValid: bool): Op {
    if kind == Archive || kind == Trash then
      Op(kind, Queued, now + UNDO_WINDOW, Some(now + UNDO_WINDOW), now, payloadValid)
    else
      Op(kind, Queued, now, None, now, payloadValid)
  }

  predicate MayUndo(rows: Rows, id: OpId, now: int) {
    id in rows && rows[id].payloadValid && rows[id].status == Queued && rows[id].undoUntil.Some? && now < rows[id].undoUntil.value
  }

  function Undo(rows: Rows, id: OpId, now: int): Rows {
    if MayUndo(rows, id, now) then WithStatus(rows, id, Cancelled) else rows
  }

  predicate IsReady(rows: Rows, id: OpId, now: int) {
    id in rows && rows[id].status == Queued && rows[id].executeAfter <= now
  }

  /** Rows are ordered by the time to execute, then by creation, then by identifier. */
  predicate RunsBefore(rows: Rows, a: OpId, b: OpId)
    requires a in rows && b in rows
  {
    var x, y := rows[a], rows[b];
    || x.executeAfter < y.executeAfter
    || (x.executeAfter == y.executeAfter && Earlier(x.createdAt, a, y.createdAt, b))
  }

  /** The first of the rows that are ready. */
  ghost predicate IsFirstReady(rows: Rows, id: OpId, now: int) {
    IsReady(rows, id, now) && forall q :: IsReady(rows, q, now) && q != id ==> RunsBefore(rows, id, q)
  }

  /** Sets the status of a running row; reports whether it was still running. */
  function Finish(rows: Rows, id: OpId, to: Status): (r: (Rows, bool)) {
    if id in rows && rows[id].status == Running then (WithStatus(rows, id, to), true) else (rows, false)
  }

  function Recover(rows: Rows): Rows {
    map id | id in rows :: if rows[id].status == Running then rows[id].(status := Unknown) else rows[id]
  }

  function Interrupted(op: Op): Op {
    if IsTerminal(op.status) then op else op.(status := NeedsAttention)
  }

  /** A rebuild of a folder hands the operations that were pending to the user. */
  function Interrupt(rows: Rows, ids: set<OpId>): Rows {
    map id | id in rows :: if id in ids then Interrupted(rows[id]) else rows[id]
  }

  class Operations {
    var rows: Rows

    method CreateOperation(id: OpId, kind: Kind, now: int)
      requires id !in rows
      modifies this
      ensures rows == old(rows)[id := NewOp(kind, now, true)]
    {
      var executeAt, undoUntil := now, None;
      if kind == Archive || kind == Trash {
        executeAt := now + UNDO_WINDOW;
        undoUntil := Some(executeAt);
      }
      rows := rows[id := Op(kind, Queued, executeAt, undoUntil, now, true)];
    }

    method UndoOperation(id: OpId, now: int) returns (ok: bool)
      modifies this
      ensures rows == Undo(old(rows), id, now) && ok == MayUndo(old(rows), id, now)
    {
      if id !in rows || !rows[id].payloadValid {
        return false;
      }
      var op := rows[id];
      if op.status != Queued || op.undoUntil.None? || now >= op.undoUntil.value {
        return false;
      }
      rows := rows[id := op.(status := Cancelled)];
      return true;
    }

    /** Claims the first operation that is ready, if any. */
    method ClaimOperation(now: int) returns (work: Option<OpId>)
      modifies this
      ensures work == None ==> rows == old(rows) && forall id :: !IsReady(rows, id, now)
      ensures work.Some? ==> IsFirstReady(old(rows), work.value, now) && rows == WithStatus(old(rows), work.value, Running)
    {
      work := None;
      var rest := rows.Keys;
      while rest != {}
        invariant rest <= rows.Keys && rows == old(rows)
        invariant work == None ==> forall q :: IsReady(rows, q, now) ==> q in rest
        invariant work.Some? ==> IsReady(rows, work.value, now) && work.value !in rest
        invariant work.Some? ==> forall q :: IsReady(rows, q, now) && q != work.value && q !in rest ==> RunsBefore(rows, work.value, q)
      {
        var q :| q in rest;
        rest := rest - {q};
        if IsReady(rows, q, now) && (work.None? || RunsBefore(rows, q, work.value)) {
          work := Some(q);
        }
      }
      if work.Some? {
        rows := WithStatus(rows, work.value, Running);
      }
    }

    method FinishOperation(id: OpId, to: Status) returns (ok: bool)
      modifies this
      ensures (rows, ok) == Finish(old(rows), id, to)
    {
      ok := id in rows && rows[id].status == Running;
      if ok {
        rows := rows[id := rows[id].(status := to)];
      }
    }

    method RecoverInFlight()
      modifies this
      ensures rows == Recover(old(rows))
    {
      rows := map id | id in rows :: if rows[id].status == Running then rows[id].(status := Unknown) else rows[id];
    }

    /** Walks the listed operations; those that ended meanwhile are left alone. */
    method InterruptPending(ids: seq<OpId>)
      modifies this
      ensures rows == Interrupt(old(rows), set id | id in ids)
    {
      ghost var before := rows;
      for i := 0 to |ids|
        invariant rows.Keys == before.Keys
        invariant forall id :: id in rows ==> rows[id] == if id in ids[..i] then Interrupted(before[id]) else before[id]
      {
        var id := ids[i];
        if id in rows && !IsTerminal(rows[id].status) {
          rows := WithStatus(rows, id, NeedsAttention);
        }
      }
      assert ids[..|ids|] == ids;
    }
  }
}

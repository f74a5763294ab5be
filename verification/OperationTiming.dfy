/**
 When operations run and when they can be undone, over all runs and told by the moment they were created:
 the undo window of five seconds, the order of claims, and what a restart or a rebuild makes of a row.
 */
module OperationTiming {
  import opened OperationAttempt
  import opened OperationStore
  import opened OperationProtocol
  import opened Options

  /** Only these two kinds can be undone. */
  predicate Waits(kind: Kind) {
    kind == Archive || kind == Trash
  }

  // ---- a row keeps what it was created with ----

  /** The row differs from the other in its status only. */
  predicate SameOrder(a: Op, b: Op) {
    a.(status := b.status) == b
  }

  lemma StepKeepsOrder(s: State, step: Step, id: OpId)
    requires Enabled(s, step) && id in s.rows
    ensures id in Next(s, step).rows && SameOrder(s.rows[id], Next(s, step).rows[id])
  {
  }

  lemma {:induction false} RunKeepsOrder(s: State, steps: seq<Step>, s': State, id: OpId)
    requires IsRun(s, steps, s') && id in s.rows
    ensures id in s'.rows && SameOrder(s.rows[id], s'.rows[id])
    decreases |steps|
  {
    if steps != [] {
      StepKeepsOrder(s, steps[0], id);
      RunKeepsOrder(Next(s, steps[0]), steps[1..], s', id);
    }
  }

  // ---- readiness and undo, told by the creation ----

  /**
   At any time after an operation was created at `t0`: it can be claimed at `now` exactly when it is queued and
   that is no earlier than `t0`, and five seconds later for an archive or trash; it can be undone exactly when
   it is such a one, is queued, has a readable payload and the five seconds have not passed.
   */
  lemma WindowIsFiveSeconds(s: State, id: OpId, kind: Kind, t0: int, valid: bool, later: seq<Step>, s': State, now: int)
    requires Enabled(s, Create(id, kind, t0, valid)) && IsRun(Next(s, Create(id, kind, t0, valid)), later, s')
    ensures id in s'.rows
    ensures IsReady(s'.rows, id, now) <==>
            s'.rows[id].status == Queued && (if Waits(kind) then t0 + 5000 <= now else t0 <= now)
    ensures MayUndo(s'.rows, id, now) <==> s'.rows[id].status == Queued && Waits(kind) && valid && now < t0 + 5000
  {
    var s1 := Next(s, Create(id, kind, t0, valid));
    assert id in s1.rows;
    RunKeepsOrder(s1, later, s', id);
  }

  /** A new operation is queued, so it is ready or can be undone from its creation on, and never both. */
  lemma CreatedIsQueued(s: State, id: OpId, kind: Kind, t0: int, valid: bool, now: int)
    requires Enabled(s, Create(id, kind, t0, valid)) && t0 <= now
    ensures var s1 := Next(s, Create(id, kind, t0, valid));
      && s1.rows.Keys == s.rows.Keys + {id} && (forall o :: o in s.rows ==> s1.rows[o] == s.rows[o])
      && s1.rows[id].status == Queued
      && (IsReady(s1.rows, id, now) <==> !Waits(kind) || t0 + 5000 <= now)
      && (MayUndo(s1.rows, id, now) <==> Waits(kind) && valid && now < t0 + 5000)
  {
    assert IsRun(Next(s, Create(id, kind, t0, valid)), [], Next(s, Create(id, kind, t0, valid)));
    WindowIsFiveSeconds(s, id, kind, t0, valid, [], Next(s, Create(id, kind, t0, valid)), now);
  }

  /** In any run an operation is claimed only from its creation on, an archive or trash only five seconds later. */
  lemma ClaimedInTime(s: State, id: OpId, kind: Kind, t0: int, valid: bool, later: seq<Step>, s': State, now: int)
    requires Enabled(s, Create(id, kind, t0, valid)) && IsRun(Next(s, Create(id, kind, t0, valid)), later, s')
    requires Enabled(s', Claim(id, now))
    ensures now >= if Waits(kind) then t0 + 5000 else t0
  {
    WindowIsFiveSeconds(s, id, kind, t0, valid, later, s', now);
  }

  /** The time a step reads from the clock, if it reads one. */
  function ReadAt(step: Step): Option<int> {
    match step
    case Create(_, _, now, _) => Some(now)
    case UndoOp(_, now) => Some(now)
    case Claim(_, now) => Some(now)
    case _ => None
  }

  /** A clock that does not go back has shown none of the steps a later time than `now`. */
  predicate ReadBy(steps: seq<Step>, now: int) {
    forall i :: 0 <= i < |steps| && ReadAt(steps[i]).Some? ==> ReadAt(steps[i]).value <= now
  }

  /** No undo of the operation and no rebuild that takes it. */
  predicate LeavesAlone(step: Step, id: OpId) {
    && (step.UndoOp? ==> step.id != id)
    && (step.Rebuild? ==> id !in step.ids)
  }

  /** A queued row leaves its state by a claim, an undo or a rebuild only. */
  lemma StaysQueued(s: State, step: Step, id: OpId)
    requires Inv(s) && Enabled(s, step) && LeavesAlone(step, id) && id in s.rows && s.rows[id].status == Queued
    requires step.Claim? ==> step.id != id
    ensures id in Next(s, step).rows && Next(s, step).rows[id].status == Queued
  {
    assert RowHonest(s.rows[id].status, s.log, s.worker, id);
  }

  lemma {:induction false} StaysQueuedUntil(s: State, steps: seq<Step>, s': State, id: OpId, now: int)
    requires Inv(s) && IsRun(s, steps, s') && ReadBy(steps, now)
    requires forall i :: 0 <= i < |steps| ==> LeavesAlone(steps[i], id)
    requires id in s.rows && s.rows[id].status == Queued && now < s.rows[id].executeAfter
    ensures id in s'.rows && s'.rows[id].status == Queued
    decreases |steps|
  {
    if steps != [] {
      assert ReadAt(steps[0]).Some? ==> ReadAt(steps[0]).value <= now;
      assert LeavesAlone(steps[0], id);
      StaysQueued(s, steps[0], id);
      NextKeepsInv(s, steps[0]);
      StepKeepsOrder(s, steps[0], id);
      assert forall i :: 0 <= i < |steps[1..]| ==> steps[1..][i] == steps[i + 1];
      StaysQueuedUntil(Next(s, steps[0]), steps[1..], s', id, now);
    }
  }

  /**
   Over every run on a clock that does not go back, with claims, crashes and rebuilds of anything else at any
   moment: an archive or trash that was not undone before and that no rebuild took can be undone until its
   five seconds have passed. Then it is cancelled, and nothing is ever written for it.
   */
  lemma UndoInTimeSucceeds(before: seq<Step>, s: State, id: OpId, kind: Kind, t0: int, later: seq<Step>, s': State, now: int)
    requires IsRun(Init(), before, s) && Enabled(s, Create(id, kind, t0, true))
    requires IsRun(Next(s, Create(id, kind, t0, true)), later, s') && ReadBy(later, now)
    requires forall i :: 0 <= i < |later| ==> LeavesAlone(later[i], id)
    requires Waits(kind) && now < t0 + 5000
    ensures MayUndo(s'.rows, id, now)
    ensures var undone := Next(s', UndoOp(id, now)); undone.rows[id].status == Cancelled && id !in undone.log.written
  {
    RunKeepsInv(Init(), before, s);
    var s1 := Next(s, Create(id, kind, t0, true));
    NextKeepsInv(s, Create(id, kind, t0, true));
    CreatedIsQueued(s, id, kind, t0, true, t0);
    WaitsFor(s, id, kind, t0);
    StaysQueuedUntil(s1, later, s', id, now);
    WindowIsFiveSeconds(s, id, kind, t0, true, later, s', now);
    RunKeepsInv(s1, later, s');
    NextKeepsInv(s', UndoOp(id, now));
    var undone := Next(s', UndoOp(id, now));
    assert RowHonest(undone.rows[id].status, undone.log, undone.worker, id);
  }

  lemma WaitsFor(s: State, id: OpId, kind: Kind, t0: int)
    requires Enabled(s, Create(id, kind, t0, true)) && Waits(kind)
    ensures Next(s, Create(id, kind, t0, true)).rows[id].executeAfter == t0 + 5000
  {
  }

  /** An undo changes its own operation only, from queued to cancelled, and nothing when it comes too late. */
  lemma UndoCancelsOne(s: State, id: OpId, now: int)
    ensures var s' := Next(s, UndoOp(id, now));
      && s'.(rows := s.rows) == s && s'.rows.Keys == s.rows.Keys
      && (forall o :: o in s.rows && o != id ==> s'.rows[o] == s.rows[o])
      && (id in s.rows ==> s'.rows[id] == if MayUndo(s.rows, id, now) then s.rows[id].(status := Cancelled) else s.rows[id])
  {
  }

  // ---- the order of claims ----

  /** Of the operations that are ready, the one that became ready first is claimed, then the one created first. */
  lemma ClaimsInOrder(s: State, id: OpId, now: int, other: OpId)
    requires Enabled(s, Claim(id, now)) && IsReady(s.rows, other, now) && other != id
    ensures var a, b := s.rows[id], s.rows[other];
      || a.executeAfter < b.executeAfter
      || (a.executeAfter == b.executeAfter && a.createdAt < b.createdAt)
      || (a.executeAfter == b.executeAfter && a.createdAt == b.createdAt && id < other)
    ensures var s' := Next(s, Claim(id, now));
      s'.rows[id].status == Running && forall o :: o in s.rows && o != id ==> s'.rows[o] == s.rows[o]
  {
  }

  /** A claimed operation is prepared, unless its payload cannot be read: then it is closed as failed. */
  lemma ClaimGoesOn(s: State, id: OpId, now: int)
    requires Enabled(s, Claim(id, now))
    ensures var s' := Next(s, Claim(id, now));
      if s.rows[id].payloadValid then s'.worker == Preparing(id)
      else s'.worker == Finishing(id, OperationStore.Failed)
           && Next(s', Save(true)).rows[id] == s.rows[id].(status := OperationStore.Failed)
  {
  }

  /** One that cannot be prepared needs attention when the error says so, and has failed otherwise. */
  lemma UnpreparedIsClosed(steps: seq<Step>, s: State, err: ApplyError)
    requires IsRun(Init(), steps, s) && Enabled(s, PrepareFails(err))
    ensures var op := s.worker.op;
      Next(s, PrepareFails(err)) ==
      s.(worker := Finishing(op, if err.ApplyError? && err.attention then NeedsAttention else OperationStore.Failed))
  {
  }

  // ---- what the runtime makes of rows it cannot finish ----

  /** A restart leaves no row running: exactly those that were become unknown. */
  lemma RestartMakesUnknown(s: State)
    requires Enabled(s, Restart)
    ensures var rows := Next(s, Restart).rows;
      rows.Keys == s.rows.Keys && forall o :: o in s.rows ==>
        rows[o].status != Running
        && rows[o] == if s.rows[o].status == Running then s.rows[o].(status := Unknown) else s.rows[o]
  {
  }

  /** A rebuild hands exactly the listed rows that have not ended to the user. */
  lemma RebuildTakesPending(s: State, ids: set<OpId>)
    requires Enabled(s, Rebuild(ids))
    ensures var rows := Next(s, Rebuild(ids)).rows;
      rows.Keys == s.rows.Keys && forall o :: o in s.rows ==>
        rows[o] == if o in ids && s.rows[o].status in {Queued, Running} then s.rows[o].(status := NeedsAttention) else s.rows[o]
  {
  }

  /**
   The row of an attempt that stopped, once saved, says what the error says, unless a rebuild took it: the
   user has to look, it may have been done, or it failed without effect.
   */
  lemma StoppedIsSaved(steps: seq<Step>, s: State)
    requires IsRun(Init(), steps, s) && Enabled(s, Conclude) && s.worker.attempt.phase.Stopped?
    ensures var op, err, s1 := s.worker.op, s.worker.attempt.phase.err, Next(s, Conclude);
      && Enabled(s1, Save(true)) && op in s.rows
      && var row, row' := s.rows[op], Next(s1, Save(true)).rows[op];
         row' == if row.status == NeedsAttention || (err.ApplyError? && err.attention) then row.(status := NeedsAttention)
                 else if err.ApplyError? && err.uncertain then row.(status := Unknown)
                 else row.(status := OperationStore.Failed)
  {
    RunKeepsInv(Init(), steps, s);
    assert RowHonest(s.rows[s.worker.op].status, s.log, s.worker, s.worker.op);
  }

  /** Something may have been changed on the server when the current call fails. */
  predicate MayHaveWritten(a: Attempt) {
    a.index > 0 || a.phase.Writing? || a.phase.Expunging? || a.phase.Committing?
  }

  /** The failing call decides the status: where nothing can have been written, or where the mailbox changed. */
  function StatusAt(a: Attempt, reply: Reply): Status {
    if a.phase.Selecting? && reply.ok then NeedsAttention
    else if MayHaveWritten(a) then Unknown
    else OperationStore.Failed
  }

  /**
   In any run, a failing call of the group loop ends the operation. It needs attention when the mailbox was
   selected under another UIDVALIDITY; it is unknown when a change may have reached the server, and then a sync
   is asked for; otherwise it has failed.
   */
  lemma FailingCallDecides(steps: seq<Step>, s: State, reply: Reply)
    requires IsRun(Init(), steps, s) && Enabled(s, Answer(reply)) && !s.worker.attempt.phase.Completing?
    requires !reply.ok || (s.worker.attempt.phase.Selecting? && reply.changed)
    ensures var a, s1 := s.worker.attempt, Next(s, Answer(reply));
      && s1.worker.Applying? && s1.worker.attempt.phase.Stopped?
      && var err := s1.worker.attempt.phase.err;
      && StatusOf(err) == StatusAt(a, reply)
      && (err.ApplyError? && err.syncRequired <==> MayHaveWritten(a))
  {
    RunKeepsInv(Init(), steps, s);
  }

  /** The completing transaction fails when a rebuild took the row; with no group to change that is a plain failure. */
  lemma FailingCompletionDecides(steps: seq<Step>, s: State, reply: Reply)
    requires IsRun(Init(), steps, s) && Enabled(s, Answer(reply)) && s.worker.attempt.phase.Completing?
    ensures var op, a, s1 := s.worker.op, s.worker.attempt, Next(s, Answer(reply));
      && op in s.rows
      && if reply.ok && s.rows[op].status == Running then
           s1.worker.attempt.phase.Done? && s1.rows == s.rows[op := s.rows[op].(status := Succeeded)]
         else
           && s1.worker.attempt.phase.Stopped? && s1.rows == s.rows
           && StatusOf(s1.worker.attempt.phase.err) == if a.groups == 0 then OperationStore.Failed else Unknown
  {
    RunKeepsInv(Init(), steps, s);
    assert RowHonest(s.rows[s.worker.op].status, s.log, s.worker, s.worker.op);
  }

  /** A call that succeeds moves the attempt on: select, change, expunge after a copy, commit, and then the next group. */
  lemma SuccessMovesOn(a: Attempt, reply: Reply)
    requires IsSound(a) && !IsOver(a) && !a.phase.Completing? && reply.ok && !(a.phase.Selecting? && reply.changed)
    ensures var b := Advance(a, reply);
      && b.strategy == a.strategy && b.groups == a.groups
      && (a.phase.Selecting? ==> b.phase == Writing)
      && (a.phase.Writing? ==> b.phase == if a.strategy == CopyThenExpunge then Expunging else Committing)
      && (a.phase.Expunging? ==> b.phase == Committing)
      && (a.phase.Committing? ==> b.index == a.index + 1 && b.phase == if a.index + 1 == a.groups then Completing else Selecting)
      && (!a.phase.Committing? ==> b.index == a.index)
  {
  }

  /** When an attempt is over, the sync it wants is asked for, and is refused exactly when the runtime is shutting down. */
  lemma ConcludingAsksForSync(s: State)
    requires Enabled(s, Conclude)
    ensures var op, phase, log, log' := s.worker.op, s.worker.attempt.phase, s.log, Next(s, Conclude).log;
      var wanted := phase.Done? || (phase.err.ApplyError? && phase.err.syncRequired);
      && log'.syncs == (if wanted && !s.stopping then log.syncs + {op} else log.syncs)
      && log'.refused == (if wanted && s.stopping then log.refused + {op} else log.refused)
      && log'.written == log.written && log'.applied == log.applied && log'.committed == log.committed
      && Next(s, Conclude).rows == s.rows
  {
  }

  // ---- the record ----

  /** What a step adds to a part of the record about the operation that the worker is on. */
  function Adding<T(==)>(record: set<T>, entry: T, added: bool): set<T> {
    if added then record + {entry} else record
  }

  /**
   The record says what happened: a changing call was made, the server answered it with success, a group was
   committed; and nothing else adds to it. Of a copy the expunge is the change that completes a group.
   */
  lemma AnswersAreRecorded(s: State, reply: Reply)
    requires Enabled(s, Answer(reply)) && !s.worker.attempt.phase.Completing?
    ensures var op, a, log, log' := s.worker.op, s.worker.attempt, s.log, Next(s, Answer(reply)).log;
      && log'.written == Adding(log.written, op, a.phase.Writing? || a.phase.Expunging?)
      && log'.applied == Adding(log.applied, (op, a.index),
                                reply.ok && (a.phase.Expunging? || (a.phase.Writing? && a.strategy != CopyThenExpunge)))
      && log'.committed == Adding(log.committed, (op, a.index), reply.ok && a.phase.Committing?)
      && log'.(written := log.written, applied := log.applied, committed := log.committed) == log
  {
  }

  /** A crash notes the operation the worker was on, a failed save the one it was saving; other steps add nothing to these. */
  lemma EndsAreRecorded(s: State, step: Step)
    requires Enabled(s, step)
    ensures var log, log' := s.log, Next(s, step).log;
      && log'.interrupted == (if step.Crash? && !s.worker.Idle? then log.interrupted + {s.worker.op} else log.interrupted)
      && log'.unsaved == (if step == Save(false) then log.unsaved + {s.worker.op} else log.unsaved)
      && (!step.Answer? ==> log'.written == log.written && log'.applied == log.applied && log'.committed == log.committed)
      && log'.plan == if step.Prepare? then log.plan[s.worker.op := step.groups] else log.plan
  {
  }
}

/**
 Honest outcomes of mail operations over all runs: operations are created and undone at any moment,
 the one worker claims them and goes through their groups call by call, any call and any commit may
 fail, a folder rebuild may take pending operations away, and the process may crash between any two
 steps and recover later.
 */
module OperationProtocol {
  import opened OperationAttempt
  import opened OperationStore
  import opened Options

  datatype Worker = Idle | Preparing(op: OpId) | Applying(op: OpId, attempt: Attempt) | Finishing(op: OpId, to: Status)

  /** What happened, whatever the rows say: the ghost record the properties are about. */
  datatype Log = Log(
    /** How many groups were selected for an operation. */
    plan: map<OpId, nat>,
    /** Operations for which a call that changes the mailbox was made. */
    written: set<OpId>,
    /** Groups that the server reported as changed, and groups whose change was committed locally. */
    applied: set<(OpId, nat)>,
    committed: set<(OpId, nat)>,
    /** Operations for which a convergence sync was requested, and those whose request a runtime that was shutting down refused. */
    syncs: set<OpId>,
    refused: set<OpId>,
    /** Operations the worker was on when the process crashed, and those whose final status was not saved. */
    interrupted: set<OpId>,
    unsaved: set<OpId>)

  /** `stopping`: the runtime was told to shut down, and the worker is still at its last statements. */
  datatype State = State(rows: Rows, up: bool, stopping: bool, worker: Worker, log: Log)

  function Init(): State {
    State(map[], false, false, Idle, Log(map[], {}, {}, {}, {}, {}, {}, {}))
  }

  datatype Step =
    | Create(id: OpId, kind: Kind, now: int, payloadValid: bool)
    | UndoOp(id: OpId, now: int)
    | Claim(id: OpId, now: int)
    | PrepareFails(err: ApplyError)
    | Prepare(strategy: Strategy, groups: nat)
    | Answer(reply: Reply)
    | Conclude
    | Save(ok: bool)
    | Rebuild(ids: set<OpId>)
    | Shutdown
    | Crash
    | Restart

  ghost predicate Enabled(s: State, step: Step) {
    match step
    case Create(id, _, _, _) => id !in s.rows
    case UndoOp(_, _) => true
    case Claim(id, now) => s.up && s.worker.Idle? && IsFirstReady(s.rows, id, now)
    case PrepareFails(err) => s.up && s.worker.Preparing? && (err.ApplyError? ==> !err.uncertain && !err.syncRequired)
    case Prepare(_, _) => s.up && s.worker.Preparing?
    case Answer(_) => s.up && s.worker.Applying? && !IsOver(s.worker.attempt)
    case Conclude => s.up && s.worker.Applying? && IsOver(s.worker.attempt)
    case Save(_) => s.up && s.worker.Finishing?
    case Rebuild(_) => s.up
    case Shutdown => s.up
    case Crash => s.up
    case Restart => !s.up
  }

  /** The status recorded for an error. */
  function StatusOf(err: ApplyError): Status {
    match err
    case Plain => Failed
    case ApplyError(uncertain, attention, _) => if attention then NeedsAttention else if uncertain then Unknown else Failed
  }

  /** A claimed operation whose payload cannot be read is closed as failed. */
  function DoClaim(s: State, id: OpId): State
    requires id in s.rows
  {
    s.(rows := WithStatus(s.rows, id, Running),
       worker := if s.rows[id].payloadValid then Preparing(id) else Finishing(id, Failed))
  }

  function DoPrepare(s: State, strategy: Strategy, groups: nat): State
    requires s.worker.Preparing?
  {
    var op := s.worker.op;
    s.(worker := Applying(op, Start(strategy, groups)), log := s.log.(plan := s.log.plan[op := groups]))
  }

  /** The completing transaction succeeds only while the row is still running. */
  function Effective(s: State, reply: Reply): Reply
    requires s.worker.Applying?
  {
    if s.worker.attempt.phase.Completing? then reply.(ok := reply.ok && Finish(s.rows, s.worker.op, Succeeded).1) else reply
  }

  function Logged(log: Log, op: OpId, a: Attempt, reply: Reply): Log {
    match a.phase
    case Writing => log.(written := log.written + {op},
        applied := if reply.ok && a.strategy != CopyThenExpunge then log.applied + {(op, a.index)} else log.applied)
    case Expunging => log.(written := log.written + {op},
        applied := if reply.ok then log.applied + {(op, a.index)} else log.applied)
    case Committing => if reply.ok then log.(committed := log.committed + {(op, a.index)}) else log
    case _ => log
  }

  function DoAnswer(s: State, reply: Reply): State
    requires s.worker.Applying?
  {
    var op, a, r := s.worker.op, s.worker.attempt, Effective(s, reply);
    s.(rows := if a.phase.Completing? && r.ok then Finish(s.rows, op, Succeeded).0 else s.rows,
       worker := Applying(op, Advance(a, r)),
       log := Logged(s.log, op, a, r))
  }

  /** A sync is requested of the runtime, which refuses it once it is shutting down. */
  function Requested(s: State, op: OpId, wanted: bool): Log {
    if !wanted then s.log
    else if s.stopping then s.log.(refused := s.log.refused + {op})
    else s.log.(syncs := s.log.syncs + {op})
  }

  function DoConclude(s: State): State
    requires s.worker.Applying?
  {
    match s.worker.attempt.phase
    case Stopped(err) =>
      s.(worker := Finishing(s.worker.op, StatusOf(err)),
         log := Requested(s, s.worker.op, err.ApplyError? && err.syncRequired))
    case _ => s.(worker := Idle, log := Requested(s, s.worker.op, true))
  }

  /** Saves the final status; a failed commit is only logged. */
  function DoSave(s: State, ok: bool): State
    requires s.worker.Finishing?
  {
    s.(rows := if ok then Finish(s.rows, s.worker.op, s.worker.to).0 else s.rows,
       worker := Idle,
       log := if ok then s.log else s.log.(unsaved := s.log.unsaved + {s.worker.op}))
  }

  function DoCrash(s: State): State {
    s.(up := false, worker := Idle,
       log := if s.worker.Idle? then s.log else s.log.(interrupted := s.log.interrupted + {s.worker.op}))
  }

  ghost function Next(s: State, step: Step): State
    requires Enabled(s, step)
  {
    match step
    case Create(id, kind, now, valid) => s.(rows := s.rows[id := NewOp(kind, now, valid)])
    case UndoOp(id, now) => s.(rows := Undo(s.rows, id, now))
    case Claim(id, _) => DoClaim(s, id)
    case PrepareFails(err) => s.(worker := Finishing(s.worker.op, StatusOf(err)))
    case Prepare(strategy, groups) => DoPrepare(s, strategy, groups)
    case Answer(reply) => DoAnswer(s, reply)
    case Conclude => DoConclude(s)
    case Save(ok) => DoSave(s, ok)
    case Rebuild(ids) => s.(rows := Interrupt(s.rows, ids))
    case Shutdown => s.(stopping := true)
    case Crash => DoCrash(s)
    case Restart => s.(rows := Recover(s.rows), up := true, stopping := false)
  }

  ghost predicate IsRun(s: State, steps: seq<Step>, s': State)
    decreases |steps|
  {
    if steps == [] then s == s'
    else Enabled(s, steps[0]) && IsRun(Next(s, steps[0]), steps[1..], s')
  }

  // ---- the invariant ----

  predicate WorksOn(worker: Worker, op: OpId) {
    !worker.Idle? && worker.op == op
  }

  /** A row says nothing that the record contradicts. */
  ghost predicate RowHonest(status: Status, log: Log, worker: Worker, op: OpId) {
    && (op in log.written ==> status in {Running, Succeeded, Unknown, NeedsAttention})
    && (status == Succeeded ==> op in log.plan && forall j :: 0 <= j < log.plan[op] ==> (op, j) in log.applied && (op, j) in log.committed)
    && (status == Unknown ==> op in log.written || op in log.interrupted || op in log.unsaved)
    && (status == Running ==> WorksOn(worker, op) || op in log.interrupted || op in log.unsaved)
    && (WorksOn(worker, op) ==> if worker.Applying? && worker.attempt.phase.Done? then status == Succeeded else status in {Running, NeedsAttention})
  }

  /** Whoever wrote has asked for a sync, unless the process crashed on the way there. */
  ghost predicate SyncComes(log: Log, worker: Worker, op: OpId) {
    op in log.written ==> op in log.syncs || op in log.refused || op in log.interrupted || (worker.Applying? && worker.op == op)
  }

  /** The error tells whether anything was written. */
  predicate IsTruthful(err: ApplyError, written: bool) {
    match err
    case Plain => !written
    case ApplyError(uncertain, attention, syncRequired) =>
      if written then syncRequired && (uncertain || attention) else !uncertain
  }

  ghost predicate AttemptInv(log: Log, op: OpId, a: Attempt) {
    && IsSound(a)
    && op in log.plan && log.plan[op] == a.groups
    && (forall j :: 0 <= j < a.index ==> (op, j) in log.applied && (op, j) in log.committed)
    && (a.phase.Committing? ==> (op, a.index) in log.applied)
    && (!IsOver(a) ==> (op in log.written <==> a.index > 0 || a.phase.Expunging? || a.phase.Committing?))
    && (a.phase.Stopped? ==> IsTruthful(a.phase.err, op in log.written))
  }

  ghost predicate WorkerInv(s: State) {
    match s.worker
    case Idle => true
    case Preparing(op) => op in s.rows && op !in s.log.written
    case Applying(op, a) => op in s.rows && AttemptInv(s.log, op, a)
    case Finishing(op, to) =>
      && op in s.rows
      && (op in s.log.written ==> to in {Unknown, NeedsAttention} && (op in s.log.syncs || op in s.log.refused))
      && (op !in s.log.written ==> to in {Failed, NeedsAttention})
  }

  ghost predicate Inv(s: State) {
    && (forall op :: op in s.rows ==> RowHonest(s.rows[op].status, s.log, s.worker, op))
    && (forall op :: op in s.log.written ==> op in s.rows && SyncComes(s.log, s.worker, op))
    && WorkerInv(s)
    && (!s.up ==> s.worker.Idle?)
  }

  lemma CreateKeeps(s: State, step: Step)
    requires Inv(s) && step.Create? && Enabled(s, step)
    ensures Inv(Next(s, step))
  {
    var s' := Next(s, step);
    forall op | op in s'.rows ensures RowHonest(s'.rows[op].status, s'.log, s'.worker, op) {
      assert op != step.id ==> RowHonest(s.rows[op].status, s.log, s.worker, op);
    }
  }

  lemma UndoKeeps(s: State, id: OpId, now: int)
    requires Inv(s)
    ensures Inv(s.(rows := Undo(s.rows, id, now)))
  {
    var s' := s.(rows := Undo(s.rows, id, now));
    forall op | op in s'.rows ensures RowHonest(s'.rows[op].status, s'.log, s'.worker, op) {
      assert RowHonest(s.rows[op].status, s.log, s.worker, op);
    }
  }

  lemma ClaimKeeps(s: State, id: OpId, now: int)
    requires Inv(s) && Enabled(s, Claim(id, now))
    ensures Inv(DoClaim(s, id))
  {
    var s' := DoClaim(s, id);
    forall op | op in s'.rows ensures RowHonest(s'.rows[op].status, s'.log, s'.worker, op) {
      assert RowHonest(s.rows[op].status, s.log, s.worker, op);
    }
  }

  lemma PrepareFailsKeeps(s: State, err: ApplyError)
    requires Inv(s) && Enabled(s, PrepareFails(err))
    ensures Inv(Next(s, PrepareFails(err)))
  {
    var s' := Next(s, PrepareFails(err));
    forall op | op in s'.rows ensures RowHonest(s'.rows[op].status, s'.log, s'.worker, op) {
      assert RowHonest(s.rows[op].status, s.log, s.worker, op);
    }
  }

  lemma PrepareKeeps(s: State, strategy: Strategy, groups: nat)
    requires Inv(s) && Enabled(s, Prepare(strategy, groups))
    ensures Inv(DoPrepare(s, strategy, groups))
  {
    var s' := DoPrepare(s, strategy, groups);
    forall op | op in s'.rows ensures RowHonest(s'.rows[op].status, s'.log, s'.worker, op) {
      assert RowHonest(s.rows[op].status, s.log, s.worker, op);
    }
  }

  /** One answer keeps the attempt sound and its error truthful. */
  lemma AdvanceKeeps(log: Log, op: OpId, a: Attempt, reply: Reply)
    requires AttemptInv(log, op, a) && !IsOver(a)
    ensures AttemptInv(Logged(log, op, a, reply), op, Advance(a, reply))
  {
  }

  lemma AnswerKeeps(s: State, reply: Reply)
    requires Inv(s) && Enabled(s, Answer(reply))
    ensures Inv(DoAnswer(s, reply))
  {
    var s', mine, r := DoAnswer(s, reply), s.worker.op, Effective(s, reply);
    AdvanceKeeps(s.log, mine, s.worker.attempt, r);
    forall op | op in s'.rows ensures RowHonest(s'.rows[op].status, s'.log, s'.worker, op) {
      assert RowHonest(s.rows[op].status, s.log, s.worker, op);
    }
    forall op | op in s'.log.written ensures op in s'.rows && SyncComes(s'.log, s'.worker, op) {
      assert op in s.log.written ==> SyncComes(s.log, s.worker, op);
    }
  }

  lemma ConcludeKeeps(s: State)
    requires Inv(s) && Enabled(s, Conclude)
    ensures Inv(DoConclude(s))
  {
    var s' := DoConclude(s);
    forall op | op in s'.rows ensures RowHonest(s'.rows[op].status, s'.log, s'.worker, op) {
      assert RowHonest(s.rows[op].status, s.log, s.worker, op);
    }
    forall op | op in s'.log.written ensures op in s'.rows && SyncComes(s'.log, s'.worker, op) {
      assert SyncComes(s.log, s.worker, op);
    }
  }

  lemma SaveKeeps(s: State, ok: bool)
    requires Inv(s) && Enabled(s, Save(ok))
    ensures Inv(DoSave(s, ok))
  {
    var s' := DoSave(s, ok);
    forall op | op in s'.rows ensures RowHonest(s'.rows[op].status, s'.log, s'.worker, op) {
      assert RowHonest(s.rows[op].status, s.log, s.worker, op);
    }
    forall op | op in s'.log.written ensures op in s'.rows && SyncComes(s'.log, s'.worker, op) {
      assert SyncComes(s.log, s.worker, op);
    }
  }

  lemma RebuildKeeps(s: State, ids: set<OpId>)
    requires Inv(s)
    ensures Inv(s.(rows := Interrupt(s.rows, ids)))
  {
    var s' := s.(rows := Interrupt(s.rows, ids));
    forall op | op in s'.rows ensures RowHonest(s'.rows[op].status, s'.log, s'.worker, op) {
      assert RowHonest(s.rows[op].status, s.log, s.worker, op);
    }
  }

  lemma ShutdownKeeps(s: State)
    requires Inv(s)
    ensures Inv(s.(stopping := true))
  {
    var s' := s.(stopping := true);
    forall op | op in s'.log.written ensures op in s'.rows && SyncComes(s'.log, s'.worker, op) {
      assert SyncComes(s.log, s.worker, op);
    }
  }

  lemma CrashKeeps(s: State)
    requires Inv(s)
    ensures Inv(DoCrash(s))
  {
    var s' := DoCrash(s);
    forall op | op in s'.rows ensures RowHonest(s'.rows[op].status, s'.log, s'.worker, op) {
      assert RowHonest(s.rows[op].status, s.log, s.worker, op);
    }
    forall op | op in s'.log.written ensures op in s'.rows && SyncComes(s'.log, s'.worker, op) {
      assert SyncComes(s.log, s.worker, op);
    }
  }

  lemma RestartKeeps(s: State)
    requires Inv(s) && Enabled(s, Restart)
    ensures Inv(Next(s, Restart))
  {
    var s' := Next(s, Restart);
    forall op | op in s'.rows ensures RowHonest(s'.rows[op].status, s'.log, s'.worker, op) {
      assert RowHonest(s.rows[op].status, s.log, s.worker, op);
    }
  }

  lemma NextKeepsInv(s: State, step: Step)
    requires Inv(s) && Enabled(s, step)
    ensures Inv(Next(s, step))
  {
    match step
    case Create(_, _, _, _) => CreateKeeps(s, step);
    case UndoOp(id, now) => UndoKeeps(s, id, now);
    case Claim(id, now) => ClaimKeeps(s, id, now);
    case PrepareFails(err) => PrepareFailsKeeps(s, err);
    case Prepare(strategy, groups) => PrepareKeeps(s, strategy, groups);
    case Answer(reply) => AnswerKeeps(s, reply);
    case Conclude => ConcludeKeeps(s);
    case Save(ok) => SaveKeeps(s, ok);
    case Rebuild(ids) => RebuildKeeps(s, ids);
    case Shutdown => ShutdownKeeps(s);
    case Crash => CrashKeeps(s);
    case Restart => RestartKeeps(s);
  }

  lemma {:induction false} RunKeepsInv(s: State, steps: seq<Step>, s': State)
    requires Inv(s) && IsRun(s, steps, s')
    ensures Inv(s')
    decreases |steps|
  {
    if steps != [] {
      NextKeepsInv(s, steps[0]);
      RunKeepsInv(Next(s, steps[0]), steps[1..], s');
    }
  }

  // ---- the results ----

  /** Failed and cancelled operations changed nothing on the server. */
  lemma NothingWrittenWhenFailed(steps: seq<Step>, s: State, op: OpId)
    requires IsRun(Init(), steps, s) && op in s.rows && s.rows[op].status in {Failed, Cancelled}
    ensures op !in s.log.written
  {
    RunKeepsInv(Init(), steps, s);
    assert RowHonest(s.rows[op].status, s.log, s.worker, op);
  }

  /** A succeeded operation changed every selected group on the server and committed it locally. */
  lemma SucceededMeansDone(steps: seq<Step>, s: State, op: OpId)
    requires IsRun(Init(), steps, s) && op in s.rows && s.rows[op].status == Succeeded
    ensures op in s.log.plan
    ensures forall j :: 0 <= j < s.log.plan[op] ==> (op, j) in s.log.applied && (op, j) in s.log.committed
  {
    RunKeepsInv(Init(), steps, s);
    assert RowHonest(s.rows[op].status, s.log, s.worker, op);
  }

  /** An unknown outcome is reported only when something was written or the end was not recorded. */
  lemma UnknownIsJustified(steps: seq<Step>, s: State, op: OpId)
    requires IsRun(Init(), steps, s) && op in s.rows && s.rows[op].status == Unknown
    ensures op in s.log.written || op in s.log.interrupted || op in s.log.unsaved
  {
    RunKeepsInv(Init(), steps, s);
    assert RowHonest(s.rows[op].status, s.log, s.worker, op);
  }

  ghost predicate NoShutdown(steps: seq<Step>) {
    forall i :: 0 <= i < |steps| ==> !steps[i].Shutdown?
  }

  /** A runtime that was not told to shut down refuses no request for a sync. */
  lemma {:induction false} NothingRefused(s: State, steps: seq<Step>, s': State)
    requires IsRun(s, steps, s') && NoShutdown(steps) && !s.stopping
    ensures !s'.stopping && s'.log.refused == s.log.refused
    decreases |steps|
  {
    if steps != [] {
      assert NoShutdown(steps[1..]);
      NothingRefused(Next(s, steps[0]), steps[1..], s');
    }
  }

  /**
   An operation that wrote, and that the worker is not applying any more, has a sync requested, unless a
   crash cut it off or a runtime that was shutting down refused the request.
   */
  lemma ConvergenceIsRequested(steps: seq<Step>, s: State, op: OpId)
    requires IsRun(Init(), steps, s) && op in s.log.written && !WorksOn(s.worker, op) && op !in s.log.interrupted
    ensures op in s.log.syncs || op in s.log.refused
    ensures NoShutdown(steps) ==> op in s.log.syncs
  {
    RunKeepsInv(Init(), steps, s);
    assert SyncComes(s.log, s.worker, op);
    if NoShutdown(steps) {
      NothingRefused(Init(), steps, s);
    }
  }

  function Stage(status: Status): nat {
    match status
    case Queued => 0
    case Running => 1
    case _ => 2
  }

  lemma StatusAdvances(s: State, step: Step, op: OpId)
    requires Inv(s) && Enabled(s, step) && op in s.rows
    ensures op in Next(s, step).rows
    ensures Stage(s.rows[op].status) <= Stage(Next(s, step).rows[op].status)
    ensures IsTerminal(s.rows[op].status) ==> Next(s, step).rows[op].status == s.rows[op].status
  {
  }

  lemma {:induction false} StatusAdvancesAlong(s: State, steps: seq<Step>, s': State, op: OpId)
    requires Inv(s) && IsRun(s, steps, s') && op in s.rows
    ensures op in s'.rows && Stage(s.rows[op].status) <= Stage(s'.rows[op].status)
    ensures IsTerminal(s.rows[op].status) ==> s'.rows[op].status == s.rows[op].status
    decreases |steps|
  {
    if steps != [] {
      StatusAdvances(s, steps[0], op);
      NextKeepsInv(s, steps[0]);
      StatusAdvancesAlong(Next(s, steps[0]), steps[1..], s', op);
    }
  }

  /** No status goes back, and a terminal one never changes: no operation is ever run twice. */
  lemma StatusNeverGoesBack(steps: seq<Step>, s: State, later: seq<Step>, s': State, op: OpId)
    requires IsRun(Init(), steps, s) && IsRun(s, later, s') && op in s.rows
    ensures op in s'.rows && Stage(s.rows[op].status) <= Stage(s'.rows[op].status)
    ensures IsTerminal(s.rows[op].status) ==> s'.rows[op].status == s.rows[op].status
  {
    RunKeepsInv(Init(), steps, s);
    StatusAdvancesAlong(s, later, s', op);
  }

  /** An operation that was undone is never run: nothing is written for it at any later time. */
  lemma UndoneIsNeverRun(steps: seq<Step>, s: State, op: OpId, now: int, later: seq<Step>, s': State)
    requires IsRun(Init(), steps, s) && MayUndo(s.rows, op, now)
    requires IsRun(Next(s, UndoOp(op, now)), later, s')
    ensures op in s'.rows && s'.rows[op].status == Cancelled && op !in s'.log.written
  {
    RunKeepsInv(Init(), steps, s);
    var undone := Next(s, UndoOp(op, now));
    NextKeepsInv(s, UndoOp(op, now));
    RunKeepsInv(undone, later, s');
    StatusAdvancesAlong(undone, later, s', op);
    assert RowHonest(s'.rows[op].status, s'.log, s'.worker, op);
  }
}

/**
 Recoverability over all runs: updates are requested at any moment, any call may fail, the process may
 crash between any two calls, and updates are tried again afterwards.
 */
module UpdaterProtocol {
  import opened Options
  import opened UpdaterSteps

  /** `trusted` remembers the content that was installed and healthy when its version was marked. */
  datatype State = State(host: Host, pc: Pc, trusted: map<Version, Content>)

  function Init(binary: Content, version: Version): State {
    State(Host(binary, Some(version), map[], Ready, NoStatus), Idle, map[version := binary])
  }

  datatype Step = Apply(request: Option<Request>) | Answer(reply: Reply) | Crash

  predicate Enabled(s: State, step: Step) {
    match step
    case Apply(_) => s.pc.Idle?
    case Answer(_) => s.pc.At?
    case Crash => s.pc.At?
  }

  function DoAnswer(s: State, reply: Reply): State
    requires s.pc.At?
  {
    var (host, pc) := Advance(s.host, s.pc.stage, s.pc.job, reply);
    var marks := s.pc.stage == Marking && reply.ok && s.pc.job.target.Some?;
    State(host, pc, if marks then s.trusted[s.pc.job.target.value := s.host.binary] else s.trusted)
  }

  function Next(s: State, step: Step): State
    requires Enabled(s, step)
  {
    match step
    case Apply(request) => s.(pc := Begin(s.host, request))
    case Answer(reply) => DoAnswer(s, reply)
    case Crash => s.(pc := Idle, host := s.host.(service := Uncertain))
  }

  ghost predicate IsRun(s: State, steps: seq<Step>, s': State)
    decreases |steps|
  {
    if steps == [] then s == s'
    else Enabled(s, steps[0]) && IsRun(Next(s, steps[0]), steps[1..], s')
  }

  /** The content trusted for the marked version is installed, or kept in its backup. */
  predicate Recoverable(s: State) {
    && s.host.marker.Some? && s.host.marker.value in s.trusted
    && var v := s.host.marker.value;
      s.host.binary == s.trusted[v] || (v in s.host.backups && s.host.backups[v] == s.trusted[v])
  }

  /** A rollback after the marker was rewritten has put the old binary back, and the marker comes next. */
  predicate InWindow(s: State) {
    s.pc.At? && s.pc.stage == RestoringMarker && s.host.marker != Some(s.pc.job.current)
  }

  /** In the window the marker is put back: neither that call fails nor the process crashes there. */
  predicate ClosesWindow(s: State, step: Step) {
    InWindow(s) ==> step.Answer? && step.reply.ok
  }

  ghost predicate ClosedRun(s: State, steps: seq<Step>, s': State)
    decreases |steps|
  {
    if steps == [] then s == s'
    else Enabled(s, steps[0]) && ClosesWindow(s, steps[0]) && ClosedRun(Next(s, steps[0]), steps[1..], s')
  }

  // ---- the invariant ----

  /** Every backup is of a version up to `top`, and holds what is trusted for it. */
  predicate BackupsGood(s: State, top: Version) {
    forall v :: v in s.host.backups ==> v <= top && v in s.trusted && s.host.backups[v] == s.trusted[v]
  }

  predicate Core(s: State) {
    && s.host.marker.Some? && s.host.marker.value in s.trusted
    && BackupsGood(s, s.host.marker.value)
    && (InWindow(s) || Recoverable(s))
  }

  /** The job is between two known versions, and the marker still names the current one. */
  predicate Unmarked(s: State, job: Job) {
    job.target.Some? && job.current < job.target.value && s.host.marker == Some(job.current)
  }

  /** The marker names the target, and what is installed is trusted for it. */
  predicate Marked(s: State, job: Job) {
    && job.target.Some? && job.current < job.target.value && s.host.marker == job.target
    && job.target.value in s.trusted && s.host.binary == s.trusted[job.target.value]
  }

  predicate BackedUp(s: State, job: Job) {
    && job.current in s.trusted && job.current in s.host.backups
    && BackupsGood(s, job.current)
  }

  /** The old binary is back. */
  predicate Restored(s: State, job: Job) {
    job.current in s.trusted && s.host.binary == s.trusted[job.current] && s.host.marker == Some(job.current)
  }

  predicate StageInv(s: State, stage: Stage, job: Job) {
    match stage
    case Announcing | Fetching | BackingUp => Unmarked(s, job)
    case AnnouncingInstall | Stopping | Replacing | RestartingOld | AnnouncingRestart | StartingNew | CheckingNew
       | Marking => Unmarked(s, job) && BackedUp(s, job)
    case AnnouncingSuccess | RemovingBackup => Marked(s, job) && BackedUp(s, job)
    case StoppingNew | Restoring => (Unmarked(s, job) || Marked(s, job)) && BackedUp(s, job)
    case RestoringMarker =>
      && BackedUp(s, job) && s.host.binary == s.trusted[job.current]
      && (s.host.marker == Some(job.current) || (job.target.Some? && job.current < job.target.value && s.host.marker == job.target))
    case RestartingRestored | CheckingRestored => job.intact ==> Restored(s, job)
    case Reporting => job.intact ==> Restored(s, job) && s.host.service == Ready
  }

  predicate Inv(s: State) {
    Core(s) && (s.pc.At? ==> StageInv(s, s.pc.stage, s.pc.job))
  }

  lemma BackupKeeps(s: State, reply: Reply)
    requires Inv(s) && s.pc.At? && s.pc.stage == BackingUp
    ensures Inv(DoAnswer(s, reply))
  {
  }

  lemma InstallKeeps(s: State, reply: Reply)
    requires Inv(s) && s.pc.At?
    requires s.pc.stage in {AnnouncingInstall, Stopping, Replacing, RestartingOld, AnnouncingRestart, StartingNew, CheckingNew}
    ensures Inv(DoAnswer(s, reply))
  {
  }

  lemma MarkKeeps(s: State, reply: Reply)
    requires Inv(s) && s.pc.At? && s.pc.stage in {Marking, AnnouncingSuccess, RemovingBackup}
    ensures Inv(DoAnswer(s, reply))
  {
  }

  lemma RollbackKeeps(s: State, reply: Reply)
    requires Inv(s) && s.pc.At? && s.pc.stage in {StoppingNew, Restoring, RestoringMarker}
    requires ClosesWindow(s, Answer(reply))
    ensures Inv(DoAnswer(s, reply))
  {
  }

  lemma EndKeeps(s: State, reply: Reply)
    requires Inv(s) && s.pc.At? && s.pc.stage in {Announcing, Fetching, RestartingRestored, CheckingRestored, Reporting}
    ensures Inv(DoAnswer(s, reply))
  {
  }

  lemma NextKeepsInv(s: State, step: Step)
    requires Inv(s) && Enabled(s, step) && ClosesWindow(s, step)
    ensures Inv(Next(s, step))
  {
    match step
    case Apply(_) =>
    case Crash =>
    case Answer(reply) =>
      match s.pc.stage {
        case BackingUp => BackupKeeps(s, reply);
        case AnnouncingInstall | Stopping | Replacing | RestartingOld | AnnouncingRestart | StartingNew | CheckingNew =>
          InstallKeeps(s, reply);
        case Marking | AnnouncingSuccess | RemovingBackup => MarkKeeps(s, reply);
        case StoppingNew | Restoring | RestoringMarker => RollbackKeeps(s, reply);
        case _ => EndKeeps(s, reply);
      }
  }

  lemma {:induction false} RunKeepsInv(s: State, steps: seq<Step>, s': State)
    requires Inv(s) && ClosedRun(s, steps, s')
    ensures Inv(s')
    decreases |steps|
  {
    if steps != [] {
      NextKeepsInv(s, steps[0]);
      RunKeepsInv(Next(s, steps[0]), steps[1..], s');
    }
  }

  // ---- the results ----

  /**
   Whatever failed and wherever the process crashed, the marked version can be recovered: its binary is
   installed or its backup holds it.
   */
  lemma AlwaysRecoverable(binary: Content, version: Version, steps: seq<Step>, s: State)
    requires ClosedRun(Init(binary, version), steps, s) && !InWindow(s)
    ensures Recoverable(s)
  {
    RunKeepsInv(Init(binary, version), steps, s);
  }

  /** In the window, what is next decides: recoverable again exactly when the marker is put back, or nothing differed. */
  lemma WindowDecides(binary: Content, version: Version, steps: seq<Step>, s: State, step: Step)
    requires ClosedRun(Init(binary, version), steps, s) && InWindow(s) && Enabled(s, step)
    ensures s.host.marker.Some? && s.host.marker.value in s.trusted && s.pc.job.current in s.trusted
    ensures Recoverable(Next(s, step)) <==>
            ClosesWindow(s, step) || s.trusted[s.host.marker.value] == s.trusted[s.pc.job.current]
  {
    RunKeepsInv(Init(binary, version), steps, s);
    if ClosesWindow(s, step) {
      NextKeepsInv(s, step);
    }
  }

  lemma {:induction false} ClosedThen(s0: State, steps: seq<Step>, s: State, step: Step)
    requires ClosedRun(s0, steps, s) && Enabled(s, step) && ClosesWindow(s, step)
    ensures ClosedRun(s0, steps + [step], Next(s, step))
    decreases |steps|
  {
    if steps == [] {
      assert ClosedRun(Next(s, step), [], Next(s, step));
      assert ([step])[1..] == [];
    } else {
      ClosedThen(Next(s0, steps[0]), steps[1..], s, step);
      assert (steps + [step])[1..] == steps[1..] + [step];
    }
  }

  /** A call that ends well; when it fetches, it brings `candidate`. */
  function Good(candidate: Content): Step {
    Answer(Reply(true, candidate, {}, Ready))
  }

  /** The update is announced, fetched and backed up, and the service is stopped. */
  lemma WindowPrepares(s0: State, before: seq<Step>, s: State, job: Job) returns (steps: seq<Step>, s': State)
    requires ClosedRun(s0, before, s) && s.pc.Idle? && job.target.Some? && job.intact
    requires s.host.marker == Some(job.current) && job.current < job.target.value
    ensures ClosedRun(s0, steps, s') && s'.pc == At(Replacing, job) && s'.trusted == s.trusted
    ensures s'.host.marker == Some(job.current) && job.current in s'.host.backups
  {
    var apply, good := Apply(Some(Request(job.target.value, job.current))), Good(job.candidate);
    ClosedThen(s0, before, s, apply);
    steps, s' := before + [apply], Next(s, apply);
    ClosedThen(s0, steps, s', good);
    steps, s' := steps + [good], Next(s', good);
    ClosedThen(s0, steps, s', good);
    steps, s' := steps + [good], Next(s', good);
    assert s'.pc == At(BackingUp, job);
    ClosedThen(s0, steps, s', good);
    steps, s' := steps + [good], Next(s', good);
    ClosedThen(s0, steps, s', good);
    steps, s' := steps + [good], Next(s', good);
    ClosedThen(s0, steps, s', good);
    steps, s' := steps + [good], Next(s', good);
  }

  /** The candidate is installed, found healthy and marked. */
  lemma WindowMarks(s0: State, before: seq<Step>, s: State, job: Job) returns (steps: seq<Step>, s': State)
    requires ClosedRun(s0, before, s) && s.pc == At(Replacing, job) && job.target.Some?
    requires job.current in s.host.backups
    ensures ClosedRun(s0, steps, s') && s'.pc == At(AnnouncingSuccess, job)
    ensures s'.host.marker == job.target && s'.host.backups == s.host.backups
    ensures s'.trusted == s.trusted[job.target.value := job.candidate]
  {
    var good := Good(job.candidate);
    ClosedThen(s0, before, s, good);
    steps, s' := before + [good], Next(s, good);
    ClosedThen(s0, steps, s', good);
    steps, s' := steps + [good], Next(s', good);
    ClosedThen(s0, steps, s', good);
    steps, s' := steps + [good], Next(s', good);
    ClosedThen(s0, steps, s', good);
    steps, s' := steps + [good], Next(s', good);
    ClosedThen(s0, steps, s', good);
    steps, s' := steps + [good], Next(s', good);
  }

  /** The success cannot be written, so the service is stopped and the old binary put back. */
  lemma WindowOpens(s0: State, before: seq<Step>, s: State, job: Job) returns (steps: seq<Step>, s': State)
    requires ClosedRun(s0, before, s) && s.pc == At(AnnouncingSuccess, job) && job.target.Some?
    requires job.current in s.host.backups && s.host.marker == job.target && job.current < job.target.value
    ensures ClosedRun(s0, steps, s') && InWindow(s') && s'.pc == At(RestoringMarker, job)
    ensures s'.host.marker == s.host.marker && s'.trusted == s.trusted
  {
    var bad, good := Answer(Reply(false, 0, {}, Ready)), Good(0);
    ClosedThen(s0, before, s, bad);
    steps, s' := before + [bad], Next(s, bad);
    ClosedThen(s0, steps, s', good);
    steps, s' := steps + [good], Next(s', good);
    ClosedThen(s0, steps, s', good);
    steps, s' := steps + [good], Next(s', good);
  }

  /**
   Whenever the updater is idle, an update to a newer version can get into the window: its success cannot
   be written, so it is rolled back. A crash there, and a failure to put the marker back, keep the marked
   version recoverable only if it is what was installed before.
   */
  lemma WindowIsReachable(binary: Content, version: Version, before: seq<Step>, s: State, target: Version, candidate: Content)
      returns (steps: seq<Step>, s': State)
    requires ClosedRun(Init(binary, version), before, s) && s.pc.Idle?
    requires s.host.marker.Some? && s.host.marker.value < target
    ensures ClosedRun(Init(binary, version), steps, s') && InWindow(s')
    ensures s.host.marker.value in s.trusted
    ensures var same := candidate == s.trusted[s.host.marker.value];
      && (Recoverable(Next(s', Crash)) <==> same)
      && forall reply: Reply :: Recoverable(Next(s', Answer(reply))) <==> reply.ok || same
  {
    RunKeepsInv(Init(binary, version), before, s);
    var init, job := Init(binary, version), Job(Some(target), s.host.marker.value, candidate, true);
    var u;
    steps, u := WindowPrepares(init, before, s, job);
    steps, u := WindowMarks(init, steps, u, job);
    steps, s' := WindowOpens(init, steps, u, job);
    WindowDecides(binary, version, steps, s', Crash);
    forall reply: Reply
      ensures Recoverable(Next(s', Answer(reply))) <==> reply.ok || candidate == s.trusted[s.host.marker.value]
    {
      WindowDecides(binary, version, steps, s', Answer(reply));
    }
  }

  /** The first update of a fresh installation can lose the version that the marker names. */
  lemma InstallationIsLost() returns (steps: seq<Step>, s: State)
    ensures ClosedRun(Init(1, 1), steps, s) && InWindow(s)
    ensures !Recoverable(Next(s, Crash)) && !Recoverable(Next(s, Answer(Reply(false, 0, {}, Ready))))
  {
    assert ClosedRun(Init(1, 1), [], Init(1, 1));
    steps, s := WindowIsReachable(1, 1, [], Init(1, 1), 2, 2);
  }

  /** The report that an update succeeded does not fail. */
  predicate ReportsSuccess(s: State, step: Step) {
    s.pc.At? && s.pc.stage == AnnouncingSuccess ==> step.Crash? || (step.Answer? && step.reply.ok)
  }

  ghost predicate PromptRun(s: State, steps: seq<Step>, s': State)
    decreases |steps|
  {
    if steps == [] then s == s'
    else Enabled(s, steps[0]) && ReportsSuccess(s, steps[0]) && PromptRun(Next(s, steps[0]), steps[1..], s')
  }

  /** No rollback is under way after the marker was rewritten. */
  predicate RollsBackUnmarked(s: State) {
    s.pc.At? && s.pc.stage in {StoppingNew, Restoring, RestoringMarker} ==> s.host.marker == Some(s.pc.job.current)
  }

  lemma PromptStep(s: State, step: Step)
    requires Inv(s) && RollsBackUnmarked(s) && Enabled(s, step) && ReportsSuccess(s, step)
    ensures !InWindow(s) && Inv(Next(s, step)) && RollsBackUnmarked(Next(s, step))
  {
    NextKeepsInv(s, step);
  }

  lemma {:induction false} PromptRunKeeps(s: State, steps: seq<Step>, s': State)
    requires Inv(s) && RollsBackUnmarked(s) && PromptRun(s, steps, s')
    ensures Inv(s') && RollsBackUnmarked(s')
    decreases |steps|
  {
    if steps != [] {
      PromptStep(s, steps[0]);
      PromptRunKeeps(Next(s, steps[0]), steps[1..], s');
    }
  }

  /** Failures and crashes anywhere else, and any number of further attempts, never lose the marked version. */
  lemma PromptRunsAreRecoverable(binary: Content, version: Version, steps: seq<Step>, s: State)
    requires PromptRun(Init(binary, version), steps, s)
    ensures Recoverable(s)
  {
    PromptRunKeeps(Init(binary, version), steps, s);
  }

  /** A reported rollback is a complete one: old binary, old marker, healthy service. */
  lemma ReportedRollbackIsComplete(binary: Content, version: Version, steps: seq<Step>, s: State, reply: Reply)
    requires ClosedRun(Init(binary, version), steps, s) && s.pc.At? && s.pc.stage == Reporting && reply.ok
    requires DoAnswer(s, reply).host.status.rollbackPerformed
    ensures var s' := DoAnswer(s, reply); Restored(s', s.pc.job) && s'.host.service == Ready
  {
    RunKeepsInv(Init(binary, version), steps, s);
  }

  // ---- what every run keeps, whatever happened in the window ----

  /** The backup of the current version is installed, and the marker names that version. */
  predicate FromBackup(h: Host, job: Job) {
    h.marker == Some(job.current) && job.current in h.backups && h.binary == h.backups[job.current]
  }

  predicate Ordered(s: State, stage: Stage, job: Job) {
    match stage
    case Announcing | Fetching | BackingUp => Unmarked(s, job)
    case AnnouncingInstall | Stopping | Replacing | RestartingOld | AnnouncingRestart | StartingNew | CheckingNew | Marking =>
      Unmarked(s, job) && job.current in s.host.backups
    case AnnouncingSuccess | RemovingBackup => Marked(s, job) && job.current in s.host.backups
    case StoppingNew | Restoring => job.current in s.host.backups
    case RestoringMarker => job.current in s.host.backups && s.host.binary == s.host.backups[job.current]
    case RestartingRestored | CheckingRestored => job.intact ==> FromBackup(s.host, job)
    case Reporting => job.intact ==> FromBackup(s.host, job) && s.host.service == Ready
  }

  predicate InOrder(s: State) {
    s.pc.At? ==> Ordered(s, s.pc.stage, s.pc.job)
  }

  lemma InstallStaysInOrder(s: State, reply: Reply)
    requires InOrder(s) && s.pc.At?
    requires s.pc.stage in {Announcing, Fetching, BackingUp, AnnouncingInstall, Stopping, Replacing, RestartingOld, AnnouncingRestart}
    ensures InOrder(DoAnswer(s, reply))
  {
  }

  lemma EndStaysInOrder(s: State, reply: Reply)
    requires InOrder(s) && s.pc.At?
    requires s.pc.stage !in {Announcing, Fetching, BackingUp, AnnouncingInstall, Stopping, Replacing, RestartingOld, AnnouncingRestart}
    ensures InOrder(DoAnswer(s, reply))
  {
  }

  lemma NextStaysInOrder(s: State, step: Step)
    requires InOrder(s) && Enabled(s, step)
    ensures InOrder(Next(s, step))
  {
    if step.Answer? {
      if s.pc.stage in {Announcing, Fetching, BackingUp, AnnouncingInstall, Stopping, Replacing, RestartingOld, AnnouncingRestart} {
        InstallStaysInOrder(s, step.reply);
      } else {
        EndStaysInOrder(s, step.reply);
      }
    }
  }

  lemma {:induction false} RunStaysInOrder(s: State, steps: seq<Step>, s': State)
    requires InOrder(s) && IsRun(s, steps, s')
    ensures InOrder(s')
    decreases |steps|
  {
    if steps != [] {
      NextStaysInOrder(s, steps[0]);
      RunStaysInOrder(Next(s, steps[0]), steps[1..], s');
    }
  }

  /** In any run, a reported rollback put the backup of the marked version in place, and the service is healthy. */
  lemma ReportedRollbackRestoresBackup(binary: Content, version: Version, steps: seq<Step>, s: State, reply: Reply)
    requires IsRun(Init(binary, version), steps, s) && s.pc.At? && s.pc.stage == Reporting && reply.ok
    requires DoAnswer(s, reply).host.status.rollbackPerformed
    ensures var h := DoAnswer(s, reply).host; FromBackup(h, s.pc.job) && h.service == Ready
  {
    RunStaysInOrder(Init(binary, version), steps, s);
  }

  /**
   In any run, a reported success is one: the target is marked, and what is installed was found healthy as
   this version.
   */
  lemma ReportedSuccessIsComplete(binary: Content, version: Version, steps: seq<Step>, s: State, reply: Reply)
    requires IsRun(Init(binary, version), steps, s) && s.pc.At? && reply.ok
    requires var status := DoAnswer(s, reply).host.status; status != s.host.status && status.phase == Succeeded
    ensures Marked(DoAnswer(s, reply), s.pc.job) && Recoverable(DoAnswer(s, reply))
  {
    RunStaysInOrder(Init(binary, version), steps, s);
  }
}

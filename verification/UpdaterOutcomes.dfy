/**
 How an update ends, call by call: where each failing call leads, what a whole rollback leaves behind for
 every combination of its calls' outcomes, and what an update leaves whose calls all succeed.
 */
module UpdaterOutcomes {
  import opened Options
  import opened UpdaterSteps
  import opened UpdaterProtocol

  lemma DriveOne(h: Host, pc: Pc, reply: Reply, rest: seq<Reply>)
    requires pc.At?
    ensures Drive(h, pc, [reply] + rest) ==
            Drive(Advance(h, pc.stage, pc.job, reply).0, Advance(h, pc.stage, pc.job, reply).1, rest)
  {
    assert ([reply] + rest)[1..] == rest;
  }

  lemma DriveLast(h: Host, pc: Pc, reply: Reply)
    requires pc.At?
    ensures Drive(h, pc, [reply]) == Advance(h, pc.stage, pc.job, reply)
  {
    assert [reply][1..] == [];
  }

  // ---- a request that is refused, and failures before the service is stopped ----

  /** A request that does not name the installed version and a newer one is reported as failed; nothing else happens. */
  lemma RefusedIsReported(h: Host, request: Option<Request>, report: Reply)
    requires !(request.Some? && h.marker == Some(request.value.current) && request.value.current < request.value.version)
    ensures Drive(h, Begin(h, request), [report]) ==
            (if report.ok then h.(status := DiskStatus(Failed, if request.Some? then Some(request.value.version) else None, false))
             else h, Idle)
  {
    DriveLast(h, Begin(h, request), report);
  }

  /** Until the service is stopped an update touches backups and status only, and it goes on only after a success. */
  lemma EarlyStagesAreHarmless(h: Host, stage: Stage, job: Job, reply: Reply)
    requires stage in {Announcing, Fetching, BackingUp, AnnouncingInstall}
    ensures var (h', pc) := Advance(h, stage, job, reply);
      && h'.binary == h.binary && h'.marker == h.marker && h'.service == h.service
      && (!reply.ok ==> pc == if stage in {Announcing, AnnouncingInstall} then Idle else At(Reporting, job.(intact := false)))
      && (!reply.ok ==> h'.status == h.status)
  {
  }

  /** Backups of other versions may be pruned; the current version's is kept, or made of what is installed. */
  lemma BackupKeepsFirst(h: Host, job: Job, reply: Reply)
    ensures var backups := Advance(h, BackingUp, job, reply).0.backups;
      && (forall v :: v in backups && v != job.current ==> v in h.backups && backups[v] == h.backups[v] && v !in reply.pruned)
      && (forall v :: v in h.backups && v !in reply.pruned ==> v in backups)
      && (job.current in h.backups ==> job.current in backups && backups[job.current] == h.backups[job.current])
      && (job.current !in h.backups ==> (job.current in backups <==> reply.ok))
      && (job.current !in h.backups && reply.ok ==> backups[job.current] == h.binary)
  {
  }

  // ---- failures afterwards ----

  /** When the service cannot be stopped or the binary not replaced, the service is started again and a failure reported. */
  lemma FailedReplacementRestarts(h: Host, job: Job, stage: Stage, failure: Reply, start: Reply, report: Reply)
    requires stage in {Stopping, Replacing} && !failure.ok
    ensures var (h', pc) := Drive(h, At(stage, job), [failure, start, report]);
      && pc == Idle && h'.binary == h.binary && h'.marker == h.marker && h'.backups == h.backups
      && h'.service == (if start.ok then Started else start.after)
      && h'.status == if report.ok then DiskStatus(Failed, job.target, false) else h.status
  {
    assert [failure, start, report] == [failure] + [start, report] && [start, report] == [start] + [report];
    DriveOne(h, At(stage, job), failure, [start, report]);
    var (h1, pc1) := Advance(h, stage, job, failure);
    DriveOne(h1, pc1, start, [report]);
    var (h2, pc2) := Advance(h1, pc1.stage, pc1.job, start);
    DriveLast(h2, pc2, report);
  }

  /** From the replacement on, every call that fails before success is announced leads to a rollback. */
  lemma LateFailureRollsBack(h: Host, job: Job, stage: Stage, failure: Reply)
    requires stage in {AnnouncingRestart, StartingNew, CheckingNew, Marking, AnnouncingSuccess} && !failure.ok
    ensures var (h', pc) := Advance(h, stage, job, failure);
      && pc == At(StoppingNew, job) && h'.binary == h.binary && h'.marker == h.marker
      && h'.backups == h.backups && h'.status == h.status
  {
  }

  // ---- a whole rollback ----

  /** The replies of a rollback in the order of its calls; one that is skipped has no reply. */
  function RollbackReplies(stop: Reply, restore: Reply, mark: Reply, start: Reply, check: Reply, report: Reply): seq<Reply> {
    [stop, restore] + (if restore.ok then [mark] else []) + [start] + (if start.ok then [check] else []) + [report]
  }

  /** Starting, checking and reporting end the rollback, whatever went wrong before. */
  lemma RestartEndsRollback(h: Host, job: Job, start: Reply, check: Reply, report: Reply)
    ensures var (h', pc) := Drive(h, At(RestartingRestored, job), [start] + (if start.ok then [check] else []) + [report]);
      && pc == Idle && h'.binary == h.binary && h'.marker == h.marker && h'.backups == h.backups
      && h'.service == (if !start.ok then start.after else if !check.ok then check.after else Ready)
      && h'.status == if report.ok then DiskStatus(Failed, job.target, job.intact && start.ok && check.ok) else h.status
  {
    var (h1, pc1) := Advance(h, RestartingRestored, job, start);
    if start.ok {
      assert [start] + [check] + [report] == [start] + ([check] + [report]);
      DriveOne(h, At(RestartingRestored, job), start, [check] + [report]);
      DriveOne(h1, pc1, check, [report]);
      var (h2, pc2) := Advance(h1, pc1.stage, pc1.job, check);
      DriveLast(h2, pc2, report);
    } else {
      assert [start] + [] + [report] == [start] + [report];
      DriveOne(h, At(RestartingRestored, job), start, [report]);
      DriveLast(h1, pc1, report);
    }
  }

  /**
   A rollback goes through all its calls, whichever of them fail. It restores the backup of the version it
   came from when that call succeeds and then its marker, starts the service in any case, and is reported as
   performed exactly when restoring, marking, starting and checking all succeeded.
   */
  lemma RollbackOutcome(h: Host, job: Job, stop: Reply, restore: Reply, mark: Reply, start: Reply, check: Reply, report: Reply)
    requires job.current in h.backups && job.intact
    ensures var (h', pc) := Drive(h, At(StoppingNew, job), RollbackReplies(stop, restore, mark, start, check, report));
      && pc == Idle && h'.backups == h.backups
      && h'.binary == (if restore.ok then h.backups[job.current] else h.binary)
      && h'.marker == (if restore.ok && mark.ok then Some(job.current) else h.marker)
      && h'.service == (if !start.ok then start.after else if !check.ok then check.after else Ready)
      && h'.status == if report.ok then DiskStatus(Failed, job.target, restore.ok && mark.ok && start.ok && check.ok) else h.status
  {
    var last := [start] + (if start.ok then [check] else []) + [report];
    var (h1, pc1) := Advance(h, StoppingNew, job, stop);
    var (h2, pc2) := Advance(h1, Restoring, job, restore);
    if restore.ok {
      assert RollbackReplies(stop, restore, mark, start, check, report) == [stop] + ([restore] + ([mark] + last));
      DriveOne(h, At(StoppingNew, job), stop, [restore] + ([mark] + last));
      DriveOne(h1, pc1, restore, [mark] + last);
      DriveOne(h2, pc2, mark, last);
      var (h3, pc3) := Advance(h2, pc2.stage, pc2.job, mark);
      RestartEndsRollback(h3, pc3.job, start, check, report);
    } else {
      assert RollbackReplies(stop, restore, mark, start, check, report) == [stop] + ([restore] + last);
      DriveOne(h, At(StoppingNew, job), stop, [restore] + last);
      DriveOne(h1, pc1, restore, last);
      RestartEndsRollback(h2, pc2.job, start, check, report);
    }
  }

  /** Nothing of the rollback has failed before it begins. */
  predicate Untroubled(s: State) {
    s.pc.At? && s.pc.stage !in {RestartingOld, RestoringMarker, RestartingRestored, CheckingRestored, Reporting} ==> s.pc.job.intact
  }

  lemma {:induction false} RunStaysUntroubled(s: State, steps: seq<Step>, s': State)
    requires Untroubled(s) && IsRun(s, steps, s')
    ensures Untroubled(s')
    decreases |steps|
  {
    if steps != [] {
      NextStaysUntroubled(s, steps[0]);
      RunStaysUntroubled(Next(s, steps[0]), steps[1..], s');
    }
  }

  lemma NextStaysUntroubled(s: State, step: Step)
    requires Untroubled(s) && Enabled(s, step)
    ensures Untroubled(Next(s, step))
  {
  }

  /**
   In any run that has come to a rollback: it ends with the backup installed and marked, the service ready and
   the rollback reported when its calls succeed, whether or not the new service could be stopped.
   */
  lemma GoodRollbackIsReported(binary: Content, version: Version, steps: seq<Step>, s: State, stop: Reply, good: Reply)
    requires IsRun(Init(binary, version), steps, s) && s.pc.At? && s.pc.stage == StoppingNew && good.ok
    ensures var (h, job) := (s.host, s.pc.job);
      && job.current in h.backups
      && Drive(h, s.pc, RollbackReplies(stop, good, good, good, good, good)) ==
         (h.(binary := h.backups[job.current], marker := Some(job.current), service := Ready,
             status := DiskStatus(Failed, job.target, true)), Idle)
  {
    RunStaysInOrder(Init(binary, version), steps, s);
    RunStaysUntroubled(Init(binary, version), steps, s);
    RollbackOutcome(s.host, s.pc.job, stop, good, good, good, good, good);
  }

  // ---- what is trusted ----

  /** A new version is marked only after its service was found ready. */
  predicate CheckedBeforeMarking(s: State) {
    s.pc.At? && s.pc.stage == Marking ==> s.host.service == Ready
  }

  lemma NextChecksBeforeMarking(s: State, step: Step)
    requires CheckedBeforeMarking(s) && Enabled(s, step)
    ensures CheckedBeforeMarking(Next(s, step))
  {
  }

  lemma {:induction false} RunChecksBeforeMarking(s: State, steps: seq<Step>, s': State)
    requires CheckedBeforeMarking(s) && IsRun(s, steps, s')
    ensures CheckedBeforeMarking(s')
    decreases |steps|
  {
    if steps != [] {
      NextChecksBeforeMarking(s, steps[0]);
      RunChecksBeforeMarking(Next(s, steps[0]), steps[1..], s');
    }
  }

  /** In any run a content becomes trusted for a version only when it is installed, ready and has just been marked so. */
  lemma TrustIsEarned(binary: Content, version: Version, steps: seq<Step>, s: State, step: Step)
    requires IsRun(Init(binary, version), steps, s) && Enabled(s, step)
    ensures var s' := Next(s, step);
      if step.Answer? && s.pc.stage == Marking && step.reply.ok && s.pc.job.target.Some? then
        && s'.trusted == s.trusted[s.pc.job.target.value := s.host.binary]
        && s'.host.marker == s.pc.job.target && s'.host.binary == s.host.binary && s'.host.service == Ready
      else s'.trusted == s.trusted
  {
    RunChecksBeforeMarking(Init(binary, version), steps, s);
  }

  // ---- an update whose calls succeed ----

  predicate AllGood(replies: seq<Reply>) {
    forall i :: 0 <= i < |replies| ==> replies[i].ok
  }

  /** From the request to the announced installation: nothing but backups and status has changed. */
  lemma PreparationSucceeds(h: Host, request: Request, replies: seq<Reply>)
    requires h.marker == Some(request.current) && request.current < request.version
    requires |replies| == 4 && AllGood(replies)
    ensures var (h', pc) := Drive(h, Begin(h, Some(request)), replies);
      && pc == At(Stopping, Job(Some(request.version), request.current, replies[1].candidate, true))
      && request.current in h'.backups
      && h'.binary == h.binary && h'.marker == h.marker && h'.status == DiskStatus(Installing, Some(request.version), false)
  {
    var pc0 := Begin(h, Some(request));
    var (h1, pc1) := Advance(h, pc0.stage, pc0.job, replies[0]);
    var (h2, pc2) := Advance(h1, pc1.stage, pc1.job, replies[1]);
    var (h3, pc3) := Advance(h2, pc2.stage, pc2.job, replies[2]);
    assert replies == [replies[0]] + ([replies[1]] + ([replies[2]] + [replies[3]]));
    DriveOne(h, pc0, replies[0], [replies[1]] + ([replies[2]] + [replies[3]]));
    DriveOne(h1, pc1, replies[1], [replies[2]] + [replies[3]]);
    DriveOne(h2, pc2, replies[2], [replies[3]]);
    DriveLast(h3, pc3, replies[3]);
  }

  /** From the stop to a healthy new version: its binary is installed and its service ready, the marker is still the old one. */
  lemma ReplacementSucceeds(h: Host, job: Job, replies: seq<Reply>)
    requires |replies| == 5 && AllGood(replies)
    ensures var (h', pc) := Drive(h, At(Stopping, job), replies);
      && pc == At(Marking, job) && h'.binary == job.candidate && h'.service == Ready
      && h'.marker == h.marker && h'.backups == h.backups && h'.status == DiskStatus(Restarting, job.target, false)
  {
    var (h1, pc1) := Advance(h, Stopping, job, replies[0]);
    var (h2, pc2) := Advance(h1, pc1.stage, pc1.job, replies[1]);
    var (h3, pc3) := Advance(h2, pc2.stage, pc2.job, replies[2]);
    var (h4, pc4) := Advance(h3, pc3.stage, pc3.job, replies[3]);
    assert replies == [replies[0]] + ([replies[1]] + ([replies[2]] + ([replies[3]] + [replies[4]])));
    DriveOne(h, At(Stopping, job), replies[0], [replies[1]] + ([replies[2]] + ([replies[3]] + [replies[4]])));
    DriveOne(h1, pc1, replies[1], [replies[2]] + ([replies[3]] + [replies[4]]));
    DriveOne(h2, pc2, replies[2], [replies[3]] + [replies[4]]);
    DriveOne(h3, pc3, replies[3], [replies[4]]);
    DriveLast(h4, pc4, replies[4]);
  }

  /** The new version is marked, its success announced, and the old version's backup removed. */
  lemma MarkingSucceeds(h: Host, job: Job, replies: seq<Reply>)
    requires |replies| == 3 && AllGood(replies)
    ensures Drive(h, At(Marking, job), replies) ==
            (h.(marker := job.target, status := DiskStatus(Succeeded, job.target, false), backups := h.backups - {job.current}), Idle)
  {
    var (h1, pc1) := Advance(h, Marking, job, replies[0]);
    var (h2, pc2) := Advance(h1, pc1.stage, pc1.job, replies[1]);
    assert replies == [replies[0]] + ([replies[1]] + [replies[2]]);
    DriveOne(h, At(Marking, job), replies[0], [replies[1]] + [replies[2]]);
    DriveOne(h1, pc1, replies[1], [replies[2]]);
    DriveLast(h2, pc2, replies[2]);
  }

  lemma {:induction false} DriveInTwo(h: Host, pc: Pc, a: seq<Reply>, b: seq<Reply>)
    ensures var (h', pc') := Drive(h, pc, a); Drive(h, pc, a + b) == Drive(h', pc', b)
    decreases |a|
  {
    if pc.Idle? || a == [] {
      assert a == [] ==> a + b == b;
    } else {
      var (h', pc') := Advance(h, pc.stage, pc.job, a[0]);
      assert (a + b)[1..] == a[1..] + b;
      DriveInTwo(h', pc', a[1..], b);
    }
  }

  /** An acceptable request whose twelve calls succeed ends with the verified candidate installed, marked, ready and reported. */
  lemma UpdateSucceeds(h: Host, request: Request, prepare: seq<Reply>, replace: seq<Reply>, mark: seq<Reply>)
    requires h.marker == Some(request.current) && request.current < request.version
    requires |prepare| == 4 && |replace| == 5 && |mark| == 3 && AllGood(prepare + replace + mark)
    ensures var (h', pc) := Drive(h, Begin(h, Some(request)), prepare + (replace + mark));
      && pc == Idle && h'.binary == prepare[1].candidate && h'.marker == Some(request.version) && h'.service == Ready
      && h'.status == DiskStatus(Succeeded, Some(request.version), false) && request.current !in h'.backups
  {
    var all := prepare + replace + mark;
    assert prepare == all[..4] && replace == all[4..9] && mark == all[9..];
    PreparationSucceeds(h, request, prepare);
    var (h1, pc1) := Drive(h, Begin(h, Some(request)), prepare);
    ReplacementSucceeds(h1, pc1.job, replace);
    var (h2, pc2) := Drive(h1, pc1, replace);
    MarkingSucceeds(h2, pc2.job, mark);
    DriveInTwo(h, Begin(h, Some(request)), prepare, replace + mark);
    DriveInTwo(h1, pc1, replace, mark);
  }
}

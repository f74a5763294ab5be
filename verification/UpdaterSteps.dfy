/**
 Installing a release: the calls that change the host, in order, and what the outcome of each leads
 to. A call that reports an error changed nothing; files are replaced by renaming, so no call leaves
 one half written.
 */
module UpdaterSteps {
  import opened Options

  type Content = nat

  /** Release numbers, in their order. */
  type Version = nat

  datatype Service = Stopped | Started | Ready | Uncertain

  datatype Phase = Downloading | Installing | Restarting | Succeeded | Failed

  datatype DiskStatus = NoStatus | DiskStatus(phase: Phase, target: Option<Version>, rollbackPerformed: bool)

  /** What lies on the disk of the host, and how the service is. */
  datatype Host = Host(binary: Content, marker: Option<Version>, backups: map<Version, Content>, service: Service, status: DiskStatus)

  datatype Request = Request(version: Version, current: Version)

  /** The call that comes next. */
  datatype Stage =
    | Announcing | Fetching | BackingUp | AnnouncingInstall | Stopping | Replacing | RestartingOld | AnnouncingRestart
    | StartingNew | CheckingNew | Marking | AnnouncingSuccess | RemovingBackup
    | StoppingNew | Restoring | RestoringMarker | RestartingRestored | CheckingRestored | Reporting

  /** The locals of one Apply: `intact` says that no step of the rollback has failed so far. */
  datatype Job = Job(target: Option<Version>, current: Version, candidate: Content, intact: bool)

  datatype Pc = Idle | At(stage: Stage, job: Job)

  /** How a call ended, with what it may bring: a verified candidate, the backups that were pruned, the state of the service. */
  datatype Reply = Reply(ok: bool, candidate: Content, pruned: set<Version>, after: Service)

  /** The request names the installed version and a newer one. */
  predicate IsAcceptable(h: Host, request: Option<Request>) {
    request.Some? && h.marker == Some(request.value.current) && request.value.current < request.value.version
  }

  function Begin(h: Host, request: Option<Request>): Pc {
    if IsAcceptable(h, request) then
      At(Announcing, Job(Some(request.value.version), request.value.current, 0, true))
    else
      At(Reporting, Job(if request.Some? then Some(request.value.version) else None, 0, 0, false))
  }

  function Saying(h: Host, phase: Phase, job: Job, rollback: bool): Host {
    h.(status := DiskStatus(phase, job.target, rollback))
  }

  /** Ends with a failure that needed no rollback. */
  function Fail(job: Job): Pc {
    At(Reporting, job.(intact := false))
  }

  function AfterPrune(h: Host, current: Version, pruned: set<Version>): Host {
    h.(backups := map v | v in h.backups && (v == current || v !in pruned) :: h.backups[v])
  }

  /** Other backups are pruned; the one of the current version is made only if there is none yet. */
  function AfterBackup(h: Host, job: Job, reply: Reply): (r: (Host, Pc)) {
    var pruned := AfterPrune(h, job.current, reply.pruned);
    if !reply.ok then (pruned, Fail(job))
    else if job.current in pruned.backups then (pruned, At(AnnouncingInstall, job))
    else (pruned.(backups := pruned.backups[job.current := h.binary]), At(AnnouncingInstall, job))
  }

  function AfterStart(h: Host, reply: Reply): Host {
    h.(service := if reply.ok then Started else reply.after)
  }

  function AfterStop(h: Host, reply: Reply): Host {
    h.(service := if reply.ok then Stopped else reply.after)
  }

  function AfterHealth(h: Host, reply: Reply): Host {
    h.(service := if reply.ok then Ready else reply.after)
  }

  /** Puts the backup of the current version back in place. */
  function AfterRestore(h: Host, job: Job, reply: Reply): (r: (Host, Pc)) {
    if reply.ok && job.current in h.backups then (h.(binary := h.backups[job.current]), At(RestoringMarker, job))
    else (h, At(RestartingRestored, job.(intact := false)))
  }

  /** What the reply to the call at this stage leads to. */
  function Advance(h: Host, stage: Stage, job: Job, reply: Reply): (r: (Host, Pc)) {
    match stage
    case Announcing => if reply.ok then (Saying(h, Downloading, job, false), At(Fetching, job)) else (h, Idle)
    case Fetching => (h, if reply.ok then At(BackingUp, job.(candidate := reply.candidate)) else Fail(job))
    case BackingUp => AfterBackup(h, job, reply)
    case AnnouncingInstall => if reply.ok then (Saying(h, Installing, job, false), At(Stopping, job)) else (h, Idle)
    case Stopping => (AfterStop(h, reply), At(if reply.ok then Replacing else RestartingOld, job))
    case Replacing =>
      if reply.ok then (h.(binary := job.candidate), At(AnnouncingRestart, job)) else (h, At(RestartingOld, job))
    case RestartingOld => (AfterStart(h, reply), Fail(job))
    case AnnouncingRestart =>
      if reply.ok then (Saying(h, Restarting, job, false), At(StartingNew, job)) else (h, At(StoppingNew, job))
    case StartingNew => (AfterStart(h, reply), At(if reply.ok then CheckingNew else StoppingNew, job))
    case CheckingNew => (AfterHealth(h, reply), At(if reply.ok then Marking else StoppingNew, job))
    case Marking => if reply.ok then (h.(marker := job.target), At(AnnouncingSuccess, job)) else (h, At(StoppingNew, job))
    case AnnouncingSuccess =>
      if reply.ok then (Saying(h, Succeeded, job, false), At(RemovingBackup, job)) else (h, At(StoppingNew, job))
    case RemovingBackup => (if reply.ok then h.(backups := h.backups - {job.current}) else h, Idle)
    case StoppingNew => (AfterStop(h, reply), At(Restoring, job))
    case Restoring => AfterRestore(h, job, reply)
    case RestoringMarker =>
      if reply.ok then (h.(marker := Some(job.current)), At(RestartingRestored, job))
      else (h, At(RestartingRestored, job.(intact := false)))
    case RestartingRestored =>
      (AfterStart(h, reply), if reply.ok then At(CheckingRestored, job) else At(Reporting, job.(intact := false)))
    case CheckingRestored => (AfterHealth(h, reply), At(Reporting, if reply.ok then job else job.(intact := false)))
    case Reporting => (if reply.ok then Saying(h, Failed, job, job.intact) else h, Idle)
  }

  /** Goes on with the replies until the work is over. */
  function Drive(h: Host, pc: Pc, replies: seq<Reply>): (r: (Host, Pc))
    decreases |replies|
  {
    if pc.Idle? || replies == [] then (h, pc)
    else
      var (h', pc') := Advance(h, pc.stage, pc.job, replies[0]);
      Drive(h', pc', replies[1..])
  }
}

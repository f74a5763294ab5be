/**
 The updater as it runs. The outcome of every call comes from `replies`; the methods change the host
 call by call and are proved to be runs of `Advance`.
 */
module Updater {
  import opened Options
  import opened UpdaterSteps

  lemma DriveOn(h: Host, stage: Stage, job: Job, replies: seq<Reply>, next: nat)
    requires next < |replies|
    ensures var (h', pc') := Advance(h, stage, job, replies[next]);
      Drive(h, At(stage, job), replies[next..]) == Drive(h', pc', replies[next + 1..])
  {
    assert replies[next..][1..] == replies[next + 1..];
  }

  class Updater {
    var binary: Content
    var marker: Option<Version>
    var backups: map<Version, Content>
    var service: Service
    var status: DiskStatus

    function View(): Host
      reads this
    {
      Host(binary, marker, backups, service, status)
    }

    /** Prunes other backups, and makes the one of the current version unless there is one. */
    method BackUp(job: Job, reply: Reply) returns (ok: bool)
      modifies this`backups
      ensures (View(), if ok then At(AnnouncingInstall, job) else Fail(job)) == AfterBackup(old(View()), job, reply)
      ensures ok == reply.ok
    {
      backups := map v | v in backups && (v == job.current || v !in reply.pruned) :: backups[v];
      if reply.ok && job.current !in backups {
        backups := backups[job.current := binary];
      }
      return reply.ok;
    }

    /** Announces the update, fetches and verifies the candidate, and backs the current binary up. */
    method Prepare(start: Job, replies: seq<Reply>, first: nat) returns (pc: Pc, next: nat)
      requires first + 4 <= |replies|
      modifies this
      ensures next <= first + 4 && (pc.At? ==> pc.stage == Stopping || pc.stage == Reporting)
      ensures Drive(View(), pc, replies[next..]) == Drive(old(View()), At(Announcing, start), replies[first..])
    {
      var job := start;
      next := first;
      DriveOn(View(), Announcing, job, replies, next);
      next := next + 1;
      if !replies[next - 1].ok {
        return Idle, next;
      }
      status := DiskStatus(Downloading, job.target, false);
      DriveOn(View(), Fetching, job, replies, next);
      next := next + 1;
      if !replies[next - 1].ok {
        return Fail(job), next;
      }
      job := job.(candidate := replies[next - 1].candidate);
      DriveOn(View(), BackingUp, job, replies, next);
      var saved := BackUp(job, replies[next]);
      next := next + 1;
      if !saved {
        return Fail(job), next;
      }
      DriveOn(View(), AnnouncingInstall, job, replies, next);
      next := next + 1;
      if !replies[next - 1].ok {
        return Idle, next;
      }
      status := DiskStatus(Installing, job.target, false);
      pc := At(Stopping, job);
    }
 
    /** Stops the service, replaces the binary, starts and checks it, and marks the new version. */
    method Install(job: Job, replies: seq<Reply>, first: nat) returns (pc: Pc, next: nat)
      requires first + 7 <= |replies|
      modifies this
      ensures next <= first + 7 && pc.At? && (pc.stage == StoppingNew || pc.stage == Reporting || pc.stage == RemovingBackup)
      ensures Drive(View(), pc, replies[next..]) == Drive(old(View()), At(Stopping, job), replies[first..])
    {
      next := first;
      DriveOn(View(), Stopping, job, replies, next);
      next := next + 1;
      service := if replies[next - 1].ok then Stopped else replies[next - 1].after;
      var replaced := false;
      if replies[next - 1].ok {
        DriveOn(View(), Replacing, job, replies, next);
        next := next + 1;
        replaced := replies[next - 1].ok;
        binary := if replaced then job.candidate else binary;
      }
      if !replaced {
        DriveOn(View(), RestartingOld, job, replies, next);
        next := next + 1;
        service := if replies[next - 1].ok then Started else replies[next - 1].after;
        return Fail(job), next;
      }
      pc, next := StartNew(job, replies, next);
    }

    method StartNew(job: Job, replies: seq<Reply>, first: nat) returns (pc: Pc, next: nat)
      requires first + 5 <= |replies|
      modifies this
      ensures next <= first + 5 && (pc == At(StoppingNew, job) || pc == At(RemovingBackup, job))
      ensures Drive(View(), pc, replies[next..]) == Drive(old(View()), At(AnnouncingRestart, job), replies[first..])
    {
      pc, next := At(StoppingNew, job), first;
      DriveOn(View(), AnnouncingRestart, job, replies, next);
      next := next + 1;
      if !replies[next - 1].ok {
        return;
      }
      status := DiskStatus(Restarting, job.target, false);
      DriveOn(View(), StartingNew, job, replies, next);
      next := next + 1;
      service := if replies[next - 1].ok then Started else replies[next - 1].after;
      if !replies[next - 1].ok {
        return;
      }
      DriveOn(View(), CheckingNew, job, replies, next);
      next := next + 1;
      service := if replies[next - 1].ok then Ready else replies[next - 1].after;
      if !replies[next - 1].ok {
        return;
      }
      pc, next := MarkNew(job, replies, next);
    }

    /** Rewrites the marker and reports the success. */
    method MarkNew(job: Job, replies: seq<Reply>, first: nat) returns (pc: Pc, next: nat)
      requires first + 2 <= |replies|
      modifies this
      ensures next <= first + 2 && (pc == At(StoppingNew, job) || pc == At(RemovingBackup, job))
      ensures Drive(View(), pc, replies[next..]) == Drive(old(View()), At(Marking, job), replies[first..])
    {
      pc, next := At(StoppingNew, job), first;
      DriveOn(View(), Marking, job, replies, next);
      next := next + 1;
      if !replies[next - 1].ok {
        return;
      }
      marker := job.target;
      DriveOn(View(), AnnouncingSuccess, job, replies, next);
      next := next + 1;
      if !replies[next - 1].ok {
        return;
      }
      status := DiskStatus(Succeeded, job.target, false);
      pc := At(RemovingBackup, job);
    }

    /** Stops the service and puts the old binary and marker back; what failed is remembered. */
    method RestoreFiles(start: Job, replies: seq<Reply>, first: nat) returns (job: Job, next: nat)
      requires first + 3 <= |replies|
      modifies this
      ensures next <= first + 3
      ensures Drive(View(), At(RestartingRestored, job), replies[next..])
           == Drive(old(View()), At(StoppingNew, start), replies[first..])
    {
      job, next := start, first;
      DriveOn(View(), StoppingNew, job, replies, next);
      service := if replies[next].ok then Stopped else replies[next].after;
      next := next + 1;
      DriveOn(View(), Restoring, job, replies, next);
      next := next + 1;
      if !replies[next - 1].ok || job.current !in backups {
        return job.(intact := false), next;
      }
      binary := backups[job.current];
      DriveOn(View(), RestoringMarker, job, replies, next);
      next := next + 1;
      if !replies[next - 1].ok {
        return job.(intact := false), next;
      }
      marker := Some(job.current);
    }

    /** Restarts the service, whether or not the files are back, and checks it. */
    method RestartRestored(start: Job, replies: seq<Reply>, first: nat) returns (job: Job, next: nat)
      requires first + 2 <= |replies|
      modifies this
      ensures next <= first + 2
      ensures Drive(View(), At(Reporting, job), replies[next..])
           == Drive(old(View()), At(RestartingRestored, start), replies[first..])
    {
      next := first;
      DriveOn(View(), RestartingRestored, start, replies, next);
      next := next + 1;
      service := if replies[next - 1].ok then Started else replies[next - 1].after;
      if !replies[next - 1].ok {
        return start.(intact := false), next;
      }
      DriveOn(View(), CheckingRestored, start, replies, next);
      next := next + 1;
      service := if replies[next - 1].ok then Ready else replies[next - 1].after;
      job := if replies[next - 1].ok then start else start.(intact := false);
    }

    method Rollback(start: Job, replies: seq<Reply>, first: nat) returns (job: Job, next: nat)
      requires first + 5 <= |replies|
      modifies this
      ensures next <= first + 5
      ensures Drive(View(), At(Reporting, job), replies[next..]) == Drive(old(View()), At(StoppingNew, start), replies[first..])
    {
      var restored, i := RestoreFiles(start, replies, first);
      job, next := RestartRestored(restored, replies, i);
    }

    method FailApply(job: Job, replies: seq<Reply>, next: nat)
      requires next < |replies|
      modifies this`status
      ensures Drive(old(View()), At(Reporting, job), replies[next..]) == (View(), Idle)
    {
      DriveOn(View(), Reporting, job, replies, next);
      if replies[next].ok {
        status := DiskStatus(Failed, job.target, job.intact);
      }
    }

    /** One request, from its check to the report. */
    method Apply(request: Option<Request>, replies: seq<Reply>)
      requires |replies| > 16
      modifies this
      ensures (View(), Idle) == Drive(old(View()), Begin(old(View()), request), replies)
    {
      assert replies[0..] == replies;
      var pc, next := Begin(View(), request), 0;
      if pc.stage == Announcing {
        pc, next := Prepare(pc.job, replies, next);
        if pc.Idle? {
          return;
        }
      }
      if pc.stage == Stopping {
        pc, next := Install(pc.job, replies, next);
      }
      if pc.stage == RemovingBackup {
        DriveOn(View(), RemovingBackup, pc.job, replies, next);
        backups := if replies[next].ok then backups - {pc.job.current} else backups;
        return;
      }
      var job := pc.job;
      if pc.stage == StoppingNew {
        job, next := Rollback(job, replies, next);
      }
      FailApply(job, replies, next);
    }
  }
}

/**
 The passes of one folder make progress: a pass asks for what its checkpoint leaves open and nothing else,
 the last UID it records is over everything it fetched, and what one pass recorded no later one fetches.
 */
module FolderProgress {
  import opened Options
  import opened FolderStore
  import opened FolderMirror

  // ---- a pass from one moment to a later one ----

  predicate Ends(step: Step, p: PassId) {
    step == CompleteTx(p) || step == Abort(p)
  }

  /** A run through which pass `p` goes on: it neither completes nor fails. */
  ghost predicate Follows(s: State, steps: seq<Step>, s': State, p: PassId)
    decreases |steps|
  {
    if steps == [] then s == s'
    else Enabled(s, steps[0]) && !Ends(steps[0], p) && Follows(Next(s, steps[0]), steps[1..], s', p)
  }

  function KindOf(pass: Pass): Kind {
    match pass
    case CheckpointRead(kind, _) => kind
    case Timed(kind, _, _) => kind
    case Selected(kind, _, _, _) => kind
    case Prepared(kind, _, _, _) => kind
    case _ => pass.goal.kind
  }

  function CheckpointOf(pass: Pass): Checkpoint {
    match pass
    case CheckpointRead(_, cp) => cp
    case Timed(_, cp, _) => cp
    case Selected(_, cp, _, _) => cp
    case Prepared(_, cp, _, _) => cp
    case _ => pass.goal.cp
  }

  function BoundaryOf(pass: Pass): Option<int> {
    match pass
    case CheckpointRead(_, _) => None
    case Timed(_, _, boundary) => Some(boundary)
    case Selected(_, _, boundary, _) => Some(boundary)
    case Prepared(_, _, boundary, _) => Some(boundary)
    case _ => Some(pass.goal.boundary)
  }

  function GoalOf(pass: Pass): Option<Goal> {
    match pass
    case CheckpointRead(_, _) => None
    case Timed(_, _, _) => None
    case Selected(_, _, _, _) => None
    case Prepared(_, _, _, _) => None
    case _ => Some(pass.goal)
  }

  /** What a pass once settled it keeps. */
  predicate Settled(was: Pass, now: Pass) {
    && KindOf(now) == KindOf(was) && CheckpointOf(now) == CheckpointOf(was)
    && (BoundaryOf(was).Some? ==> BoundaryOf(now) == BoundaryOf(was))
    && (GoalOf(was).Some? ==> GoalOf(now) == GoalOf(was))
  }

  lemma StepSettles(s: State, step: Step, p: PassId)
    requires p in s.passes && Enabled(s, step) && !Ends(step, p)
    ensures p in Next(s, step).passes && Settled(s.passes[p], Next(s, step).passes[p])
  {
    if step.Append? || step.Expunge? || step.Tick? || step.p != p {
    } else {
      OwnStepSettles(s, step);
    }
  }

  lemma OwnStepSettles(s: State, step: Step)
    requires !step.Append? && !step.Expunge? && !step.Tick? && step.p in s.passes
    requires Enabled(s, step) && !Ends(step, step.p)
    ensures NextPass(s, step).Some? && Settled(s.passes[step.p], NextPass(s, step).value)
  {
  }

  lemma {:induction false} FollowingSettles(s: State, steps: seq<Step>, s': State, p: PassId)
    requires p in s.passes && Sane(s) && Follows(s, steps, s', p)
    ensures Sane(s') && p in s'.passes && Settled(s.passes[p], s'.passes[p])
    decreases |steps|
  {
    if steps != [] {
      StepSettles(s, steps[0], p);
      StepKeepsSane(s, steps[0]);
      FollowingSettles(Next(s, steps[0]), steps[1..], s', p);
    }
  }

  // ---- what a pass asks for ----

  /** A message dated `date` is in the part of the mailbox that such a pass has to fetch: the window is 90 days. */
  predicate IsLeft(kind: Kind, cp: Checkpoint, now: int, u: Uid, date: int) {
    if kind == History then date < now - 7776000
    else if cp.validity == 0 then date >= now - 7776000
    else u > cp.last || u == cp.last == 0xFFFF_FFFF
  }

  /** What is left to a pass that read the checkpoint `cp` and the clock at `now`. */
  ghost function Left(w: World, kind: Kind, cp: Checkpoint, now: int): set<Uid> {
    set u | u in w.remote.present && u in w.remote.dates && IsLeft(kind, cp, now, u, w.remote.dates[u])
  }

  /**
   In any run a search is answered with that part and nothing else. When it is beyond the search limit, a
   search is answered only if it is incremental, and then with the lowest UIDs.
   */
  lemma SearchesWhatIsLeft(s0: State, before: seq<Step>, s: State, p: PassId, during: seq<Step>, s': State, uids: set<Uid>)
    requires Init(s0) && IsRun(s0, before, s) && Enabled(s, ReadClock(p))
    requires Follows(Next(s, ReadClock(p)), during, s', p) && Enabled(s', Search(p, uids))
    ensures var left := Left(s'.w, s.passes[p].kind, s.passes[p].cp, s.w.now);
      if |left| <= 100000 then uids == left
      else && uids <= left && |uids| == 100000 && (forall u, v :: u in uids && v in left && v !in uids ==> u < v)
           && s.passes[p].kind != History && s.passes[p].cp.validity != 0
  {
    InitSane(s0);
    RunKeepsSane(s0, before, s);
    var cp := s.passes[p].cp;
    StepKeepsSane(s, ReadClock(p));
    FollowingSettles(Next(s, ReadClock(p)), during, s', p);
    assert PassSane(s'.w, s'.passes[p]);
    var pass := s'.passes[p];
    var asked := Asked(s'.w, pass.kind, pass.cp, pass.boundary);
    AskedIsLeft(s', p, s.w.now);
    var left := Left(s'.w, s.passes[p].kind, s.passes[p].cp, s.w.now);
    assert asked == left;
    forall u, v | |left| > 100000 && u in uids && v in left && v !in uids
      ensures u < v
    {
      assert v in asked - uids;
    }
  }

  lemma AskedIsLeft(s: State, p: PassId, now: int)
    requires Sane(s) && p in s.passes && (s.passes[p].Selected? || s.passes[p].Prepared?)
    requires s.passes[p].boundary == now - WINDOW
    ensures var pass := s.passes[p];
      forall u :: u in Asked(s.w, pass.kind, pass.cp, pass.boundary) <==>
                  u in s.w.remote.present && u in s.w.remote.dates && IsLeft(pass.kind, pass.cp, now, u, s.w.remote.dates[u])
  {
    var pass := s.passes[p];
    assert PassSane(s.w, pass);
    forall u | u in s.w.remote.present && u in s.w.remote.dates && pass.kind != History && pass.cp.validity != 0
      ensures u >= FetchFrom(pass.cp) <==> IsLeft(pass.kind, pass.cp, now, u, s.w.remote.dates[u])
    {
    }
  }

  // ---- what a pass records ----

  /** The last UID to be recorded is settled by the search: over its answer, and over UIDNEXT in a first pass. */
  lemma SearchSetsTarget(s: State, p: PassId, uids: set<Uid>)
    requires Sane(s) && Enabled(s, Search(p, uids)) && s.passes[p].kind != History
    ensures var pass, next := s.passes[p], Next(s, Search(p, uids)).passes[p];
      && GoalOf(next).Some? && GoalOf(next).value.cp == pass.cp && GoalOf(next).value.kind == pass.kind
      && var target := GoalOf(next).value.target;
      && (forall u :: u in uids ==> u <= target)
      && if pass.cp.validity == 0 then pass.uidNext - 1 <= target && (target == pass.uidNext - 1 || target in uids)
         else target == pass.cp.last || target in uids
  {
    assert PassSane(s.w, s.passes[p]);
  }

  lemma CompletionRecords(s: State, p: PassId)
    requires Sane(s) && Enabled(s, CompleteTx(p))
    ensures var goal, local, local' := s.passes[p].goal, s.w.local, Next(s, CompleteTx(p)).w.local;
      if goal.kind == History then local' == local.(backfillPending := false)
      else local' == local.(last := if goal.target < local.last then local.last else goal.target)
    ensures s.passes[p].goal.kind != History && s.passes[p].goal.cp.validity != 0 ==> s.passes[p].goal.cp.last <= s.w.local.last
    ensures s.w.local.validity != 0
  {
    assert PassSane(s.w, s.passes[p]);
  }

  /**
   Whatever else runs between a pass's search and its completion: when it completes, the last UID is at or
   above every UID that its search answered. An incremental pass records no other UID than one of these, so
   a message that the server shows late is not passed over; a first pass also covers UIDNEXT.
   */
  lemma PassAdvances(s0: State, before: seq<Step>, s: State, p: PassId, uids: set<Uid>, during: seq<Step>, s': State)
    requires Init(s0) && IsRun(s0, before, s) && Enabled(s, Search(p, uids)) && s.passes[p].kind != History
    requires Follows(Next(s, Search(p, uids)), during, s', p) && Enabled(s', CompleteTx(p))
    ensures var was, last, uidNext := s'.w.local.last, Next(s', CompleteTx(p)).w.local.last, s.passes[p].uidNext;
      && (forall u :: u in uids ==> u <= last)
      && (last == was || last in uids || (s.passes[p].cp.validity == 0 && last == uidNext - 1))
      && (s.passes[p].cp.validity == 0 ==> uidNext - 1 <= last)
  {
    InitSane(s0);
    RunKeepsSane(s0, before, s);
    SearchSetsTarget(s, p, uids);
    StepKeepsSane(s, Search(p, uids));
    FollowingSettles(Next(s, Search(p, uids)), during, s', p);
    CompletionRecords(s', p);
  }

  /** The last UID moves only when a pass completes, and only a history pass ends the wait for the history. */
  lemma OnlyCompletionRecords(s0: State, steps: seq<Step>, s: State, step: Step)
    requires Init(s0) && IsRun(s0, steps, s) && Enabled(s, step)
    ensures Next(s, step).w.local.last != s.w.local.last ==> step.CompleteTx?
    ensures Next(s, step).w.local.backfillPending <==>
            s.w.local.backfillPending && !(step.CompleteTx? && s.passes[step.p].goal.kind == History)
  {
    InitSane(s0);
    RunKeepsSane(s0, steps, s);
    if step.CompleteTx? {
      CompletionRecords(s, step.p);
    }
  }

  lemma {:induction false} LastStays(s: State, steps: seq<Step>, s': State)
    requires Sane(s) && IsRun(s, steps, s') && forall i :: 0 <= i < |steps| ==> !steps[i].CompleteTx?
    ensures s'.w.local.last == s.w.local.last
    decreases |steps|
  {
    if steps != [] {
      assert !steps[0].CompleteTx?;
      StepKeepsSane(s, steps[0]);
      LastStays(Next(s, steps[0]), steps[1..], s');
    }
  }

  lemma {:induction false} FollowsIsRun(s: State, steps: seq<Step>, s': State, p: PassId)
    requires Follows(s, steps, s', p)
    ensures IsRun(s, steps, s')
    decreases |steps|
  {
    if steps != [] {
      FollowsIsRun(Next(s, steps[0]), steps[1..], s', p);
    }
  }

  /** When no other pass completed meanwhile, the last UID of an incremental pass is the one at its search or an answered one. */
  lemma LonePassAdvances(s0: State, before: seq<Step>, s: State, p: PassId, uids: set<Uid>, during: seq<Step>, s': State)
    requires Init(s0) && IsRun(s0, before, s) && Enabled(s, Search(p, uids)) && s.passes[p].kind != History
    requires Follows(Next(s, Search(p, uids)), during, s', p) && Enabled(s', CompleteTx(p))
    requires s.passes[p].cp.validity != 0 && forall i :: 0 <= i < |during| ==> !during[i].CompleteTx?
    ensures var last := Next(s', CompleteTx(p)).w.local.last; last == s.w.local.last || last in uids
  {
    PassAdvances(s0, before, s, p, uids, during, s');
    InitSane(s0);
    RunKeepsSane(s0, before, s);
    StepKeepsSane(s, Search(p, uids));
    FollowsIsRun(Next(s, Search(p, uids)), during, s', p);
    LastStays(Next(s, Search(p, uids)), during, s');
  }

  // ---- what a pass fetched is stored ----

  /** The UIDs that a pass has still to fetch or to store. */
  function InFlight(pass: Pass): set<Uid> {
    match pass
    case Fetching(_, todo) => todo
    case Storing(_, got, todo) => got + todo
    case _ => {}
  }

  /** The message is stored, gone from the server, or still in the hands of the pass. */
  predicate Handled(s: State, p: PassId, u: Uid) {
    p in s.passes && u in s.w.remote.dates
    && (u in InFlight(s.passes[p]) || u !in s.w.remote.present || Stored(s.w, u))
  }

  lemma LiveRowStays(s: State, step: Step, u: Uid)
    requires Sane(s) && Enabled(s, step) && Stored(s.w, u) && u in s.w.remote.dates
    ensures Stored(Next(s, step).w, u) || u !in Next(s, step).w.remote.present
  {
    if step.ReconcileTx? || step.PrepareTx? {
      assert PassSane(s.w, s.passes[step.p]);
    }
  }

  lemma ExpungedStaysGone(s: State, step: Step, u: Uid)
    requires Sane(s) && Enabled(s, step) && u in s.w.remote.dates
    ensures u in Next(s, step).w.remote.dates
    ensures u !in s.w.remote.present ==> u !in Next(s, step).w.remote.present
  {
  }

  lemma FetchHolds(w: World, goal: Goal, todo: set<Uid>, batch: set<Uid>, u: Uid)
    requires u in todo
    ensures u in InFlight(Resume(goal, batch * w.remote.present, todo - batch)) || u !in w.remote.present
  {
    var got := batch * w.remote.present;
    if u in got {
      assert got != {};
    } else if u !in batch {
      assert u in todo - batch;
    }
  }

  lemma StoreHolds(goal: Goal, got: set<Uid>, todo: set<Uid>, stored: Uid, u: Uid)
    requires u in got + todo && u != stored
    ensures u in InFlight(Resume(goal, got - {stored}, todo))
  {
    if u in got {
      assert u in got - {stored};
    }
  }

  lemma FlightLands(s: State, step: Step, p: PassId, u: Uid)
    requires Sane(s) && Enabled(s, step) && !Ends(step, p) && p in s.passes && GoalOf(s.passes[p]).Some?
    requires u in InFlight(s.passes[p])
    ensures Handled(Next(s, step), p, u)
  {
    assert PassSane(s.w, s.passes[p]);
    StepSettles(s, step, p);
    ExpungedStaysGone(s, step, u);
    if step.FetchBatch? && step.p == p {
      FetchHolds(s.w, s.passes[p].goal, s.passes[p].todo, step.batch, u);
    } else if step.StoreOne? && step.p == p {
      if u != step.u {
        StoreHolds(s.passes[p].goal, s.passes[p].got, s.passes[p].todo, step.u, u);
      }
    } else {
      assert Next(s, step).passes[p] == s.passes[p];
    }
  }

  lemma {:induction false} FollowingHandles(s: State, steps: seq<Step>, s': State, p: PassId, u: Uid)
    requires Sane(s) && Follows(s, steps, s', p) && p in s.passes && GoalOf(s.passes[p]).Some? && Handled(s, p, u)
    ensures Handled(s', p, u)
    decreases |steps|
  {
    if steps != [] {
      StepSettles(s, steps[0], p);
      StepKeepsSane(s, steps[0]);
      if u in InFlight(s.passes[p]) {
        FlightLands(s, steps[0], p, u);
      } else {
        ExpungedStaysGone(s, steps[0], u);
        if Stored(s.w, u) {
          LiveRowStays(s, steps[0], u);
        }
      }
      FollowingHandles(Next(s, steps[0]), steps[1..], s', p, u);
    }
  }

  /**
   In any run, also one whose clocks are read late: when a pass is about to complete, every message that its
   search answered is stored or was expunged.
   */
  lemma AnsweredIsStored(s0: State, before: seq<Step>, s: State, p: PassId, uids: set<Uid>, during: seq<Step>, s': State, u: Uid)
    requires Init(s0) && IsRun(s0, before, s) && Enabled(s, Search(p, uids)) && u in uids
    requires Follows(Next(s, Search(p, uids)), during, s', p) && Enabled(s', CompleteTx(p))
    ensures Stored(s'.w, u) || u !in s'.w.remote.present
  {
    InitSane(s0);
    RunKeepsSane(s0, before, s);
    StepKeepsSane(s, Search(p, uids));
    assert uids <= Asked(s.w, s.passes[p].kind, s.passes[p].cp, s.passes[p].boundary);
    FollowingHandles(Next(s, Search(p, uids)), during, s', p, u);
  }

  // ---- when a pass reconciles ----

  /**
   A full pass enumerates the mailbox once it has stored what it fetched, and no other kind of pass does. Up to
   the search limit it reads the states of all messages it saw and then reconciles with them; beyond the limit
   it completes without.
   */
  lemma FullPassReconciles(s: State, p: PassId, step: Step)
    requires Enabled(s, step) && step in {EndFetch(p), Enumerate(p), EndStates(p), ReconcileTx(p)}
    ensures p in Next(s, step).passes
    ensures var goal, pass := s.passes[p].goal, Next(s, step).passes[p];
      && (step.EndFetch? ==> pass == if goal.kind == FullSync then Enumerating(goal) else Completing(goal))
      && (step.Enumerate? ==>
            if |s.w.remote.present| <= 100000 then
              pass == ReadingStates(goal, s.w.remote.present, s.w.remote.dates.Keys - s.w.remote.present, s.w.remote.present)
            else pass == Completing(goal))
      && (step.EndStates? ==> pass == Applying(goal, s.passes[p].snap, s.passes[p].gone))
      && (step.ReconcileTx? ==> pass == Completing(goal))
  {
  }

  // ---- nothing is fetched twice ----

  /** A pass that begins when the last UID is recorded probes beyond it. */
  lemma BegunBeyond(t: State, q: PassId, kind: Kind, path: seq<Step>, t': State, again: set<Uid>)
    requires Sane(t) && t.w.local.validity != 0 && kind != History && Enabled(t, Begin(q, kind))
    requires Follows(Next(t, Begin(q, kind)), path, t', q) && Enabled(t', Search(q, again))
    ensures forall u :: u in again ==> u > t.w.local.last || u == t.w.local.last == 0xFFFF_FFFF
  {
    StepKeepsSane(t, Begin(q, kind));
    FollowingSettles(Next(t, Begin(q, kind)), path, t', q);
    assert PassSane(t'.w, t'.passes[q]);
    assert again <= Asked(t'.w, t'.passes[q].kind, t'.passes[q].cp, t'.passes[q].boundary);
  }

  lemma {:induction false} ValidityStays(s: State, steps: seq<Step>, s': State)
    requires Sane(s) && IsRun(s, steps, s') && s.w.local.validity != 0
    ensures s'.w.local.validity != 0
    decreases |steps|
  {
    if steps != [] {
      if steps[0].CompleteTx? {
        CompletionRecords(s, steps[0].p);
      }
      StepKeepsSane(s, steps[0]);
      ValidityStays(Next(s, steps[0]), steps[1..], s');
    }
  }

  /**
   Once a pass has completed, no pass that begins at any later time is answered one of its UIDs again,
   except the largest 32-bit UID, from which an incremental search cannot move on.
   */
  lemma NothingFetchedTwice(s0: State, before: seq<Step>, s: State, p: PassId, uids: set<Uid>, during: seq<Step>, s': State,
                            after: seq<Step>, t: State, q: PassId, kind: Kind, path: seq<Step>, t': State, again: set<Uid>)
    requires Init(s0) && IsRun(s0, before, s) && Enabled(s, Search(p, uids)) && s.passes[p].kind != History
    requires Follows(Next(s, Search(p, uids)), during, s', p) && Enabled(s', CompleteTx(p))
    requires IsRun(Next(s', CompleteTx(p)), after, t) && kind != History && Enabled(t, Begin(q, kind))
    requires Follows(Next(t, Begin(q, kind)), path, t', q) && Enabled(t', Search(q, again))
    ensures forall u :: u in uids && u in again ==> u == 0xFFFF_FFFF
  {
    PassAdvances(s0, before, s, p, uids, during, s');
    CompletedStays(s0, before, s, p, uids, during, s', after, t);
    BegunBeyond(t, q, kind, path, t', again);
  }

  lemma CompletedStays(s0: State, before: seq<Step>, s: State, p: PassId, uids: set<Uid>, during: seq<Step>, s': State,
                       after: seq<Step>, t: State)
    requires Init(s0) && IsRun(s0, before, s) && Enabled(s, Search(p, uids))
    requires Follows(Next(s, Search(p, uids)), during, s', p) && Enabled(s', CompleteTx(p))
    requires IsRun(Next(s', CompleteTx(p)), after, t)
    ensures Sane(t) && t.w.local.validity != 0 && Next(s', CompleteTx(p)).w.local.last <= t.w.local.last
  {
    InitSane(s0);
    RunKeepsSane(s0, before, s);
    StepKeepsSane(s, Search(p, uids));
    FollowingSettles(Next(s, Search(p, uids)), during, s', p);
    CompletionRecords(s', p);
    StepKeepsSane(s', CompleteTx(p));
    LastUidKeepsUp(Next(s', CompleteTx(p)), after, t);
    RunKeepsSane(Next(s', CompleteTx(p)), after, t);
    ValidityStays(Next(s', CompleteTx(p)), after, t);
  }
}

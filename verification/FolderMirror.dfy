/**
 The mirror of one folder inside one UIDVALIDITY generation. The remote mailbox appends and expunges
 at any moment, any number of incremental, reconciling and history passes interleave call by call
 and transaction by transaction, and any pass may fail at any point.
 */
module FolderMirror {
  import opened Options
  import opened FolderStore

  /** Length of the initial sync window. */
  const WINDOW: int := 90 * 24 * 3600

  /** Most UIDs one fetch may ask for. */
  const BATCH_LIMIT: nat := 1000

  type PassId = nat

  /**
   The mailbox obeys the UID rules of section 2.3.1.1 of RFC 9051: UIDs ascend and are never reused
   under one UIDVALIDITY. `dates` covers every UID ever assigned.
   */
  datatype Remote = Remote(validity: nat, present: set<Uid>, dates: map<Uid, int>, uidNext: Uid)

  datatype Kind = IncrementalSync | FullSync | History

  /** What a pass set out to do; `target` is the last UID it will record if it completes. */
  datatype Goal = Goal(kind: Kind, cp: Checkpoint, boundary: int, uidNext: Uid, target: Uid)

  datatype Pass =
    | CheckpointRead(kind: Kind, cp: Checkpoint)
    | Timed(kind: Kind, cp: Checkpoint, boundary: int)
    | Selected(kind: Kind, cp: Checkpoint, boundary: int, uidNext: Uid)
    | Prepared(kind: Kind, cp: Checkpoint, boundary: int, uidNext: Uid)
    | Fetching(goal: Goal, todo: set<Uid>)
    | Storing(goal: Goal, got: set<Uid>, todo: set<Uid>)
    | Enumerating(goal: Goal)
    | ReadingStates(goal: Goal, snap: set<Uid>, gone: set<Uid>, todo: set<Uid>)
    | Applying(goal: Goal, snap: set<Uid>, gone: set<Uid>)
    | Completing(goal: Goal)

  /** `limit` remembers the window boundary at the moment the folder was first prepared. */
  datatype World = World(remote: Remote, local: Folder, now: int, limit: Option<int>)

  datatype State = State(w: World, passes: map<PassId, Pass>)

  // ---- steps ----

  datatype Step =
    | Append(u: Uid, date: int)
    | Expunge(u: Uid)
    | Tick(now: int)
    | Begin(p: PassId, kind: Kind)
    | ReadClock(p: PassId)
    | Select(p: PassId, uidNext: Uid)
    | PrepareTx(p: PassId)
    | Search(p: PassId, uids: set<Uid>)
    | FetchBatch(p: PassId, batch: set<Uid>)
    | StoreOne(p: PassId, u: Uid)
    | EndFetch(p: PassId)
    | Enumerate(p: PassId)
    | FetchStates(p: PassId, batch: set<Uid>)
    | EndStates(p: PassId)
    | ReconcileTx(p: PassId)
    | CompleteTx(p: PassId)
    | Abort(p: PassId)

  /** The pass probes from its checkpoint on; a first pass and a rebuild fetch the window instead. */
  predicate Probes(w: World, cp: Checkpoint) {
    Decide(cp, w.remote.validity) == Incremental
  }

  /** The UIDs a pass asks the server for. */
  function Asked(w: World, kind: Kind, cp: Checkpoint, boundary: int): set<Uid> {
    set u | u in w.remote.present && u in w.remote.dates &&
            (if kind == History then w.remote.dates[u] < boundary
             else if Probes(w, cp) then u >= FetchFrom(cp)
             else w.remote.dates[u] >= boundary)
  }

  /**
   The answer to a search: all of it, or for an incremental probe beyond the limit its lowest UIDs.
   The other searches fail beyond the limit. An already covered UID that the server returns for an
   open range (section 6.4.9 of RFC 9051) is discarded before this point.
   */
  ghost predicate Answer(asked: set<Uid>, uids: set<Uid>, incremental: bool) {
    && uids <= asked
    && (|asked| <= SEARCH_LIMIT ==> uids == asked)
    && (|asked| > SEARCH_LIMIT ==> incremental && |uids| == SEARCH_LIMIT && forall u, v :: u in uids && v in asked - uids ==> u < v)
  }

  function Highest(uids: set<Uid>): (h: Uid)
    ensures forall u :: u in uids ==> u <= h
    ensures h == 0 || h in uids
  {
    if uids == {} then 0
    else
      assert exists h :: h in uids && forall u :: u in uids ==> u <= h by { HasHighest(uids); }
      var h: Uid :| h in uids && forall u :: u in uids ==> u <= h;
      h
  }

  lemma {:induction false} HasHighest(uids: set<Uid>)
    requires uids != {}
    ensures exists h :: h in uids && forall u :: u in uids ==> u <= h
    decreases |uids|
  {
    var u: Uid :| u in uids;
    if uids == {u} {
      assert u in uids;
    } else {
      assert uids - {u} != {};
      HasHighest(uids - {u});
      var h :| h in uids - {u} && forall v :: v in uids - {u} ==> v <= h;
      var top := if h < u then u else h;
      forall v | v in uids
        ensures v <= top
      {
        assert v == u || v in uids - {u};
      }
    }
  }

  /** The last UID the pass will record: over what it fetched, and unless it probed over SELECT's UIDNEXT. */
  function Target(w: World, cp: Checkpoint, uidNext: Uid, uids: set<Uid>): Uid
    requires 0 < uidNext
  {
    Max(if Probes(w, cp) then cp.last else uidNext - 1, Highest(uids))
  }

  ghost predicate Enabled(s: State, step: Step) {
    match step
    case Append(u, date) => s.w.remote.uidNext <= u <= MAX_UID && s.w.now - WINDOW <= date
    case Expunge(u) => u in s.w.remote.present
    case Tick(now) => s.w.now <= now
    case Begin(p, kind) => p !in s.passes && (kind == History ==> s.w.local.validity != 0)
    case ReadClock(p) => p in s.passes && s.passes[p].CheckpointRead?
    case Select(p, uidNext) => p in s.passes && s.passes[p].Timed? && 0 < uidNext <= s.w.remote.uidNext && uidNext <= MAX_UID
    case PrepareTx(p) => p in s.passes && s.passes[p].Selected? && s.passes[p].kind != History
    case Search(p, uids) =>
      && p in s.passes
      && (s.passes[p].Prepared? || (s.passes[p].Selected? && s.passes[p].kind == History && Probes(s.w, s.passes[p].cp)))
      && 0 < s.passes[p].uidNext
      && Answer(Asked(s.w, s.passes[p].kind, s.passes[p].cp, s.passes[p].boundary), uids,
                s.passes[p].kind != History && Probes(s.w, s.passes[p].cp))
    case FetchBatch(p, batch) =>
      p in s.passes && s.passes[p].Fetching? && batch != {} && batch <= s.passes[p].todo && |batch| <= BATCH_LIMIT
    case StoreOne(p, u) => p in s.passes && s.passes[p].Storing? && u in s.passes[p].got
    case EndFetch(p) => p in s.passes && s.passes[p].Fetching? && s.passes[p].todo == {}
    case Enumerate(p) => p in s.passes && s.passes[p].Enumerating?
    case FetchStates(p, batch) =>
      && p in s.passes && s.passes[p].ReadingStates? && batch != {} && batch <= s.passes[p].todo
      && |batch| <= BATCH_LIMIT && batch <= s.w.remote.present
    case EndStates(p) => p in s.passes && s.passes[p].ReadingStates? && s.passes[p].todo == {}
    case ReconcileTx(p) => p in s.passes && s.passes[p].Applying?
    case CompleteTx(p) => p in s.passes && s.passes[p].Completing?
    case Abort(p) => p in s.passes
  }

  /** What a step changes in the world outside the passes. */
  function NextWorld(s: State, step: Step): World
    requires Enabled(s, step)
  {
    var w := s.w;
    match step
    case Append(u, date) =>
      w.(remote := w.remote.(present := w.remote.present + {u}, dates := w.remote.dates[u := date], uidNext := u + 1))
    case Expunge(u) => w.(remote := w.remote.(present := w.remote.present - {u}))
    case Tick(now) => w.(now := now)
    case PrepareTx(p) =>
      w.(local := Prepare(w.local, Decide(s.passes[p].cp, w.remote.validity), w.remote.validity),
      limit := if w.limit == None then Some(w.now - WINDOW) else w.limit)
    case StoreOne(p, u) => w.(local := Store(w.local, w.remote.validity, u))
    case ReconcileTx(p) =>
      w.(local := Reconcile(w.local, Snapshot(w.remote.validity, s.passes[p].goal.uidNext, s.passes[p].snap)))
    case CompleteTx(p) =>
      var goal := s.passes[p].goal;
      w.(local := if goal.kind == History then CompleteBackfill(w.local)
                  else Complete(w.local, w.remote.validity, goal.target))
    case _ => w
  }

  /** A pass stores what it fetched before it fetches more. */
  function Resume(goal: Goal, got: set<Uid>, todo: set<Uid>): Pass {
    if got == {} then Fetching(goal, todo) else Storing(goal, got, todo)
  }

  /** Where the pass that takes the step goes on, if it does. */
  function NextPass(s: State, step: Step): Option<Pass>
    requires Enabled(s, step) && !step.Append? && !step.Expunge? && !step.Tick?
  {
    var w := s.w;
    match step
    case Begin(p, kind) => Some(CheckpointRead(kind, Checkpoint(w.local.validity, w.local.last)))
    case ReadClock(p) => Some(Timed(s.passes[p].kind, s.passes[p].cp, w.now - WINDOW))
    case Select(p, uidNext) => Some(Selected(s.passes[p].kind, s.passes[p].cp, s.passes[p].boundary, uidNext))
    case PrepareTx(p) => Some(Prepared(s.passes[p].kind, s.passes[p].cp, s.passes[p].boundary, s.passes[p].uidNext))
    case Search(p, uids) =>
      var pass := s.passes[p];
      Some(Fetching(Goal(pass.kind, pass.cp, pass.boundary, pass.uidNext, Target(w, pass.cp, pass.uidNext, uids)), uids))
    case FetchBatch(p, batch) =>
      Some(Resume(s.passes[p].goal, batch * w.remote.present, s.passes[p].todo - batch))
    case StoreOne(p, u) =>
      Some(Resume(s.passes[p].goal, s.passes[p].got - {u}, s.passes[p].todo))
    case EndFetch(p) =>
      Some(if s.passes[p].goal.kind == FullSync then Enumerating(s.passes[p].goal) else Completing(s.passes[p].goal))
    case Enumerate(p) =>
      Some(if |w.remote.present| > SEARCH_LIMIT then Completing(s.passes[p].goal)
           else ReadingStates(s.passes[p].goal, w.remote.present, w.remote.dates.Keys - w.remote.present, w.remote.present))
    case FetchStates(p, batch) =>
      Some(ReadingStates(s.passes[p].goal, s.passes[p].snap, s.passes[p].gone, s.passes[p].todo - batch))
    case EndStates(p) => Some(Applying(s.passes[p].goal, s.passes[p].snap, s.passes[p].gone))
    case ReconcileTx(p) => Some(Completing(s.passes[p].goal))
    case CompleteTx(_) => None
    case Abort(_) => None
  }

  function Next(s: State, step: Step): State
    requires Enabled(s, step)
  {
    if step.Append? || step.Expunge? || step.Tick? then State(NextWorld(s, step), s.passes)
    else
      var next := NextPass(s, step);
      State(NextWorld(s, step), if next == None then s.passes - {step.p} else s.passes[step.p := next.value])
  }

  /** A folder that was just discovered, on a server with any mail in it. */
  ghost predicate Init(s: State) {
    && s.passes == map[]
    && s.w.local == Folder({}, 0, 0, true)
    && s.w.limit == None
    && s.w.remote.validity != 0
    && ServerOk(s.w.remote)
  }

  /** No message that is on the server and not stored is dated between the first window and `boundary`. */
  ghost predicate NoGap(w: World, boundary: int) {
    w.limit.Some? ==> forall u :: u in w.remote.present && u in w.remote.dates && !Stored(w, u) ==>
                        w.remote.dates[u] < w.limit.value || boundary <= w.remote.dates[u]
  }

  /**
   A first pass reads the clock while no mail waits between the window that the folder was prepared with
   and its own. The source reads the checkpoint and the clock a few statements apart.
   */
  ghost predicate Timely(s: State, step: Step) {
    step.ReadClock? && step.p in s.passes && s.passes[step.p].CheckpointRead? && s.passes[step.p].cp.validity == 0
    ==> NoGap(s.w, s.w.now - WINDOW)
  }

  ghost predicate IsRun(s: State, steps: seq<Step>, s': State)
    decreases |steps|
  {
    if steps == [] then s == s'
    else Enabled(s, steps[0]) && IsRun(Next(s, steps[0]), steps[1..], s')
  }

  /** A run in which every first pass reads its clock in time. */
  ghost predicate TimelyRun(s: State, steps: seq<Step>, s': State)
    decreases |steps|
  {
    if steps == [] then s == s'
    else Enabled(s, steps[0]) && Timely(s, steps[0]) && TimelyRun(Next(s, steps[0]), steps[1..], s')
  }

  // ---- the invariant ----

  ghost predicate ServerOk(r: Remote) {
    && r.present <= r.dates.Keys
    && 0 < r.uidNext
    && forall u :: u in r.dates ==> 0 < u < r.uidNext
  }

  /** What holds of rows, checkpoint and server however late the clocks are read. */
  ghost predicate WorldSane(w: World) {
    && ServerOk(w.remote)
    && w.remote.validity != 0
    && (forall row :: row in w.local.rows ==> row.validity == w.remote.validity && row.uid in w.remote.dates)
    && w.local.last < w.remote.uidNext
    && (w.local.validity == 0 || w.local.validity == w.remote.validity)
  }

  predicate CpOk(w: World, kind: Kind, cp: Checkpoint) {
    && (cp.validity != 0 ==> cp.validity == w.local.validity && cp.last <= w.local.last)
    && (kind == History ==> cp.validity != 0)
  }

  ghost predicate GoalSane(w: World, goal: Goal, inFlight: set<Uid>) {
    && CpOk(w, goal.kind, goal.cp)
    && w.local.validity != 0
    && goal.target < w.remote.uidNext && goal.uidNext <= w.remote.uidNext
    && inFlight <= w.remote.dates.Keys
  }

  /** The enumeration saw exactly the messages below UIDNEXT that were not expunged by then. */
  ghost predicate SnapshotOk(w: World, goal: Goal, snap: set<Uid>, gone: set<Uid>) {
    && gone <= w.remote.dates.Keys && gone !! w.remote.present
    && forall u :: u in w.remote.dates && u < goal.uidNext ==> (u in snap <==> u !in gone)
  }

  ghost predicate PassSane(w: World, pass: Pass) {
    match pass
    case CheckpointRead(kind, cp) => CpOk(w, kind, cp)
    case Timed(kind, cp, _) => CpOk(w, kind, cp)
    case Selected(kind, cp, _, uidNext) => CpOk(w, kind, cp) && 0 < uidNext <= w.remote.uidNext
    case Prepared(kind, cp, _, uidNext) =>
      CpOk(w, kind, cp) && 0 < uidNext <= w.remote.uidNext && w.local.validity != 0 && kind != History
    case Fetching(goal, todo) => GoalSane(w, goal, todo)
    case Storing(goal, got, todo) => GoalSane(w, goal, got + todo)
    case Enumerating(goal) => GoalSane(w, goal, {}) && goal.kind == FullSync
    case ReadingStates(goal, snap, gone, _) => GoalSane(w, goal, {}) && goal.kind == FullSync && SnapshotOk(w, goal, snap, gone)
    case Applying(goal, snap, gone) => GoalSane(w, goal, {}) && goal.kind == FullSync && SnapshotOk(w, goal, snap, gone)
    case Completing(goal) => GoalSane(w, goal, {})
  }

  ghost predicate Sane(s: State) {
    WorldSane(s.w) && forall p :: p in s.passes ==> PassSane(s.w, s.passes[p])
  }

  predicate Stored(w: World, u: Uid) {
    Location(w.remote.validity, u) in w.local.rows
  }

  /** Every message at or below the last UID is stored, or old with the history still to come. */
  ghost predicate Covered(w: World) {
    forall u :: u in w.remote.present && u in w.remote.dates && u <= w.local.last && !Stored(w, u) ==>
                  w.local.backfillPending && w.limit.Some? && w.remote.dates[u] < w.limit.value
  }

  ghost predicate HistoryDone(w: World) {
    !w.local.backfillPending ==>
      w.limit.Some? && forall u :: u in w.remote.present && u in w.remote.dates && w.remote.dates[u] < w.limit.value ==> Stored(w, u)
  }

  ghost predicate WorldOk(w: World) {
    && WorldSane(w)
    && (w.local.validity == 0 <==> w.limit == None)
    && (w.limit.Some? ==> w.limit.value <= w.now - WINDOW)
    && Covered(w)
    && HistoryDone(w)
  }

  ghost predicate BoundaryOk(w: World, kind: Kind, cp: Checkpoint, boundary: int) {
    && CpOk(w, kind, cp)
    && boundary <= w.now - WINDOW
    && (cp.validity == 0 ==> NoGap(w, boundary))
    && (kind == History ==> w.limit.Some? && w.limit.value <= boundary)
  }

  /** The pass may leave `u` out: it is beyond the target, already covered, or on the other side of the window. */
  ghost predicate Excused(w: World, goal: Goal, u: Uid)
    requires u in w.remote.dates
  {
    if goal.kind == History then w.remote.dates[u] >= goal.boundary
    else u > goal.target || (if goal.cp.validity == 0 then w.remote.dates[u] < goal.boundary else u <= goal.cp.last)
  }

  ghost predicate GoalOk(w: World, goal: Goal, inFlight: set<Uid>) {
    && GoalSane(w, goal, inFlight)
    && BoundaryOk(w, goal.kind, goal.cp, goal.boundary)
    && forall u :: u in w.remote.present && u in w.remote.dates && !Stored(w, u) && u !in inFlight ==> Excused(w, goal, u)
  }

  ghost predicate PassOk(w: World, pass: Pass) {
    && PassSane(w, pass)
    && match pass
       case CheckpointRead(_, _) => true
       case Timed(kind, cp, boundary) => BoundaryOk(w, kind, cp, boundary)
       case Selected(kind, cp, boundary, _) => BoundaryOk(w, kind, cp, boundary)
       case Prepared(kind, cp, boundary, _) => BoundaryOk(w, kind, cp, boundary)
       case Fetching(goal, todo) => GoalOk(w, goal, todo)
       case Storing(goal, got, todo) => GoalOk(w, goal, got + todo)
       case Enumerating(goal) => GoalOk(w, goal, {})
       case ReadingStates(goal, _, _, _) => GoalOk(w, goal, {})
       case Applying(goal, _, _) => GoalOk(w, goal, {})
       case Completing(goal) => GoalOk(w, goal, {})
  }

  ghost predicate Inv(s: State) {
    WorldOk(s.w) && forall p :: p in s.passes ==> PassOk(s.w, s.passes[p])
  }

  // ---- what every run keeps ----

  lemma WorldStaysSane(s: State, step: Step)
    requires Sane(s) && Enabled(s, step)
    ensures WorldSane(NextWorld(s, step))
  {
    if !step.Append? && !step.Expunge? && !step.Tick? && step.p in s.passes {
      assert PassSane(s.w, s.passes[step.p]);
    }
  }

  lemma SaneElsewhere(s: State, step: Step, pass: Pass)
    requires Sane(s) && Enabled(s, step) && PassSane(s.w, pass)
    ensures PassSane(NextWorld(s, step), pass)
  {
    if !step.Append? && !step.Expunge? && !step.Tick? && step.p in s.passes {
      assert PassSane(s.w, s.passes[step.p]);
    }
  }

  lemma PassStaysSane(s: State, step: Step)
    requires Sane(s) && Enabled(s, step) && !step.Append? && !step.Expunge? && !step.Tick? && NextPass(s, step).Some?
    ensures PassSane(NextWorld(s, step), NextPass(s, step).value)
  {
    if step.p in s.passes {
      assert PassSane(s.w, s.passes[step.p]);
    }
  }

  lemma StepKeepsSane(s: State, step: Step)
    requires Sane(s) && Enabled(s, step)
    ensures Sane(Next(s, step))
  {
    WorldStaysSane(s, step);
    forall p | p in s.passes
      ensures PassSane(NextWorld(s, step), s.passes[p])
    {
      SaneElsewhere(s, step, s.passes[p]);
    }
    if !step.Append? && !step.Expunge? && !step.Tick? && NextPass(s, step).Some? {
      PassStaysSane(s, step);
    }
  }

  lemma {:induction false} RunKeepsSane(s: State, steps: seq<Step>, s': State)
    requires Sane(s) && IsRun(s, steps, s')
    ensures Sane(s')
    decreases |steps|
  {
    if steps != [] {
      StepKeepsSane(s, steps[0]);
      RunKeepsSane(Next(s, steps[0]), steps[1..], s');
    }
  }

  // ---- the world changes ----

  lemma AppendKeepsPass(w: World, w': World, u: Uid, date: int, pass: Pass)
    requires WorldOk(w) && w.remote.uidNext <= u && w.now - WINDOW <= date
    requires w' == w.(remote := w.remote.(present := w.remote.present + {u}, dates := w.remote.dates[u := date], uidNext := u + 1))
    requires PassOk(w, pass)
    ensures PassOk(w', pass)
  {
    assert forall boundary :: boundary <= w.now - WINDOW && NoGap(w, boundary) ==> NoGap(w', boundary);
    assert forall goal, inFlight :: GoalOk(w, goal, inFlight) ==> GoalOk(w', goal, inFlight);
  }

  lemma AppendKeeps(w: World, w': World, u: Uid, date: int)
    requires WorldOk(w) && w.remote.uidNext <= u && w.now - WINDOW <= date
    requires w' == w.(remote := w.remote.(present := w.remote.present + {u}, dates := w.remote.dates[u := date], uidNext := u + 1))
    ensures WorldOk(w')
    ensures forall pass :: PassOk(w, pass) ==> PassOk(w', pass)
  {
    forall pass | PassOk(w, pass) ensures PassOk(w', pass) {
      AppendKeepsPass(w, w', u, date, pass);
    }
  }

  lemma ExpungeKeepsPass(w: World, w': World, u: Uid, pass: Pass)
    requires WorldOk(w) && w' == w.(remote := w.remote.(present := w.remote.present - {u}))
    requires PassOk(w, pass)
    ensures PassOk(w', pass)
  {
  }

  lemma ExpungeKeeps(w: World, w': World, u: Uid)
    requires WorldOk(w) && w' == w.(remote := w.remote.(present := w.remote.present - {u}))
    ensures WorldOk(w')
    ensures forall pass :: PassOk(w, pass) ==> PassOk(w', pass)
  {
    forall pass | PassOk(w, pass) ensures PassOk(w', pass) {
      ExpungeKeepsPass(w, w', u, pass);
    }
  }

  lemma TickKeepsPass(w: World, w': World, now: int, pass: Pass)
    requires WorldOk(w) && w.now <= now && w' == w.(now := now)
    requires PassOk(w, pass)
    ensures PassOk(w', pass)
  {
  }

  lemma TickKeeps(w: World, w': World, now: int)
    requires WorldOk(w) && w.now <= now && w' == w.(now := now)
    ensures WorldOk(w')
    ensures forall pass :: PassOk(w, pass) ==> PassOk(w', pass)
  {
    forall pass | PassOk(w, pass) ensures PassOk(w', pass) {
      TickKeepsPass(w, w', now, pass);
    }
  }

  lemma PrepareKeeps(w: World, w': World, action: Action)
    requires WorldOk(w) && action != Rebuild
    requires w' == w.(local := Prepare(w.local, action, w.remote.validity),
                      limit := if w.limit == None then Some(w.now - WINDOW) else w.limit)
    ensures WorldOk(w')
    ensures forall pass :: PassOk(w, pass) ==> PassOk(w', pass)
  {
  }

  lemma StoreKeepsPass(w: World, w': World, u: Uid, pass: Pass)
    requires WorldOk(w) && u in w.remote.dates && w' == w.(local := Store(w.local, w.remote.validity, u))
    requires PassOk(w, pass)
    ensures PassOk(w', pass)
  {
    assert forall v :: Stored(w, v) ==> Stored(w', v);
  }

  lemma StoreKeeps(w: World, w': World, u: Uid)
    requires WorldOk(w) && u in w.remote.dates && w' == w.(local := Store(w.local, w.remote.validity, u))
    ensures WorldOk(w')
    ensures forall pass :: PassOk(w, pass) ==> PassOk(w', pass)
  {
    forall pass | PassOk(w, pass) ensures PassOk(w', pass) {
      StoreKeepsPass(w, w', u, pass);
    }
  }

  lemma ReconcileKeepsPass(w: World, w': World, goal: Goal, snap: set<Uid>, gone: set<Uid>, pass: Pass)
    requires WorldOk(w) && SnapshotOk(w, goal, snap, gone)
    requires w' == w.(local := Reconcile(w.local, Snapshot(w.remote.validity, goal.uidNext, snap)))
    requires PassOk(w, pass)
    ensures PassOk(w', pass)
  {
    assert forall u :: u in w.remote.present ==> (Stored(w', u) <==> Stored(w, u));
  }

  lemma ReconcileKeeps(w: World, w': World, goal: Goal, snap: set<Uid>, gone: set<Uid>)
    requires WorldOk(w) && SnapshotOk(w, goal, snap, gone)
    requires w' == w.(local := Reconcile(w.local, Snapshot(w.remote.validity, goal.uidNext, snap)))
    ensures WorldOk(w')
    ensures forall pass :: PassOk(w, pass) ==> PassOk(w', pass)
  {
    forall pass | PassOk(w, pass) ensures PassOk(w', pass) {
      ReconcileKeepsPass(w, w', goal, snap, gone, pass);
    }
    assert forall u :: u in w.remote.present ==> (Stored(w', u) <==> Stored(w, u));
  }

  lemma CompleteKeepsPass(w: World, w': World, goal: Goal, pass: Pass)
    requires WorldOk(w) && GoalOk(w, goal, {}) && goal.kind != History
    requires w' == w.(local := Complete(w.local, w.remote.validity, goal.target))
    requires PassOk(w, pass)
    ensures PassOk(w', pass)
  {
  }

  lemma CompleteKeeps(w: World, w': World, goal: Goal)
    requires WorldOk(w) && GoalOk(w, goal, {}) && goal.kind != History
    requires w' == w.(local := Complete(w.local, w.remote.validity, goal.target))
    ensures WorldOk(w')
    ensures forall pass :: PassOk(w, pass) ==> PassOk(w', pass)
  {
    forall pass | PassOk(w, pass) ensures PassOk(w', pass) {
      CompleteKeepsPass(w, w', goal, pass);
    }
  }

  lemma CompleteBackfillKeepsPass(w: World, w': World, goal: Goal, pass: Pass)
    requires WorldOk(w) && GoalOk(w, goal, {}) && goal.kind == History
    requires w' == w.(local := CompleteBackfill(w.local))
    requires PassOk(w, pass)
    ensures PassOk(w', pass)
  {
  }

  lemma CompleteBackfillKeeps(w: World, w': World, goal: Goal)
    requires WorldOk(w) && GoalOk(w, goal, {}) && goal.kind == History
    requires w' == w.(local := CompleteBackfill(w.local))
    ensures WorldOk(w')
    ensures forall pass :: PassOk(w, pass) ==> PassOk(w', pass)
  {
    forall pass | PassOk(w, pass) ensures PassOk(w', pass) {
      CompleteBackfillKeepsPass(w, w', goal, pass);
    }
  }

  // ---- the passes move ----

  lemma SearchStarts(w: World, pass: Pass, uids: set<Uid>, goal: Goal)
    requires WorldOk(w) && PassOk(w, pass)
    requires pass.Prepared? || (pass.Selected? && pass.kind == History && Probes(w, pass.cp))
    requires Answer(Asked(w, pass.kind, pass.cp, pass.boundary), uids, pass.kind != History && Probes(w, pass.cp))
    requires goal == Goal(pass.kind, pass.cp, pass.boundary, pass.uidNext, Target(w, pass.cp, pass.uidNext, uids))
    ensures GoalOk(w, goal, uids)
  {
    var asked := Asked(w, pass.kind, pass.cp, pass.boundary);
    forall u | u in w.remote.present && u in w.remote.dates && !Stored(w, u) && u !in uids
      ensures Excused(w, goal, u)
    {
      if u in asked {
        assert u in asked - uids;
        assert forall v :: v in uids ==> v < u;
      }
    }
  }

  lemma PassMoves(s: State, step: Step, w': World)
    requires Inv(s) && Enabled(s, step) && Timely(s, step) && !step.Append? && !step.Expunge? && !step.Tick?
    requires w' == NextWorld(s, step) && NextPass(s, step).Some?
    requires WorldOk(w') && forall pass :: PassOk(s.w, pass) ==> PassOk(w', pass)
    ensures PassOk(w', NextPass(s, step).value)
  {
    match step
    case Search(p, uids) =>
      var pass := s.passes[p];
      SearchStarts(s.w, pass, uids,
                   Goal(pass.kind, pass.cp, pass.boundary, pass.uidNext, Target(s.w, pass.cp, pass.uidNext, uids)));
    case Begin(p, kind) =>
    case ReadClock(p) =>
    case Select(p, uidNext) =>
    case PrepareTx(p) =>
    case FetchBatch(p, batch) => FetchMoves(s.w, s.passes[p].goal, s.passes[p].todo, batch);
    case StoreOne(p, u) => StoreMoves(s.w, w', s.passes[p].goal, s.passes[p].got, s.passes[p].todo, u);
    case EndFetch(p) =>
    case Enumerate(p) =>
    case FetchStates(p, batch) =>
    case EndStates(p) =>
    case ReconcileTx(p) => assert PassOk(w', s.passes[p]);
  }

  /** What leaves the work in flight has been stored or has been expunged. */
  lemma GoalNarrows(w: World, goal: Goal, inFlight: set<Uid>, rest: set<Uid>)
    requires GoalOk(w, goal, inFlight) && rest <= inFlight
    requires forall u :: u in inFlight && u !in rest ==> Stored(w, u) || u !in w.remote.present
    ensures GoalOk(w, goal, rest)
  {
    forall u | u in w.remote.present && u in w.remote.dates && !Stored(w, u) && u !in rest
      ensures Excused(w, goal, u)
    {
      assert u !in inFlight;
    }
  }

  lemma FetchMoves(w: World, goal: Goal, todo: set<Uid>, batch: set<Uid>)
    requires GoalOk(w, goal, todo) && batch <= todo
    ensures PassOk(w, Resume(goal, batch * w.remote.present, todo - batch))
  {
    var got := batch * w.remote.present;
    GoalNarrows(w, goal, todo, got + (todo - batch));
    assert got == {} ==> got + (todo - batch) == todo - batch;
  }

  lemma StoreMoves(w: World, w': World, goal: Goal, got: set<Uid>, todo: set<Uid>, u: Uid)
    requires GoalOk(w', goal, got + todo) && u in got && Stored(w', u)
    ensures PassOk(w', Resume(goal, got - {u}, todo))
  {
    GoalNarrows(w', goal, got + todo, (got - {u}) + todo);
    assert got - {u} == {} ==> (got - {u}) + todo == todo;
  }

  lemma WorldMoves(s: State, step: Step)
    requires Inv(s) && Enabled(s, step)
    ensures WorldOk(NextWorld(s, step))
    ensures forall pass :: PassOk(s.w, pass) ==> PassOk(NextWorld(s, step), pass)
  {
    var w' := NextWorld(s, step);
    match step
    case Append(u, date) => AppendKeeps(s.w, w', u, date);
    case Expunge(u) => ExpungeKeeps(s.w, w', u);
    case Tick(now) => TickKeeps(s.w, w', now);
    case PrepareTx(p) =>
      assert PassOk(s.w, s.passes[p]);
      PrepareKeeps(s.w, w', Decide(s.passes[p].cp, s.w.remote.validity));
    case StoreOne(p, u) =>
      assert PassOk(s.w, s.passes[p]);
      StoreKeeps(s.w, w', u);
    case ReconcileTx(p) =>
      assert PassOk(s.w, s.passes[p]);
      ReconcileKeeps(s.w, w', s.passes[p].goal, s.passes[p].snap, s.passes[p].gone);
    case CompleteTx(p) =>
      assert PassOk(s.w, s.passes[p]);
      if s.passes[p].goal.kind == History {
        CompleteBackfillKeeps(s.w, w', s.passes[p].goal);
      } else {
        CompleteKeeps(s.w, w', s.passes[p].goal);
      }
    case _ =>
  }

  lemma StepKeepsInv(s: State, step: Step)
    requires Inv(s) && Enabled(s, step) && Timely(s, step)
    ensures Inv(Next(s, step))
  {
    WorldMoves(s, step);
    if !step.Append? && !step.Expunge? && !step.Tick? && NextPass(s, step).Some? {
      PassMoves(s, step, NextWorld(s, step));
    }
  }

  lemma {:induction false} RunKeepsInv(s: State, steps: seq<Step>, s': State)
    requires Inv(s) && TimelyRun(s, steps, s')
    ensures Inv(s')
    decreases |steps|
  {
    if steps != [] {
      StepKeepsInv(s, steps[0]);
      RunKeepsInv(Next(s, steps[0]), steps[1..], s');
    }
  }

  // ---- the theorems ----

  lemma InitInv(s: State)
    requires Init(s)
    ensures Inv(s)
  {
  }

  /**
   At every state, wherever the passes of the folder stand and whichever of them failed: a message still
   on the server at or below the last UID is stored, or is older than the window the folder was first
   prepared with and the history is still to be fetched.
   */
  lemma CheckpointNeverSkips(s0: State, steps: seq<Step>, s: State, u: Uid)
    requires Init(s0) && TimelyRun(s0, steps, s)
    requires u in s.w.remote.present && u <= s.w.local.last
    ensures u in s.w.remote.dates
    ensures Stored(s.w, u)
         || (s.w.local.backfillPending && s.w.limit.Some? && s.w.limit.value <= s.w.now - WINDOW
             && s.w.remote.dates[u] < s.w.limit.value)
  {
    InitInv(s0);
    RunKeepsInv(s0, steps, s);
  }

  lemma {:induction false} TimelyRunIsRun(s: State, steps: seq<Step>, s': State)
    requires TimelyRun(s, steps, s')
    ensures IsRun(s, steps, s')
    decreases |steps|
  {
    if steps != [] {
      TimelyRunIsRun(Next(s, steps[0]), steps[1..], s');
    }
  }

  lemma InitSane(s: State)
    requires Init(s)
    ensures Sane(s)
  {
  }

  /** No step, of any pass, moves the last UID back. */
  lemma StepKeepsLast(s: State, step: Step)
    requires Sane(s) && Enabled(s, step)
    ensures s.w.local.last <= Next(s, step).w.local.last
  {
    if step.CompleteTx? {
      assert PassSane(s.w, s.passes[step.p]);
    }
  }

  lemma {:induction false} LastUidKeepsUp(s: State, steps: seq<Step>, s': State)
    requires Sane(s) && IsRun(s, steps, s')
    ensures s.w.local.last <= s'.w.local.last
    decreases |steps|
  {
    if steps != [] {
      StepKeepsLast(s, steps[0]);
      StepKeepsSane(s, steps[0]);
      LastUidKeepsUp(Next(s, steps[0]), steps[1..], s');
    }
  }

  /** Between any two moments of any run the last UID did not decrease. */
  lemma LastUidNeverDecreases(s0: State, before: seq<Step>, s: State, steps: seq<Step>, s': State)
    requires Init(s0) && IsRun(s0, before, s) && IsRun(s, steps, s')
    ensures s.w.local.last <= s'.w.local.last
  {
    InitSane(s0);
    RunKeepsSane(s0, before, s);
    LastUidKeepsUp(s, steps, s');
  }

  /**
   In any run, a reconcile transaction removes a row below its snapshot's UIDNEXT exactly when the message
   was expunged at the time of its search, whatever was appended, expunged or stored since; it removes no
   row at or above UIDNEXT and none whose message is on the server.
   */
  lemma ReconcileIsExact(s0: State, steps: seq<Step>, s: State, p: PassId, u: Uid)
    requires Init(s0) && IsRun(s0, steps, s) && Enabled(s, ReconcileTx(p)) && Stored(s.w, u)
    ensures var w' := Next(s, ReconcileTx(p)).w;
            && (!Stored(w', u) <==> u < s.passes[p].goal.uidNext && u in s.passes[p].gone)
            && (u in s.w.remote.present ==> Stored(w', u))
  {
    InitSane(s0);
    RunKeepsSane(s0, steps, s);
    assert PassSane(s.w, s.passes[p]);
    assert Location(s.w.remote.validity, u) in s.w.local.rows && u in s.w.remote.dates;
  }

  /** In any run, no step removes the row of a message that is on the server. */
  lemma NoLiveRowRemoved(s0: State, steps: seq<Step>, s: State, step: Step, u: Uid)
    requires Init(s0) && IsRun(s0, steps, s) && Enabled(s, step)
    requires Stored(s.w, u) && u in Next(s, step).w.remote.present
    ensures Stored(Next(s, step).w, u)
  {
    InitSane(s0);
    RunKeepsSane(s0, steps, s);
    match step
    case ReconcileTx(p) => ReconcileIsExact(s0, steps, s, p, u);
    case PrepareTx(p) => assert PassSane(s.w, s.passes[p]);
    case _ =>
  }

  /** Once the history is complete, everything at or below the last UID that is on the server is stored. */
  lemma NothingMissingAfterHistory(s0: State, steps: seq<Step>, s: State)
    requires Init(s0) && TimelyRun(s0, steps, s) && !s.w.local.backfillPending
    ensures forall u :: u in s.w.remote.present && u <= s.w.local.last ==> Stored(s.w, u)
  {
    forall u | u in s.w.remote.present && u <= s.w.local.last
      ensures Stored(s.w, u)
    {
      CheckpointNeverSkips(s0, steps, s, u);
    }
  }

  // ---- the condition on the clock is exact ----

  /** Some message on the server lies at or below the last UID, is not stored, and no history pass is due for it. */
  ghost predicate Skips(w: World) {
    exists u :: Skipped(w, u)
  }

  ghost predicate Skipped(w: World, u: Uid) {
    && u in w.remote.present && u in w.remote.dates && u <= w.local.last && !Stored(w, u)
    && !(w.local.backfillPending && w.limit.Some? && w.remote.dates[u] < w.limit.value)
  }

  lemma {:induction false} TimelyThen(s0: State, steps: seq<Step>, s: State, step: Step)
    requires TimelyRun(s0, steps, s) && Enabled(s, step) && Timely(s, step)
    ensures TimelyRun(s0, steps + [step], Next(s, step))
    decreases |steps|
  {
    if steps == [] {
      assert TimelyRun(Next(s, step), [], Next(s, step));
      assert ([step])[1..] == [];
    } else {
      TimelyThen(Next(s0, steps[0]), steps[1..], s, step);
      assert (steps + [step])[1..] == steps[1..] + [step];
    }
  }

  /** Before the folder is prepared, and until the window has moved on since, every first pass is timely. */
  lemma EarlyIsTimely(s0: State, steps: seq<Step>, s: State, p: PassId)
    requires Init(s0) && TimelyRun(s0, steps, s)
    requires s.w.local.validity == 0 || (s.w.limit.Some? && s.w.now - WINDOW <= s.w.limit.value)
    ensures Timely(s, ReadClock(p))
  {
    InitInv(s0);
    RunKeepsInv(s0, steps, s);
  }

  /** Everything but `keep` is expunged. */
  lemma {:induction false} ExpungeOthers(s0: State, before: seq<Step>, s: State, keep: Uid) returns (steps: seq<Step>, s': State)
    requires TimelyRun(s0, before, s) && keep in s.w.remote.present
    ensures TimelyRun(s0, steps, s')
    ensures s' == State(s.w.(remote := s.w.remote.(present := {keep})), s.passes)
    decreases |s.w.remote.present|
  {
    if s.w.remote.present == {keep} {
      steps, s' := before, s;
    } else {
      var u :| u in s.w.remote.present && u != keep;
      var s1 := Next(s, Expunge(u));
      TimelyThen(s0, before, s, Expunge(u));
      assert s1.w.remote.present < s.w.remote.present;
      steps, s' := ExpungeOthers(s0, before + [Expunge(u)], s1, keep);
    }
  }

  /** A late first pass selects the mailbox, prepares the folder and finds nothing recent. */
  lemma LatePassPrepares(s0: State, before: seq<Step>, s: State, p: PassId) returns (steps: seq<Step>, s': State)
    requires TimelyRun(s0, before, s) && p in s.passes && s.passes[p].Timed? && s.passes[p].kind != History
    requires s.passes[p].cp.validity == 0 && s.w.local.validity == s.w.remote.validity && s.w.limit.Some?
    requires 0 < s.w.remote.uidNext <= MAX_UID
    ensures TimelyRun(s0, steps, s') && s'.w == s.w && p in s'.passes
    ensures s'.passes[p] == Prepared(s.passes[p].kind, s.passes[p].cp, s.passes[p].boundary, s.w.remote.uidNext)
  {
    var select := Select(p, s.w.remote.uidNext);
    var s1 := Next(s, select);
    TimelyThen(s0, before, s, select);
    TimelyThen(s0, before + [select], s1, PrepareTx(p));
    steps := before + [select] + [PrepareTx(p)];
    s' := Next(s1, PrepareTx(p));
  }

  lemma LatePassSearches(s0: State, before: seq<Step>, s: State, p: PassId) returns (steps: seq<Step>, s': State)
    requires TimelyRun(s0, before, s) && p in s.passes && s.passes[p].Prepared? && s.passes[p].kind != History
    requires s.passes[p].cp.validity == 0 && 0 < s.passes[p].uidNext
    requires forall u :: u in s.w.remote.present && u in s.w.remote.dates ==> s.w.remote.dates[u] < s.passes[p].boundary
    ensures TimelyRun(s0, steps, s') && s'.w == s.w && p in s'.passes
    ensures (s'.passes[p].Enumerating? && s.passes[p].kind == FullSync) || (s'.passes[p].Completing? && s.passes[p].kind == IncrementalSync)
    ensures s'.passes[p].goal.kind == s.passes[p].kind && s'.passes[p].goal.target == s.passes[p].uidNext - 1
    ensures s'.passes[p].goal.uidNext == s.passes[p].uidNext && s'.passes == s.passes[p := s'.passes[p]]
  {
    assert Asked(s.w, s.passes[p].kind, s.passes[p].cp, s.passes[p].boundary) == {};
    var s1 := Next(s, Search(p, {}));
    TimelyThen(s0, before, s, Search(p, {}));
    TimelyThen(s0, before + [Search(p, {})], s1, EndFetch(p));
    steps := before + [Search(p, {})] + [EndFetch(p)];
    s' := Next(s1, EndFetch(p));
  }

  /** A full pass reads the states of the one message on the server. */
  lemma LatePassEnumerates(s0: State, before: seq<Step>, s: State, p: PassId, u: Uid) returns (steps: seq<Step>, s': State)
    requires TimelyRun(s0, before, s) && p in s.passes && s.passes[p].Enumerating? && s.w.remote.present == {u}
    ensures TimelyRun(s0, steps, s') && s'.w == s.w && p in s'.passes
    ensures s'.passes[p].ReadingStates? && s'.passes[p].goal == s.passes[p].goal
    ensures s'.passes[p].snap == {u} && s'.passes[p].todo == {}
  {
    assert |{u}| == 1;
    var s1 := Next(s, Enumerate(p));
    TimelyThen(s0, before, s, Enumerate(p));
    TimelyThen(s0, before + [Enumerate(p)], s1, FetchStates(p, {u}));
    steps := before + [Enumerate(p)] + [FetchStates(p, {u})];
    s' := Next(s1, FetchStates(p, {u}));
  }

  /** Its reconcile stores nothing. */
  lemma LatePassReconciles(s0: State, before: seq<Step>, s: State, p: PassId) returns (steps: seq<Step>, s': State)
    requires TimelyRun(s0, before, s) && p in s.passes && s.passes[p].ReadingStates? && s.passes[p].todo == {}
    ensures TimelyRun(s0, steps, s') && p in s'.passes && s'.passes[p] == Completing(s.passes[p].goal)
    ensures s'.w == s.w.(local := s'.w.local) && s'.w.local == s.w.local.(rows := s'.w.local.rows)
    ensures s'.w.local.rows <= s.w.local.rows
  {
    var s1 := Next(s, EndStates(p));
    TimelyThen(s0, before, s, EndStates(p));
    TimelyThen(s0, before + [EndStates(p)], s1, ReconcileTx(p));
    steps := before + [EndStates(p)] + [ReconcileTx(p)];
    s' := Next(s1, ReconcileTx(p));
  }

  /** Completing records a last UID over `u`, which is still not stored. */
  lemma LatePassCompletes(s0: State, before: seq<Step>, s: State, p: PassId, u: Uid) returns (steps: seq<Step>, s': State)
    requires TimelyRun(s0, before, s) && p in s.passes && s.passes[p].Completing? && s.passes[p].goal.kind != History
    requires u in s.w.remote.present && u in s.w.remote.dates && !Stored(s.w, u) && u <= s.passes[p].goal.target
    requires s.w.limit.Some? && s.w.limit.value <= s.w.remote.dates[u]
    requires s.w.local.validity == s.w.remote.validity
    ensures TimelyRun(s0, steps, s') && Skipped(s'.w, u) && s'.w.local.backfillPending == s.w.local.backfillPending
  {
    TimelyThen(s0, before, s, CompleteTx(p));
    steps := before + [CompleteTx(p)];
    s' := Next(s, CompleteTx(p));
  }

  /** From a read of the clock that left `u` in the gap, the pass can go on to skip `u`. */
  lemma LatePassSkips(s: State, p: PassId, u: Uid) returns (steps: seq<Step>, s': State)
    requires p in s.passes && s.passes[p].Timed? && s.passes[p].cp.validity == 0 && s.passes[p].kind != History
    requires s.w.local.validity == s.w.remote.validity && s.w.limit.Some? && 0 < s.w.remote.uidNext <= MAX_UID
    requires u in s.w.remote.present && u in s.w.remote.dates && u < s.w.remote.uidNext && !Stored(s.w, u)
    requires s.w.limit.value <= s.w.remote.dates[u] < s.passes[p].boundary
    ensures TimelyRun(s, steps, s') && Skipped(s'.w, u) && s'.w.local.backfillPending == s.w.local.backfillPending
  {
    assert TimelyRun(s, [], s);
    var v;
    steps, v := ExpungeOthers(s, [], s, u);
    steps, v := LatePassPrepares(s, steps, v, p);
    steps, v := LatePassSearches(s, steps, v, p);
    if v.passes[p].Enumerating? {
      steps, v := LatePassEnumerates(s, steps, v, p, u);
      steps, v := LatePassReconciles(s, steps, v, p);
    }
    steps, s' := LatePassCompletes(s, steps, v, p, u);
  }

  /** However things go on, no mail is skipped. */
  ghost predicate NeverSkips(s: State) {
    forall steps, s' :: TimelyRun(s, steps, s') ==> !Skips(s'.w)
  }

  lemma TimelyReadNeverSkips(s: State, p: PassId, steps: seq<Step>, s': State)
    requires Inv(s) && Enabled(s, ReadClock(p)) && Timely(s, ReadClock(p)) && TimelyRun(Next(s, ReadClock(p)), steps, s')
    ensures !Skips(s'.w)
  {
    StepKeepsInv(s, ReadClock(p));
    RunKeepsInv(Next(s, ReadClock(p)), steps, s');
  }

  lemma LateReadCanSkip(s: State, p: PassId) returns (steps: seq<Step>, s': State)
    requires Inv(s) && Enabled(s, ReadClock(p)) && !Timely(s, ReadClock(p)) && s.w.remote.uidNext <= MAX_UID
    ensures TimelyRun(Next(s, ReadClock(p)), steps, s') && Skips(s'.w)
    ensures s'.w.local.backfillPending == s.w.local.backfillPending
  {
    assert PassOk(s.w, s.passes[p]);
    var u :| u in s.w.remote.present && u in s.w.remote.dates && !Stored(s.w, u)
          && s.w.limit.value <= s.w.remote.dates[u] < s.w.now - WINDOW;
    steps, s' := LatePassSkips(Next(s, ReadClock(p)), p, u);
    assert Skipped(s'.w, u);
  }

  /**
   The read of the clock by a first pass of either kind keeps every continuation from skipping mail
   exactly when it is timely: a read that leaves a message in the gap has a continuation that skips it.
   The server has a UID left.
   */
  lemma TimelyIsExact(s0: State, before: seq<Step>, s: State, p: PassId)
    requires Init(s0) && TimelyRun(s0, before, s)
    requires p in s.passes && s.passes[p].CheckpointRead? && s.passes[p].cp.validity == 0
    requires s.w.remote.uidNext <= MAX_UID
    ensures Timely(s, ReadClock(p)) <==> NeverSkips(Next(s, ReadClock(p)))
  {
    InitInv(s0);
    RunKeepsInv(s0, before, s);
    if Timely(s, ReadClock(p)) {
      forall steps, s' | TimelyRun(Next(s, ReadClock(p)), steps, s')
        ensures !Skips(s'.w)
      {
        TimelyReadNeverSkips(s, p, steps, s');
      }
    } else {
      var steps, s' := LateReadCanSkip(s, p);
      assert TimelyRun(Next(s, ReadClock(p)), steps, s');
    }
  }

  // ---- mail that is never fetched ----

  /** A folder discovered on an empty mailbox. */
  function EmptyStart(): State {
    State(World(Remote(1, {}, map[], 1), Folder({}, 0, 0, true), WINDOW, None), map[])
  }

  /** Pass 0 reads the checkpoint and stops there; pass 1 reads it too, and the clock. */
  lemma LateRunBegins() returns (steps: seq<Step>, s: State)
    ensures TimelyRun(EmptyStart(), steps, s) && s.w == EmptyStart().w
    ensures s.passes.Keys == {0, 1} && s.passes[0] == CheckpointRead(IncrementalSync, Checkpoint(0, 0))
    ensures s.passes[1] == Timed(IncrementalSync, Checkpoint(0, 0), 0)
  {
    var s0 := EmptyStart();
    var cp := CheckpointRead(IncrementalSync, Checkpoint(0, 0));
    assert TimelyRun(s0, [], s0);
    var s1 := Next(s0, Begin(0, IncrementalSync));
    TimelyThen(s0, [], s0, Begin(0, IncrementalSync));
    var s2 := Next(s1, Begin(1, IncrementalSync));
    TimelyThen(s0, [] + [Begin(0, IncrementalSync)], s1, Begin(1, IncrementalSync));
    steps := [] + [Begin(0, IncrementalSync)] + [Begin(1, IncrementalSync)];
    TimelyThen(s0, steps, s2, ReadClock(1));
    steps := steps + [ReadClock(1)];
    s := Next(s2, ReadClock(1));
  }

  /** What pass 0 has read is by now out of date. */
  const STALE := CheckpointRead(IncrementalSync, Checkpoint(0, 0))

  function LateState(last: Pass, local: Folder, p: PassId): State {
    State(World(EmptyStart().w.remote, local, WINDOW, Some(0)), map[0 := STALE, p := last])
  }

  /** Pass 1 prepares the folder. */
  lemma LateRunPrepares() returns (steps: seq<Step>, s: State)
    ensures TimelyRun(EmptyStart(), steps, s)
    ensures s == LateState(Prepared(IncrementalSync, Checkpoint(0, 0), 0, 1), Folder({}, 1, 0, true), 1)
  {
    var s0, u := EmptyStart(), EmptyStart();
    steps, u := LateRunBegins();
    TimelyThen(s0, steps, u, Select(1, 1));
    steps, u := steps + [Select(1, 1)], Next(u, Select(1, 1));
    TimelyThen(s0, steps, u, PrepareTx(1));
    steps, s := steps + [PrepareTx(1)], Next(u, PrepareTx(1));
  }

  /** It finds nothing and completes. */
  lemma LateRunInitializes() returns (steps: seq<Step>, s: State)
    ensures TimelyRun(EmptyStart(), steps, s)
    ensures s == State(World(EmptyStart().w.remote, Folder({}, 1, 0, true), WINDOW, Some(0)), map[0 := STALE])
  {
    var u;
    steps, u := LateRunPrepares();
    steps, u := LatePassSearches(EmptyStart(), steps, u, 1);
    TimelyThen(EmptyStart(), steps, u, CompleteTx(1));
    steps, s := steps + [CompleteTx(1)], Next(u, CompleteTx(1));
    assert s.passes == map[0 := STALE];
  }

  /** A history pass begins and searches: there is no history. */
  lemma LateRunLooksBack() returns (steps: seq<Step>, s: State)
    ensures TimelyRun(EmptyStart(), steps, s)
    ensures s == LateState(Selected(History, Checkpoint(1, 0), 0, 1), Folder({}, 1, 0, true), 2)
  {
    var s0, u := EmptyStart(), EmptyStart();
    steps, u := LateRunInitializes();
    TimelyThen(s0, steps, u, Begin(2, History));
    steps, u := steps + [Begin(2, History)], Next(u, Begin(2, History));
    assert u.passes == map[0 := STALE, 2 := CheckpointRead(History, Checkpoint(1, 0))];
    TimelyThen(s0, steps, u, ReadClock(2));
    steps, u := steps + [ReadClock(2)], Next(u, ReadClock(2));
    TimelyThen(s0, steps, u, Select(2, 1));
    steps, s := steps + [Select(2, 1)], Next(u, Select(2, 1));
  }

  /** The history is complete. */
  lemma LateRunCompletes() returns (steps: seq<Step>, s: State)
    ensures TimelyRun(EmptyStart(), steps, s)
    ensures s == State(World(EmptyStart().w.remote, Folder({}, 1, 0, false), WINDOW, Some(0)), map[0 := STALE])
  {
    var s0, u := EmptyStart(), EmptyStart();
    steps, u := LateRunLooksBack();
    assert Asked(u.w, History, Checkpoint(1, 0), 0) == {};
    TimelyThen(s0, steps, u, Search(2, {}));
    steps, u := steps + [Search(2, {})], Next(u, Search(2, {}));
    TimelyThen(s0, steps, u, EndFetch(2));
    steps, u := steps + [EndFetch(2)], Next(u, EndFetch(2));
    TimelyThen(s0, steps, u, CompleteTx(2));
    steps, s := steps + [CompleteTx(2)], Next(u, CompleteTx(2));
    assert s.passes == map[0 := STALE];
  }

  /** A message arrives, and a second later it is older than the window of a pass that starts now. */
  lemma LateRunWaits() returns (steps: seq<Step>, s: State)
    ensures TimelyRun(EmptyStart(), steps, s)
    ensures s == State(World(Remote(1, {1}, map[1 := 0], 2), Folder({}, 1, 0, false), WINDOW + 1, Some(0)), map[0 := STALE])
  {
    var s0, u := EmptyStart(), EmptyStart();
    steps, u := LateRunCompletes();
    TimelyThen(s0, steps, u, Append(1, 0));
    steps, u := steps + [Append(1, 0)], Next(u, Append(1, 0));
    TimelyThen(s0, steps, u, Tick(WINDOW + 1));
    steps, s := steps + [Tick(WINDOW + 1)], Next(u, Tick(WINDOW + 1));
  }

  /**
   A run in which one read of the clock is late: afterwards a message is on the server, below the last
   UID and not stored, and the history is complete, so nothing fetches it any more.
   */
  lemma MailIsLost() returns (before: seq<Step>, s: State, p: PassId, after: seq<Step>, s': State)
    ensures Init(EmptyStart()) && TimelyRun(EmptyStart(), before, s)
    ensures Enabled(s, ReadClock(p)) && !Timely(s, ReadClock(p)) && TimelyRun(Next(s, ReadClock(p)), after, s')
    ensures Skips(s'.w) && !s'.w.local.backfillPending
  {
    before, s := LateRunWaits();
    p := 0;
    InitInv(EmptyStart());
    RunKeepsInv(EmptyStart(), before, s);
    assert !Stored(s.w, 1) && s.w.remote.dates[1] == 0;
    after, s' := LateReadCanSkip(s, p);
  }

  // ---- across generations ----

  /** The server gives up the mailbox and starts it again under another UIDVALIDITY; passes under way end. */
  function Renumbered(s: State, validity: nat): State {
    State(s.w.(remote := Remote(validity, {}, map[], 1)), map[])
  }

  /**
   A rebuild does not reset the last UID, so completing it records the new generation's value exactly
   when the old generation's was not larger.
   */
  lemma RebuildTakesNewCheckpoint(f: Folder, observed: nat, target: Uid)
    requires f.validity != 0 && f.validity != observed
    ensures Decide(Checkpoint(f.validity, f.last), observed) == Rebuild
    ensures var f' := Complete(Prepare(f, Rebuild, observed), observed, target);
            && (f'.last == target <==> f.last <= target)
            && f'.rows == {} && f'.backfillPending == f.backfillPending
  {
  }

  /** The first pass after the change finds the mailbox empty. */
  lemma RebuildPrepares(s: State, p: PassId) returns (steps: seq<Step>, s': State)
    requires s.passes == map[] && s.w.remote.present == {} && s.w.remote.uidNext == 1 && s.w.remote.validity != 0
    requires s.w.local.validity != 0 && s.w.local.validity != s.w.remote.validity && s.w.limit.Some?
    ensures TimelyRun(s, steps, s')
    ensures s' == State(s.w.(local := s.w.local.(rows := {}, validity := s.w.remote.validity)),
                        map[p := Prepared(IncrementalSync, Checkpoint(s.w.local.validity, s.w.local.last), s.w.now - WINDOW, 1)])
  {
    var u;
    assert TimelyRun(s, [], s);
    TimelyThen(s, [], s, Begin(p, IncrementalSync));
    steps, u := [] + [Begin(p, IncrementalSync)], Next(s, Begin(p, IncrementalSync));
    TimelyThen(s, steps, u, ReadClock(p));
    steps, u := steps + [ReadClock(p)], Next(u, ReadClock(p));
    TimelyThen(s, steps, u, Select(p, 1));
    steps, u := steps + [Select(p, 1)], Next(u, Select(p, 1));
    TimelyThen(s, steps, u, PrepareTx(p));
    steps, s' := steps + [PrepareTx(p)], Next(u, PrepareTx(p));
  }

  /** It has nothing to fetch, and completing it keeps the larger, old last UID. */
  lemma RebuildCompletes(s: State, p: PassId) returns (steps: seq<Step>, s': State)
    requires s.passes == map[] && s.w.remote.present == {} && s.w.remote.uidNext == 1 && s.w.remote.validity != 0
    requires s.w.local.validity != 0 && s.w.local.validity != s.w.remote.validity && s.w.limit.Some?
    ensures TimelyRun(s, steps, s')
    ensures s' == State(s.w.(local := s.w.local.(rows := {}, validity := s.w.remote.validity)), map[])
  {
    var u;
    steps, u := RebuildPrepares(s, p);
    var cp, boundary := u.passes[p].cp, u.passes[p].boundary;
    assert Asked(u.w, IncrementalSync, cp, boundary) == {} && !Probes(u.w, cp);
    TimelyThen(s, steps, u, Search(p, {}));
    steps, u := steps + [Search(p, {})], Next(u, Search(p, {}));
    assert u.passes[p] == Fetching(Goal(IncrementalSync, cp, boundary, 1, 0), {});
    TimelyThen(s, steps, u, EndFetch(p));
    steps, u := steps + [EndFetch(p)], Next(u, EndFetch(p));
    TimelyThen(s, steps, u, CompleteTx(p));
    steps, s' := steps + [CompleteTx(p)], Next(u, CompleteTx(p));
    assert s'.passes == map[];
  }

  /** The message is recent, on the server and not stored, and a pass that begins now probes above it. */
  predicate Hidden(w: World, u: Uid) {
    var cp := Checkpoint(w.local.validity, w.local.last);
    && u in w.remote.present && u in w.remote.dates && w.now - WINDOW <= w.remote.dates[u] && !Stored(w, u)
    && Probes(w, cp) && u < FetchFrom(cp)
  }

  /** No pass of the run looks for history. */
  ghost predicate NoHistory(steps: seq<Step>) {
    forall i :: 0 <= i < |steps| ==> !(steps[i].Begin? && steps[i].kind == History)
  }

  /** Whatever the pass still does, it does not fetch `u`: it probes above it. */
  ghost predicate PassesOver(w: World, pass: Pass, u: Uid) {
    match pass
    case CheckpointRead(kind, cp) => kind != History && Probes(w, cp) && u < FetchFrom(cp)
    case Timed(kind, cp, _) => kind != History && Probes(w, cp) && u < FetchFrom(cp)
    case Selected(kind, cp, _, _) => kind != History && Probes(w, cp) && u < FetchFrom(cp)
    case Prepared(kind, cp, _, _) => kind != History && Probes(w, cp) && u < FetchFrom(cp)
    case Fetching(goal, todo) => goal.kind != History && u !in todo
    case Storing(goal, got, todo) => goal.kind != History && u !in got && u !in todo
    case _ => pass.goal.kind != History
  }

  ghost predicate StaysOut(s: State, u: Uid) {
    && !Stored(s.w, u)
    && Probes(s.w, Checkpoint(s.w.local.validity, s.w.local.last)) && u < FetchFrom(Checkpoint(s.w.local.validity, s.w.local.last))
    && forall p :: p in s.passes ==> PassesOver(s.w, s.passes[p], u)
  }

  lemma StepKeepsOut(s: State, step: Step, u: Uid)
    requires StaysOut(s, u) && Enabled(s, step) && !(step.Begin? && step.kind == History)
    ensures StaysOut(Next(s, step), u)
  {
    if !step.Append? && !step.Expunge? && !step.Tick? && step.p in s.passes {
      assert PassesOver(s.w, s.passes[step.p], u);
    }
  }

  /** However things go on in this generation, no incremental and no full pass ever fetches a hidden message. */
  lemma {:induction false} HiddenStaysOut(s: State, steps: seq<Step>, s': State, u: Uid)
    requires StaysOut(s, u) && IsRun(s, steps, s') && NoHistory(steps)
    ensures StaysOut(s', u)
    decreases |steps|
  {
    if steps != [] {
      StepKeepsOut(s, steps[0], u);
      assert NoHistory(steps[1..]);
      HiddenStaysOut(Next(s, steps[0]), steps[1..], s', u);
    }
  }

  /** The message is never stored by a run without history passes. */
  ghost predicate NeverStored(s: State, u: Uid) {
    forall steps, s' :: IsRun(s, steps, s') && NoHistory(steps) ==> !Stored(s'.w, u)
  }

  /**
   Otherwise mail gets lost: from every reachable state with a last UID, the mailbox may be replaced by an
   empty one, be rebuilt, and get a recent message that every later probe passes over.
   */
  lemma RebuildHidesMail(s0: State, before: seq<Step>, s: State, validity: nat) returns (steps: seq<Step>, s': State)
    requires Init(s0) && IsRun(s0, before, s) && 0 < s.w.local.last
    requires validity != 0 && validity != s.w.remote.validity
    ensures TimelyRun(Renumbered(s, validity), steps, s') && Hidden(s'.w, 1) && NeverStored(s', 1)
  {
    InitSane(s0);
    RunKeepsSane(s0, before, s);
    LastNeedsPreparing(s0, before, s);
    var u;
    steps, u := RebuildCompletes(Renumbered(s, validity), 0);
    TimelyThen(Renumbered(s, validity), steps, u, Append(1, u.w.now));
    steps, s' := steps + [Append(1, u.w.now)], Next(u, Append(1, u.w.now));
    assert StaysOut(s', 1);
    forall later, s'' | IsRun(s', later, s'') && NoHistory(later)
      ensures !Stored(s''.w, 1)
    {
      HiddenStaysOut(s', later, s'', 1);
    }
  }

  /** A last UID is recorded only for a folder that was prepared. */
  lemma {:induction false} LastNeedsPreparing(s: State, steps: seq<Step>, s': State)
    requires Sane(s) && IsRun(s, steps, s') && (0 < s.w.local.last ==> s.w.local.validity != 0)
    requires s.w.local.validity != 0 <==> s.w.limit.Some?
    ensures 0 < s'.w.local.last ==> s'.w.local.validity != 0
    ensures s'.w.local.validity != 0 <==> s'.w.limit.Some?
    decreases |steps|
  {
    if steps != [] {
      StepKeepsSane(s, steps[0]);
      if steps[0].CompleteTx? {
        assert PassSane(s.w, s.passes[steps[0].p]);
      }
      LastNeedsPreparing(Next(s, steps[0]), steps[1..], s');
    }
  }

  /** A message came and went before the first pass. */
  lemma FirstRunPrepares() returns (steps: seq<Step>, s: State)
    ensures TimelyRun(EmptyStart(), steps, s)
    ensures s == State(World(Remote(1, {}, map[1 := 0], 2), Folder({}, 1, 0, true), WINDOW, Some(0)),
                       map[0 := Prepared(IncrementalSync, Checkpoint(0, 0), 0, 2)])
  {
    var s0, u := EmptyStart(), EmptyStart();
    assert TimelyRun(s0, [], s0);
    TimelyThen(s0, [], s0, Append(1, 0));
    steps, u := [] + [Append(1, 0)], Next(u, Append(1, 0));
    TimelyThen(s0, steps, u, Expunge(1));
    steps, u := steps + [Expunge(1)], Next(u, Expunge(1));
    TimelyThen(s0, steps, u, Begin(0, IncrementalSync));
    steps, u := steps + [Begin(0, IncrementalSync)], Next(u, Begin(0, IncrementalSync));
    assert u == State(World(Remote(1, {}, map[1 := 0], 2), Folder({}, 0, 0, true), WINDOW, None), map[0 := STALE]);
    TimelyThen(s0, steps, u, ReadClock(0));
    steps, u := steps + [ReadClock(0)], Next(u, ReadClock(0));
    TimelyThen(s0, steps, u, Select(0, 2));
    steps, u := steps + [Select(0, 2)], Next(u, Select(0, 2));
    TimelyThen(s0, steps, u, PrepareTx(0));
    steps, s := steps + [PrepareTx(0)], Next(u, PrepareTx(0));
  }

  /** A whole history of the loss: a first pass, a change of UIDVALIDITY to 2, a rebuild and a hidden message. */
  lemma MailIsHidden() returns (before: seq<Step>, s: State, after: seq<Step>, s': State)
    ensures Init(EmptyStart()) && TimelyRun(EmptyStart(), before, s) && s.w.remote.validity == 1
    ensures TimelyRun(Renumbered(s, 2), after, s') && Hidden(s'.w, 1) && NeverStored(s', 1)
  {
    var u;
    before, u := FirstRunPrepares();
    before, u := LatePassSearches(EmptyStart(), before, u, 0);
    TimelyThen(EmptyStart(), before, u, CompleteTx(0));
    before, s := before + [CompleteTx(0)], Next(u, CompleteTx(0));
    TimelyRunIsRun(EmptyStart(), before, s);
    after, s' := RebuildHidesMail(EmptyStart(), before, s, 2);
  }
}

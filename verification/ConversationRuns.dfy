/**
 Flag and move operations on the mirror, and conversation summaries over all runs of the transactions
 that change messages or their places.
 */
module ConversationRuns {
  import opened Conversations
  import opened Options

  // ---- flag operations ----

  datatype Column = Seen | Flagged

  function WithColumn(m: Message, column: Column, value: bool): Message {
    match column
    case Seen => m.(seen := value)
    case Flagged => m.(flagged := value)
  }

  function SetColumn(db: Db, account: Id, targets: set<Id>, column: Column, value: bool): Db {
    db.(messages := map m | m in db.messages ::
          if m in targets && db.messages[m].account == account then WithColumn(db.messages[m], column, value) else db.messages[m])
  }

  /** The conversations of the targets are among those refreshed. */
  ghost predicate CoversTargets(db: Db, account: Id, targets: set<Id>, affected: set<Id>) {
    forall m :: m in targets && m in db.messages && db.messages[m].account == account ==> db.messages[m].conversation in affected
  }

  ghost function CompleteFlags(db: Db, account: Id, targets: set<Id>, column: Column, value: bool, affected: set<Id>): Db {
    RefreshOrDrop(SetColumn(db, account, targets, column, value), affected)
  }

  lemma FlaggingKeepsSummaries(db: Db, account: Id, targets: set<Id>, column: Column, value: bool, affected: set<Id>)
    requires Consistent(db) && CoversTargets(db, account, targets, affected)
    ensures Consistent(CompleteFlags(db, account, targets, column, value, affected))
  {
    RefreshRestores(db, SetColumn(db, account, targets, column, value), affected);
  }

  // ---- moves and permanent deletes ----

  /** A row that is moved away, and the place the server reported for it, if it did. */
  datatype Source = Source(place: Place, message: Id, flags: Flags, conversation: Id, destination: Option<Place>)

  function MoveOne(db: Db, source: Source): Db {
    var left := Without(db, {source.place});
    match source.destination
    case None => left
    case Some(p) => left.(locations := left.locations[p := Location(source.message, source.flags)])
  }

  function MoveAll(db: Db, sources: seq<Source>): (r: Db)
    ensures r.messages == db.messages && r.conversations == db.conversations
    decreases |sources|
  {
    if sources == [] then db else MoveAll(MoveOne(db, sources[0]), sources[1..])
  }

  /** A permanent delete removes the targets that are nowhere any more. */
  ghost function Purge(db: Db, account: Id, targets: set<Id>): Db {
    db.(messages := map m | m in db.messages && !(m in targets && IsOrphan(db, account, m)) :: db.messages[m])
  }

  function ConversationsOf(sources: seq<Source>): set<Id> {
    set s | s in sources :: s.conversation
  }

  ghost function CommitMove(db: Db, account: Id, sources: seq<Source>, permanent: bool, targets: set<Id>): Db {
    var moved := MoveAll(db, sources);
    RefreshOrDrop(if permanent then Purge(moved, account, targets) else moved, ConversationsOf(sources))
  }

  /** Moving rows changes no summary, whether or not the server reports where they went. */
  lemma MovingKeepsSummaries(db: Db, account: Id, sources: seq<Source>, targets: set<Id>)
    requires Consistent(db)
    ensures Consistent(CommitMove(db, account, sources, false, targets))
  {
    RefreshRestores(db, MoveAll(db, sources), ConversationsOf(sources));
  }

  /** The targets that are nowhere after the move belong to conversations that are refreshed. */
  ghost predicate PurgedAreAffected(db: Db, account: Id, sources: seq<Source>, targets: set<Id>) {
    forall m :: m in targets && IsOrphan(MoveAll(db, sources), account, m) ==> db.messages[m].conversation in ConversationsOf(sources)
  }

  lemma PurgedMemberShows(db: Db, purged: Db, affected: set<Id>, m: Id)
    requires Consistent(db) && m in db.messages && m !in purged.messages && db.messages[m].conversation in db.conversations
    requires purged.conversations == db.conversations && db.messages[m].conversation !in affected
    requires forall q :: q in purged.messages ==> q in db.messages && purged.messages[q] == db.messages[q]
    ensures !Consistent(RefreshOrDrop(purged, affected))
  {
    var c := db.messages[m].conversation;
    assert Agrees(db, c);
    FewerMembers(Members(purged.messages, c), Members(db.messages, c), m);
    assert !Agrees(RefreshOrDrop(purged, affected), c);
  }

  /** A permanent delete leaves every summary right exactly when it refreshes the conversations it takes from. */
  lemma PurgingIsRightExactly(db: Db, account: Id, sources: seq<Source>, targets: set<Id>)
    requires Consistent(db) && WellFormed(db)
    ensures Consistent(CommitMove(db, account, sources, true, targets)) <==> PurgedAreAffected(db, account, sources, targets)
  {
    var moved, affected := MoveAll(db, sources), ConversationsOf(sources);
    var purged := Purge(moved, account, targets);
    if PurgedAreAffected(db, account, sources, targets) {
      RefreshRestores(db, purged, affected);
    } else {
      var m :| m in targets && IsOrphan(moved, account, m) && db.messages[m].conversation !in affected;
      PurgedMemberShows(db, purged, affected, m);
    }
  }

  // ---- runs ----

  datatype Step =
    | StoreStep(account: Id, batch: seq<Arrival>)
    | ReconcileStep(snapshot: Snapshot, rows: seq<Place>)
    | RebuildStep(account: Id, folder: Id)
    | FlagStep(account: Id, targets: set<Id>, column: Column, value: bool, affected: set<Id>)
    | MoveStep(account: Id, sources: seq<Source>, permanent: bool, targets: set<Id>)

  /** The sources were read from the tables, and a destination is a place of the same account. */
  ghost predicate AreSources(db: Db, account: Id, sources: seq<Source>) {
    forall s :: s in sources ==>
      && (s.message in db.messages ==> db.messages[s.message].account == account
                                       && s.conversation == db.messages[s.message].conversation)
      && (s.place in db.locations ==> db.locations[s.place].message == s.message)
      && (s.destination.Some? ==> s.message in db.messages && s.destination.value.account == account)
  }

  ghost predicate Enabled(db: Db, step: Step) {
    match step
    case StoreStep(account, batch) => AllFit(db, account, batch)
    case ReconcileStep(snapshot, rows) => WellFormed(db) && AreRowsOf(db, snapshot.account, snapshot.folder, rows)
    case RebuildStep(_, _) => WellFormed(db)
    case FlagStep(account, targets, _, _, affected) => CoversTargets(db, account, targets, affected)
    case MoveStep(account, sources, permanent, targets) =>
      AreSources(db, account, sources) && (permanent ==> forall s :: s in sources ==> s.destination == None && s.message in targets)
  }

  ghost function Next(db: Db, step: Step): Db
    requires Enabled(db, step)
  {
    match step
    case StoreStep(account, batch) => StoreBatch(db, account, batch)
    case ReconcileStep(snapshot, rows) => Reconcile(db, snapshot, rows)
    case RebuildStep(account, folder) => Rebuild(db, account, folder)
    case FlagStep(account, targets, column, value, affected) => CompleteFlags(db, account, targets, column, value, affected)
    case MoveStep(account, sources, permanent, targets) => CommitMove(db, account, sources, permanent, targets)
  }

  ghost predicate IsRun(db: Db, steps: seq<Step>, db': Db)
    decreases |steps|
  {
    if steps == [] then db == db'
    else Enabled(db, steps[0]) && IsRun(Next(db, steps[0]), steps[1..], db')
  }

  /** The move leaves every message somewhere: its new place was reported, and took no other message's last one. */
  ghost predicate KeepsPlaces(db: Db, step: Step)
    requires Enabled(db, step)
  {
    step.MoveStep? && !step.permanent ==> NoOrphans(Next(db, step))
  }

  ghost predicate TrackedRun(db: Db, steps: seq<Step>, db': Db)
    decreases |steps|
  {
    if steps == [] then db == db'
    else Enabled(db, steps[0]) && KeepsPlaces(db, steps[0]) && TrackedRun(Next(db, steps[0]), steps[1..], db')
  }

  // ---- references and places are kept ----

  lemma RefreshKeepsReferences(db: Db, affected: set<Id>)
    requires WellFormed(db)
    ensures WellFormed(Refresh(db, affected)) && WellFormed(RefreshOrDrop(db, affected))
  {
    forall m | m in db.messages ensures db.messages[m].conversation in RefreshOrDrop(db, affected).conversations {
      assert m in Members(db.messages, db.messages[m].conversation);
    }
  }

  lemma CleanupKeepsReferences(db: Db, account: Id)
    requires WellFormed(db)
    ensures WellFormed(Cleanup(db, account))
  {
    var cleaned := Cleanup(db, account);
    forall m | m in cleaned.messages ensures cleaned.messages[m].conversation in cleaned.conversations {
      assert m in Members(cleaned.messages, cleaned.messages[m].conversation);
    }
    forall p | p in cleaned.locations ensures cleaned.locations[p].message in cleaned.messages {
      assert HasPlace(db, db.locations[p].message);
    }
  }

  lemma StoreOneKeepsReferences(db: Db, account: Id, a: Arrival)
    requires WellFormed(db) && Fits(db, account, a)
    ensures WellFormed(StoreOne(db, a)) && (NoOrphans(db) ==> NoOrphans(StoreOne(db, a)))
  {
    var after := StoreOne(db, a);
    if NoOrphans(db) {
      forall m | m in after.messages ensures HasPlace(after, m) {
        if m in db.messages {
          var p :| p in db.locations && db.locations[p].message == m;
          assert p in after.locations && after.locations[p].message == m;
        } else {
          assert a.place in after.locations && after.locations[a.place].message == m;
        }
      }
    }
  }

  lemma {:induction false} StoringKeepsReferences(db: Db, account: Id, batch: seq<Arrival>)
    requires WellFormed(db) && AllFit(db, account, batch)
    ensures WellFormed(StoreAll(db, account, batch).0)
    ensures NoOrphans(db) ==> NoOrphans(StoreAll(db, account, batch).0)
    decreases |batch|
  {
    if batch != [] {
      StoreOneKeepsReferences(db, account, batch[0]);
      StoringKeepsReferences(StoreOne(db, batch[0]), account, batch[1..]);
    }
  }

  /** After a cleanup of its account no message is nowhere, if the other accounts were in order. */
  lemma CleanupPlacesAll(a: Db, b: Db, account: Id)
    requires WellFormed(a) && NoOrphans(a) && SameRows(a, b)
    ensures forall gone: set<Place> :: (forall p :: p in gone ==> p.account == account) ==>
              NoOrphans(Cleanup(Without(b, gone), account))
  {
    forall gone: set<Place> | forall p :: p in gone ==> p.account == account
      ensures NoOrphans(Cleanup(Without(b, gone), account))
    {
      var d := Without(b, gone);
      forall m | m in d.messages && d.messages[m].account != account ensures HasPlace(d, m) {
        var p :| p in a.locations && a.locations[p].message == m;
        assert p.account != account && p in d.locations && d.locations[p].message == m;
      }
      forall m | m in Cleanup(d, account).messages ensures HasPlace(Cleanup(d, account), m) {
        assert HasPlace(d, m);
      }
    }
  }

  ghost predicate Good(db: Db) {
    WellFormed(db) && Consistent(db) && NoOrphans(db)
  }

  lemma StoreStepKeeps(db: Db, account: Id, batch: seq<Arrival>)
    requires Good(db) && AllFit(db, account, batch)
    ensures Good(StoreBatch(db, account, batch))
  {
    var (after, affected) := StoreAll(db, account, batch);
    StoringKeepsSummaries(db, account, batch);
    StoringKeepsReferences(db, account, batch);
    RefreshKeepsReferences(after, affected);
    SamePlaces(after, Refresh(after, affected));
  }

  lemma SamePlaces(a: Db, b: Db)
    requires NoOrphans(a) && b.messages.Keys <= a.messages.Keys && b.locations == a.locations
    ensures NoOrphans(b)
  {
    forall m | m in b.messages ensures HasPlace(b, m) {
      assert HasPlace(a, m);
    }
  }

  lemma SameRowsKeepReferences(a: Db, b: Db, gone: set<Place>)
    requires WellFormed(a) && SameRows(a, b)
    ensures WellFormed(Without(b, gone))
  {
  }

  lemma ReconcileStepKeeps(db: Db, snapshot: Snapshot, rows: seq<Place>)
    requires Good(db) && AreRowsOf(db, snapshot.account, snapshot.folder, rows)
    ensures Good(Reconcile(db, snapshot, rows))
  {
    var (compared, affected) := CompareRows(db, db, snapshot, rows);
    var gone := GoneRows(db, snapshot);
    var cleaned := Cleanup(Without(compared, gone), snapshot.account);
    PlacedMessagesAreCovered(db, snapshot.account, affected);
    ReconcileIsRightExactly(db, snapshot, rows);
    SameRowsKeepReferences(db, compared, gone);
    CleanupKeepsReferences(Without(compared, gone), snapshot.account);
    RefreshKeepsReferences(cleaned, affected);
    CleanupPlacesAll(db, compared, snapshot.account);
    SamePlaces(cleaned, Refresh(cleaned, affected));
  }

  lemma RebuildStepKeeps(db: Db, account: Id, folder: Id)
    requires Good(db)
    ensures Good(Rebuild(db, account, folder))
  {
    var rows := InFolderRows(db, account, folder);
    var affected := ConversationsAt(db, rows);
    var cleaned := Cleanup(Without(db, rows), account);
    PlacedMessagesAreCovered(db, account, affected);
    RebuildIsRightExactly(db, account, folder);
    SameRowsKeepReferences(db, db, rows);
    CleanupKeepsReferences(Without(db, rows), account);
    RefreshKeepsReferences(cleaned, affected);
    CleanupPlacesAll(db, db, account);
    SamePlaces(cleaned, Refresh(cleaned, affected));
  }

  lemma ColumnKeepsReferences(db: Db, account: Id, targets: set<Id>, column: Column, value: bool)
    requires WellFormed(db)
    ensures WellFormed(SetColumn(db, account, targets, column, value))
  {
  }

  lemma FlagStepKeeps(db: Db, account: Id, targets: set<Id>, column: Column, value: bool, affected: set<Id>)
    requires Good(db) && CoversTargets(db, account, targets, affected)
    ensures Good(CompleteFlags(db, account, targets, column, value, affected))
  {
    var flagged := SetColumn(db, account, targets, column, value);
    FlaggingKeepsSummaries(db, account, targets, column, value, affected);
    ColumnKeepsReferences(db, account, targets, column, value);
    RefreshKeepsReferences(flagged, affected);
    SamePlaces(db, flagged);
    SamePlaces(flagged, RefreshOrDrop(flagged, affected));
  }

  lemma {:induction false} MovingKeepsReferences(db: Db, account: Id, sources: seq<Source>)
    requires WellFormed(db)
    requires forall s :: s in sources && s.destination.Some? ==>
      s.message in db.messages && db.messages[s.message].account == account == s.destination.value.account
    ensures WellFormed(MoveAll(db, sources))
    decreases |sources|
  {
    if sources != [] {
      assert sources[0] in sources;
      assert WellFormed(MoveOne(db, sources[0]));
      MovingKeepsReferences(MoveOne(db, sources[0]), account, sources[1..]);
    }
  }

  /** Without destinations, a move only removes the places of its sources. */
  lemma {:induction false} MovingAway(db: Db, sources: seq<Source>, p: Place)
    requires forall s :: s in sources ==> s.destination == None
    ensures p in MoveAll(db, sources).locations <==> p in db.locations && forall s :: s in sources ==> s.place != p
    ensures p in MoveAll(db, sources).locations ==> MoveAll(db, sources).locations[p] == db.locations[p]
    decreases |sources|
  {
    if sources != [] {
      MovingAway(MoveOne(db, sources[0]), sources[1..], p);
      assert sources == [sources[0]] + sources[1..];
    }
  }

  lemma PurgedWereSources(db: Db, account: Id, sources: seq<Source>, targets: set<Id>, m: Id)
    requires NoOrphans(db) && AreSources(db, account, sources) && forall s :: s in sources ==> s.destination == None
    requires m in db.messages && !HasPlace(MoveAll(db, sources), m)
    ensures exists s :: s in sources && s.message == m
  {
    var p :| p in db.locations && db.locations[p].message == m;
    MovingAway(db, sources, p);
  }

  lemma MoveStepKeeps(db: Db, account: Id, sources: seq<Source>, permanent: bool, targets: set<Id>)
    requires Good(db) && Enabled(db, MoveStep(account, sources, permanent, targets))
    requires KeepsPlaces(db, MoveStep(account, sources, permanent, targets))
    ensures Good(CommitMove(db, account, sources, permanent, targets))
  {
    var moved, affected := MoveAll(db, sources), ConversationsOf(sources);
    MovingKeepsReferences(db, account, sources);
    if !permanent {
      MovingKeepsSummaries(db, account, sources, targets);
      RefreshKeepsReferences(moved, affected);
    } else {
      var purged := Purge(moved, account, targets);
      forall m | m in db.messages && !HasPlace(moved, m) ensures m in targets && IsOrphan(moved, account, m) && db.messages[m].conversation in affected {
        PurgedWereSources(db, account, sources, targets, m);
      }
      PurgingIsRightExactly(db, account, sources, targets);
      PurgeKeepsReferences(moved, account, targets);
      RefreshKeepsReferences(purged, affected);
      forall m | m in purged.messages ensures HasPlace(purged, m) {
        assert HasPlace(moved, m);
      }
      SamePlaces(purged, RefreshOrDrop(purged, affected));
    }
  }

  lemma PurgeKeepsReferences(db: Db, account: Id, targets: set<Id>)
    requires WellFormed(db)
    ensures WellFormed(Purge(db, account, targets))
  {
    var purged := Purge(db, account, targets);
    forall p | p in purged.locations ensures purged.locations[p].message in purged.messages {
      assert HasPlace(db, db.locations[p].message);
    }
  }

  lemma NextKeepsGood(db: Db, step: Step)
    requires Good(db) && Enabled(db, step) && KeepsPlaces(db, step)
    ensures Good(Next(db, step))
  {
    match step
    case StoreStep(account, batch) => StoreStepKeeps(db, account, batch);
    case ReconcileStep(snapshot, rows) => ReconcileStepKeeps(db, snapshot, rows);
    case RebuildStep(account, folder) => RebuildStepKeeps(db, account, folder);
    case FlagStep(account, targets, column, value, affected) => FlagStepKeeps(db, account, targets, column, value, affected);
    case MoveStep(account, sources, permanent, targets) => MoveStepKeeps(db, account, sources, permanent, targets);
  }

  lemma {:induction false} RunKeepsGood(db: Db, steps: seq<Step>, db': Db)
    requires Good(db) && TrackedRun(db, steps, db')
    ensures Good(db')
    decreases |steps|
  {
    if steps != [] {
      NextKeepsGood(db, steps[0]);
      RunKeepsGood(Next(db, steps[0]), steps[1..], db');
    }
  }

  const EMPTY := Db(map[], map[], map[])

  // ---- when summaries agree ----

  /**
   What each transaction needs: a cleanup finds its orphans in conversations that are refreshed or lose
   every message, and a permanent delete refreshes the conversations it takes from.
   */
  ghost predicate Covers(db: Db, step: Step)
    requires Enabled(db, step)
  {
    match step
    case ReconcileStep(snapshot, rows) => OrphansAreCovered(db, snapshot.account, Affected(db, snapshot, rows))
    case RebuildStep(account, folder) => OrphansAreCovered(db, account, ConversationsAt(db, InFolderRows(db, account, folder)))
    case MoveStep(account, sources, permanent, targets) => permanent ==> PurgedAreAffected(db, account, sources, targets)
    case _ => true
  }

  /** A run in which every transaction finds what it needs; messages may be nowhere in between. */
  ghost predicate CoveredRun(db: Db, steps: seq<Step>, db': Db)
    decreases |steps|
  {
    if steps == [] then db == db'
    else Enabled(db, steps[0]) && Covers(db, steps[0]) && CoveredRun(Next(db, steps[0]), steps[1..], db')
  }

  lemma ReconcileKeepsReferences(db: Db, snapshot: Snapshot, rows: seq<Place>)
    requires WellFormed(db) && AreRowsOf(db, snapshot.account, snapshot.folder, rows)
    ensures WellFormed(Reconcile(db, snapshot, rows))
  {
    var (compared, affected) := CompareRows(db, db, snapshot, rows);
    var gone := GoneRows(db, snapshot);
    SameRowsKeepReferences(db, compared, gone);
    CleanupKeepsReferences(Without(compared, gone), snapshot.account);
    RefreshKeepsReferences(Cleanup(Without(compared, gone), snapshot.account), affected);
  }

  lemma RebuildKeepsReferences(db: Db, account: Id, folder: Id)
    requires WellFormed(db)
    ensures WellFormed(Rebuild(db, account, folder))
  {
    var rows := InFolderRows(db, account, folder);
    SameRowsKeepReferences(db, db, rows);
    CleanupKeepsReferences(Without(db, rows), account);
    RefreshKeepsReferences(Cleanup(Without(db, rows), account), ConversationsAt(db, rows));
  }

  lemma MoveKeepsReferences(db: Db, account: Id, sources: seq<Source>, permanent: bool, targets: set<Id>)
    requires WellFormed(db) && AreSources(db, account, sources)
    ensures WellFormed(CommitMove(db, account, sources, permanent, targets))
  {
    var moved := MoveAll(db, sources);
    MovingKeepsReferences(db, account, sources);
    PurgeKeepsReferences(moved, account, targets);
    RefreshKeepsReferences(if permanent then Purge(moved, account, targets) else moved, ConversationsOf(sources));
  }

  /** Every transaction keeps references intact, wherever messages are. */
  lemma NextKeepsReferences(db: Db, step: Step)
    requires WellFormed(db) && Enabled(db, step)
    ensures WellFormed(Next(db, step))
  {
    match step
    case StoreStep(account, batch) =>
      StoringKeepsReferences(db, account, batch);
      RefreshKeepsReferences(StoreAll(db, account, batch).0, StoreAll(db, account, batch).1);
    case ReconcileStep(snapshot, rows) => ReconcileKeepsReferences(db, snapshot, rows);
    case RebuildStep(account, folder) => RebuildKeepsReferences(db, account, folder);
    case FlagStep(account, targets, column, value, affected) =>
      ColumnKeepsReferences(db, account, targets, column, value);
      RefreshKeepsReferences(SetColumn(db, account, targets, column, value), affected);
    case MoveStep(account, sources, permanent, targets) => MoveKeepsReferences(db, account, sources, permanent, targets);
  }

  /** A transaction leaves every summary right exactly when it finds what it needs. */
  lemma NextIsRightExactly(db: Db, step: Step)
    requires WellFormed(db) && Consistent(db) && Enabled(db, step)
    ensures Consistent(Next(db, step)) <==> Covers(db, step)
  {
    match step
    case StoreStep(account, batch) => StoringKeepsSummaries(db, account, batch);
    case ReconcileStep(snapshot, rows) => ReconcileIsRightExactly(db, snapshot, rows);
    case RebuildStep(account, folder) => RebuildIsRightExactly(db, account, folder);
    case FlagStep(account, targets, column, value, affected) => FlaggingKeepsSummaries(db, account, targets, column, value, affected);
    case MoveStep(account, sources, permanent, targets) =>
      if permanent {
        PurgingIsRightExactly(db, account, sources, targets);
      } else {
        MovingKeepsSummaries(db, account, sources, targets);
      }
  }

  lemma {:induction false} CoveredRunKeeps(db: Db, steps: seq<Step>, db': Db)
    requires WellFormed(db) && Consistent(db) && CoveredRun(db, steps, db')
    ensures WellFormed(db') && Consistent(db')
    decreases |steps|
  {
    if steps != [] {
      NextKeepsReferences(db, steps[0]);
      NextIsRightExactly(db, steps[0]);
      CoveredRunKeeps(Next(db, steps[0]), steps[1..], db');
    }
  }

  /**
   Over all runs whose cleanups and permanent deletes find their orphans covered, every summary equals its
   recomputation.
   */
  lemma SummariesAlwaysAgree(steps: seq<Step>, db: Db)
    requires CoveredRun(EMPTY, steps, db)
    ensures Consistent(db)
  {
    CoveredRunKeeps(EMPTY, steps, db);
  }

  /** The condition is exact: after any such run, the next transaction that is not covered makes a summary wrong. */
  lemma CoverageIsExact(steps: seq<Step>, db: Db, step: Step)
    requires CoveredRun(EMPTY, steps, db) && Enabled(db, step)
    ensures Consistent(Next(db, step)) <==> Covers(db, step)
  {
    CoveredRunKeeps(EMPTY, steps, db);
    NextIsRightExactly(db, step);
  }

  lemma {:induction false} TrackedRunIsCovered(db: Db, steps: seq<Step>, db': Db)
    requires Good(db) && TrackedRun(db, steps, db')
    ensures CoveredRun(db, steps, db')
    decreases |steps|
  {
    if steps != [] {
      NextKeepsGood(db, steps[0]);
      NextIsRightExactly(db, steps[0]);
      TrackedRunIsCovered(Next(db, steps[0]), steps[1..], db');
    }
  }

  /** So every summary is right, and every message somewhere, if moves leave every message somewhere. */
  lemma TrackedMovesAreCovered(steps: seq<Step>, db: Db)
    requires TrackedRun(EMPTY, steps, db)
    ensures CoveredRun(EMPTY, steps, db) && Consistent(db) && NoOrphans(db)
  {
    RunKeepsGood(EMPTY, steps, db);
    TrackedRunIsCovered(EMPTY, steps, db);
  }

  // ---- a move without a reported destination ----

  /** What one message that is nowhere does to its conversation at the next cleanup of its account. */
  lemma OrphanBreaksSummary(db: Db, account: Id, m: Id, n: Id, snapshot: Snapshot)
    requires WellFormed(db) && Consistent(db) && IsOrphan(db, account, m) && snapshot.account == account
    requires n in db.messages && HasPlace(db, n) && db.messages[n].conversation == db.messages[m].conversation
    requires AreRowsOf(db, account, snapshot.folder, [])
    ensures !Consistent(Reconcile(db, snapshot, []))
  {
    var c := db.messages[m].conversation;
    assert m in Members(db.messages, c) && n in Members(db.messages, c);
    assert HasOrphan(db, account, c) && !AllOrphans(db, account, c);
    ReconcileIsRightExactly(db, snapshot, []);
  }

  const READ := Flags(true, false, 0)
  const KEPT := Place(1, 1, 1, 1)
  const MOVED := Place(1, 1, 1, 2)

  function Letter(at: int): Message {
    Message(1, 7, at, "s", "p", true, false)
  }

  function FirstLetter(): Arrival {
    Stored(KEPT, READ, 1, Letter(10))
  }

  function SecondLetter(): Arrival {
    Stored(MOVED, READ, 2, Letter(20))
  }

  lemma OneArrival(db: Db, account: Id, a: Arrival)
    requires a.Stored? && Fits(db, account, a)
    ensures AllFit(db, account, [a])
    ensures StoreBatch(db, account, [a]).messages == db.messages[a.id := a.content]
    ensures StoreBatch(db, account, [a]).locations == db.locations[a.place := Location(a.id, a.flags)]
  {
    assert StoreAll(StoreOne(db, a), account, []) == (StoreOne(db, a), {});
  }

  lemma {:induction false} RunThen(db: Db, steps: seq<Step>, after: Db, step: Step)
    requires IsRun(db, steps, after) && Enabled(after, step)
    ensures IsRun(db, steps + [step], Next(after, step))
    decreases |steps|
  {
    if steps == [] {
      assert IsRun(Next(after, step), [], Next(after, step));
    } else {
      RunThen(Next(db, steps[0]), steps[1..], after, step);
      assert (steps + [step])[1..] == steps[1..] + [step];
    }
  }

  lemma TwoLettersAreStored() returns (steps: seq<Step>, db: Db)
    ensures IsRun(EMPTY, steps, db) && Good(db)
    ensures db.messages == map[1 := Letter(10), 2 := Letter(20)]
    ensures db.locations == map[KEPT := Location(1, READ), MOVED := Location(2, READ)]
  {
    OneArrival(EMPTY, 1, FirstLetter());
    StoreStepKeeps(EMPTY, 1, [FirstLetter()]);
    var one := StoreBatch(EMPTY, 1, [FirstLetter()]);
    OneArrival(one, 1, SecondLetter());
    StoreStepKeeps(one, 1, [SecondLetter()]);
    assert IsRun(EMPTY, [], EMPTY);
    RunThen(EMPTY, [], EMPTY, StoreStep(1, [FirstLetter()]));
    RunThen(EMPTY, [] + [StoreStep(1, [FirstLetter()])], one, StoreStep(1, [SecondLetter()]));
    steps := [] + [StoreStep(1, [FirstLetter()])] + [StoreStep(1, [SecondLetter()])];
    db := StoreBatch(one, 1, [SecondLetter()]);
  }

  /** Only this place holds the message. */
  ghost predicate IsOnlyPlace(db: Db, p: Place) {
    p in db.locations && forall q :: q in db.locations && db.locations[q].message == db.locations[p].message ==> q == p
  }

  ghost function MovedAway(db: Db, source: Source): Db {
    CommitMove(db, source.place.account, [source], false, {source.message})
  }

  /** Moving the only row of a message without a reported place leaves the message nowhere. */
  lemma UnreportedMoveLeavesOrphan(db: Db, source: Source)
    requires WellFormed(db) && Consistent(db) && source.destination == None && IsOnlyPlace(db, source.place)
    requires db.locations[source.place].message == source.message
    ensures WellFormed(MovedAway(db, source)) && Consistent(MovedAway(db, source))
    ensures MovedAway(db, source).messages == db.messages
    ensures MovedAway(db, source).locations == Without(db, {source.place}).locations
    ensures IsOrphan(MovedAway(db, source), source.place.account, source.message)
  {
    var sources := [source];
    MovingKeepsSummaries(db, source.place.account, sources, {source.message});
    MovingKeepsReferences(db, source.place.account, sources);
    RefreshKeepsReferences(MoveAll(db, sources), ConversationsOf(sources));
    assert MoveAll(db, sources) == MoveAll(MoveOne(db, source), []);
  }

  /** `source` is the only row of its message, `other` a row of another message of the conversation, and `folder` empty. */
  ghost predicate IsFragile(db: Db, source: Source, other: Place, folder: Id) {
    && source.destination == None && IsOnlyPlace(db, source.place) && db.locations[source.place].message == source.message
    && source.message in db.messages && db.messages[source.message].account == source.place.account
    && db.messages[source.message].conversation == source.conversation
    && other in db.locations && db.locations[other].message in db.messages && db.locations[other].message != source.message
    && db.messages[db.locations[other].message].conversation == source.conversation
    && forall p :: p in db.locations ==> !InFolder(p, source.place.account, folder)
  }

  /**
   A message that shares its conversation with another one, moved without a reported place: the next
   reconcile of any folder without rows leaves the summary of the conversation wrong.
   */
  lemma UnreportedMoveBreaks(db: Db, source: Source, other: Place, snapshot: Snapshot)
    requires WellFormed(db) && Consistent(db)
    requires IsFragile(db, source, other, snapshot.folder) && snapshot.account == source.place.account
    ensures AreRowsOf(MovedAway(db, source), snapshot.account, snapshot.folder, [])
    ensures WellFormed(MovedAway(db, source)) && !Consistent(Reconcile(MovedAway(db, source), snapshot, []))
  {
    UnreportedMoveLeavesOrphan(db, source);
    var after := MovedAway(db, source);
    var n := db.locations[other].message;
    assert other in after.locations && after.locations[other].message == n;
    OrphanBreaksSummary(after, snapshot.account, source.message, n, snapshot);
  }

  lemma MoveThenReconcile(steps: seq<Step>, db: Db, source: Source, snapshot: Snapshot) returns (more: seq<Step>)
    requires IsRun(EMPTY, steps, db) && AreSources(db, source.place.account, [source])
    requires WellFormed(MovedAway(db, source)) && AreRowsOf(MovedAway(db, source), snapshot.account, snapshot.folder, [])
    ensures IsRun(EMPTY, more, Reconcile(MovedAway(db, source), snapshot, []))
  {
    var move := MoveStep(source.place.account, [source], false, {source.message});
    RunThen(EMPTY, steps, db, move);
    RunThen(EMPTY, steps + [move], MovedAway(db, source), ReconcileStep(snapshot, []));
    more := steps + [move] + [ReconcileStep(snapshot, [])];
  }

  lemma SecondLetterIsFragile() returns (steps: seq<Step>, db: Db, source: Source, other: Place)
    ensures IsRun(EMPTY, steps, db) && Good(db) && IsFragile(db, source, other, 2)
  {
    steps, db := TwoLettersAreStored();
    source, other := Source(MOVED, 2, READ, 7, None), KEPT;
    TwoLettersAreFragile(db);
  }

  lemma TwoLettersAreFragile(db: Db)
    requires db.messages == map[1 := Letter(10), 2 := Letter(20)]
    requires db.locations == map[KEPT := Location(1, READ), MOVED := Location(2, READ)]
    ensures IsFragile(db, Source(MOVED, 2, READ, 7, None), KEPT, 2)
  {
  }

  lemma FragileIsSource(db: Db, source: Source, other: Place, folder: Id)
    requires WellFormed(db) && IsFragile(db, source, other, folder)
    ensures AreSources(db, source.place.account, [source])
  {
  }

  lemma FragileRunBreaks(steps: seq<Step>, db: Db, source: Source, other: Place, folder: Id)
    returns (more: seq<Step>, broken: Db)
    requires IsRun(EMPTY, steps, db) && Good(db) && IsFragile(db, source, other, folder)
    ensures IsRun(EMPTY, more, broken) && !Consistent(broken)
  {
    var snapshot := Snapshot(source.place.account, folder, 1, 1, map[]);
    UnreportedMoveBreaks(db, source, other, snapshot);
    FragileIsSource(db, source, other, folder);
    more := MoveThenReconcile(steps, db, source, snapshot);
    broken := Reconcile(MovedAway(db, source), snapshot, []);
  }

  /** So summaries do not agree over all runs: two stored messages, one move, one reconcile. */
  lemma UnreportedMoveBreaksSummaries() returns (steps: seq<Step>, db: Db)
    ensures IsRun(EMPTY, steps, db) && !Consistent(db)
  {
    var before, stored, source, other := SecondLetterIsFragile();
    steps, db := FragileRunBreaks(before, stored, source, other, 2);
  }

  // ---- a move whose message is fetched again ----

  lemma FetchedAgainPlacesAll(db: Db, source: Source, a: Arrival)
    requires Good(db) && source.destination == None && IsOnlyPlace(db, source.place)
    requires db.locations[source.place].message == source.message
    requires a.Stored? && a.id == source.message && Fits(MovedAway(db, source), source.place.account, a)
    ensures AllFit(MovedAway(db, source), source.place.account, [a])
    ensures NoOrphans(StoreBatch(MovedAway(db, source), source.place.account, [a]))
  {
    var away := MovedAway(db, source);
    UnreportedMoveLeavesOrphan(db, source);
    OneArrival(away, source.place.account, a);
    AllPlacedAgain(db, source, a, StoreBatch(away, source.place.account, [a]));
  }

  /** Every other message kept its places, and the one that was moved has a new one. */
  lemma AllPlacedAgain(db: Db, source: Source, a: Arrival, back: Db)
    requires NoOrphans(db) && a.Stored? && a.id == source.message
    requires source.place in db.locations && db.locations[source.place].message == source.message
    requires back.messages.Keys <= db.messages.Keys + {a.id}
    requires back.locations == Without(db, {source.place}).locations[a.place := Location(a.id, a.flags)]
    requires a.place !in Without(db, {source.place}).locations
    ensures NoOrphans(back)
  {
    forall m | m in back.messages ensures HasPlace(back, m) {
      if m == a.id {
        assert a.place in back.locations && back.locations[a.place].message == m;
      } else {
        assert HasPlace(db, m);
        var p :| p in db.locations && db.locations[p].message == m;
        assert p in back.locations && back.locations[p].message == m;
      }
    }
  }

  /** Two transactions that need nothing make a covered run. */
  lemma TwoSteps(db: Db, first: Step, second: Step)
    requires Enabled(db, first) && Covers(db, first) && Enabled(Next(db, first), second) && Covers(Next(db, first), second)
    ensures CoveredRun(db, [first, second], Next(Next(db, first), second))
  {
    var end := Next(Next(db, first), second);
    assert CoveredRun(end, [], end);
    assert [second][1..] == [] && [first, second][1..] == [second];
    assert CoveredRun(Next(db, first), [second], end);
  }

  /**
   The ordinary case: the message that was moved without a reported place is fetched again before the next
   cleanup. The run is covered, though the message was nowhere in between, and all is in order again.
   */
  lemma FetchedAgainIsCovered(db: Db, source: Source, a: Arrival)
    requires Good(db) && source.destination == None && IsOnlyPlace(db, source.place)
    requires db.locations[source.place].message == source.message && AreSources(db, source.place.account, [source])
    requires a.Stored? && a.id == source.message && Fits(MovedAway(db, source), source.place.account, a)
    ensures var account := source.place.account;
      var move, store := MoveStep(account, [source], false, {source.message}), StoreStep(account, [a]);
      && Enabled(db, move) && Enabled(Next(db, move), store) && !NoOrphans(Next(db, move))
      && CoveredRun(db, [move, store], Next(Next(db, move), store)) && Good(Next(Next(db, move), store))
  {
    var account := source.place.account;
    var move, store := MoveStep(account, [source], false, {source.message}), StoreStep(account, [a]);
    UnreportedMoveLeavesOrphan(db, source);
    FetchedAgainPlacesAll(db, source, a);
    NextKeepsReferences(Next(db, move), store);
    NextIsRightExactly(Next(db, move), store);
    TwoSteps(db, move, store);
  }
}

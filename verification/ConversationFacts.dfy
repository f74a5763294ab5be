/**
 What the transactions do to messages, places and summaries, told by the columns of the tables: a star
 stars and changes nothing else, reading one message takes one from the unread count, a reconcile leaves
 the rows and flags that the server has.
 */
module ConversationFacts {
  import opened Conversations
  import opened ConversationRuns
  import opened Options

  // ---- what a summary says ----

  /** The message comes last by its time of receipt and then its id. */
  ghost predicate IsNewest(messages: map<Id, Message>, c: Id, m: Id) {
    && m in messages && messages[m].conversation == c
    && forall q :: q in messages && messages[q].conversation == c && q != m ==>
         messages[q].receivedAt < messages[m].receivedAt || (messages[q].receivedAt == messages[m].receivedAt && q < m)
  }

  ghost function InConversation(messages: map<Id, Message>, c: Id): set<Id> {
    set m | m in messages && messages[m].conversation == c
  }

  ghost function Unseen(messages: map<Id, Message>, c: Id): set<Id> {
    set m | m in messages && messages[m].conversation == c && messages[m].seen == false
  }

  /** The columns of the summary `s` are right for the messages of `c`. */
  ghost predicate Tells(messages: map<Id, Message>, c: Id, s: Summary) {
    && s.messageCount == |InConversation(messages, c)|
    && s.unreadCount == |Unseen(messages, c)|
    && (s.starred <==> exists m :: m in messages && messages[m].conversation == c && messages[m].flagged)
    && (forall m :: IsNewest(messages, c, m) ==>
          s.subject == messages[m].subject && s.preview == messages[m].preview && s.latestAt == messages[m].receivedAt)
    && (InConversation(messages, c) == {} ==> s.subject == "" && s.preview == "")
  }

  lemma NewestIsLatest(messages: map<Id, Message>, c: Id, m: Id)
    ensures IsNewest(messages, c, m) <==> IsLatest(messages, c, m)
  {
    if IsNewest(messages, c, m) {
      assert forall q :: q in Members(messages, c) && q != m ==> Later(messages, m, q);
    }
    if IsLatest(messages, c, m) {
      forall q | q in messages && messages[q].conversation == c && q != m
        ensures messages[q].receivedAt < messages[m].receivedAt || (messages[q].receivedAt == messages[m].receivedAt && q < m)
      {
        assert q in Members(messages, c);
      }
    }
  }

  /** A summary agrees with its recomputation exactly when its columns are right. */
  lemma AgreementTells(db: Db, c: Id)
    requires c in db.conversations
    ensures Agrees(db, c) <==> Tells(db.messages, c, db.conversations[c])
    ensures InConversation(db.messages, c) != {} ==> exists m :: IsNewest(db.messages, c, m)
  {
    assert Members(db.messages, c) == InConversation(db.messages, c);
    assert Unread(db.messages, c) == Unseen(db.messages, c);
    forall m: Id
      ensures IsNewest(db.messages, c, m) <==> IsLatest(db.messages, c, m)
    {
      NewestIsLatest(db.messages, c, m);
    }
    if Members(db.messages, c) != {} {
      LatestIsUnique(db.messages, c);
    }
  }

  /** Over all covered runs the columns of every summary are right. */
  lemma SummariesTell(steps: seq<Step>, db: Db, c: Id)
    requires CoveredRun(EMPTY, steps, db) && c in db.conversations
    ensures Tells(db.messages, c, db.conversations[c])
  {
    SummariesAlwaysAgree(steps, db);
    AgreementTells(db, c);
  }

  // ---- flag operations ----

  /** The message is a target of the operation and of its account. */
  predicate IsTarget(db: Db, account: Id, targets: set<Id>, m: Id) {
    m in targets && m in db.messages && db.messages[m].account == account
  }

  /** In `messages` every target has the named column set to the value, and nothing else has changed. */
  ghost predicate ColumnIsSet(db: Db, messages: map<Id, Message>, account: Id, targets: set<Id>, column: Column, value: bool) {
    && messages.Keys == db.messages.Keys
    && forall m :: m in db.messages ==>
         messages[m] == if !IsTarget(db, account, targets, m) then db.messages[m]
                        else if column == Seen then db.messages[m].(seen := value)
                        else db.messages[m].(flagged := value)
  }

  /** A flag operation sets the named column of its targets; other columns, messages and all places stay. */
  lemma FlaggingSetsColumn(db: Db, account: Id, targets: set<Id>, column: Column, value: bool, affected: set<Id>)
    ensures var db' := CompleteFlags(db, account, targets, column, value, affected);
      ColumnIsSet(db, db'.messages, account, targets, column, value) && db'.locations == db.locations
  {
  }

  /** Right summaries before, and right ones afterwards for the conversations that have a message. */
  lemma FlaggedSummaries(db: Db, account: Id, targets: set<Id>, column: Column, value: bool, affected: set<Id>, c: Id)
    requires WellFormed(db) && Consistent(db) && CoversTargets(db, account, targets, affected)
    requires InConversation(db.messages, c) != {}
    ensures var db' := CompleteFlags(db, account, targets, column, value, affected);
      && c in db.conversations && Tells(db.messages, c, db.conversations[c])
      && c in db'.conversations && Tells(db'.messages, c, db'.conversations[c])
  {
    var m :| m in InConversation(db.messages, c);
    var set' := SetColumn(db, account, targets, column, value);
    assert m in Members(set'.messages, c);
    FlaggingKeepsSummaries(db, account, targets, column, value, affected);
    AgreementTells(db, c);
    AgreementTells(CompleteFlags(db, account, targets, column, value, affected), c);
  }

  /** Conversations are as before, and so is the column that is not named. */
  lemma ColumnMembers(db: Db, messages: map<Id, Message>, account: Id, targets: set<Id>, column: Column, value: bool, c: Id)
    requires ColumnIsSet(db, messages, account, targets, column, value)
    ensures InConversation(messages, c) == InConversation(db.messages, c)
    ensures column == Flagged ==> Unseen(messages, c) == Unseen(db.messages, c)
    ensures column == Seen && value ==> Unseen(messages, c) == Unseen(db.messages, c) - UnseenTargets(db, account, targets, c)
  {
    forall m | m in messages
      ensures messages[m].conversation == db.messages[m].conversation
      ensures column == Flagged ==> messages[m].seen == db.messages[m].seen
      ensures column == Seen && value ==> (!messages[m].seen <==> !db.messages[m].seen && !IsTarget(db, account, targets, m))
    {
    }
  }

  /** The targets of an operation among the messages of a conversation that are not seen. */
  ghost function UnseenTargets(db: Db, account: Id, targets: set<Id>, c: Id): set<Id> {
    set m | m in Unseen(db.messages, c) && IsTarget(db, account, targets, m)
  }

  lemma StarEffect(db: Db, messages: map<Id, Message>, account: Id, targets: set<Id>, m: Id, s: Summary, s': Summary)
    requires ColumnIsSet(db, messages, account, targets, Flagged, true) && IsTarget(db, account, targets, m)
    requires Tells(db.messages, db.messages[m].conversation, s) && Tells(messages, db.messages[m].conversation, s')
    ensures s'.starred && s'.unreadCount == s.unreadCount && s'.messageCount == s.messageCount
  {
    ColumnMembers(db, messages, account, targets, Flagged, true, db.messages[m].conversation);
    assert messages[m].flagged && messages[m].conversation == db.messages[m].conversation;
  }

  /** Starring a message stars its conversation and leaves both counts alone. */
  lemma StarringShows(db: Db, account: Id, targets: set<Id>, affected: set<Id>, m: Id)
    requires WellFormed(db) && Consistent(db) && CoversTargets(db, account, targets, affected)
    requires IsTarget(db, account, targets, m)
    ensures var c, db' := db.messages[m].conversation, CompleteFlags(db, account, targets, Flagged, true, affected);
      && c in db.conversations && c in db'.conversations && db'.conversations[c].starred
      && db'.conversations[c].unreadCount == db.conversations[c].unreadCount
      && db'.conversations[c].messageCount == db.conversations[c].messageCount
  {
    var c, db' := db.messages[m].conversation, CompleteFlags(db, account, targets, Flagged, true, affected);
    assert m in InConversation(db.messages, c);
    FlaggedSummaries(db, account, targets, Flagged, true, affected, c);
    FlaggingSetsColumn(db, account, targets, Flagged, true, affected);
    StarEffect(db, db'.messages, account, targets, m, db.conversations[c], db'.conversations[c]);
  }

  /** Some message outside the targets of the operation has a star. */
  ghost predicate StarredElsewhere(db: Db, account: Id, targets: set<Id>, c: Id) {
    exists m :: m in db.messages && db.messages[m].conversation == c && db.messages[m].flagged
                && !IsTarget(db, account, targets, m)
  }

  lemma UnstarEffect(db: Db, messages: map<Id, Message>, account: Id, targets: set<Id>, c: Id, s': Summary)
    requires ColumnIsSet(db, messages, account, targets, Flagged, false) && Tells(messages, c, s')
    ensures s'.starred <==> StarredElsewhere(db, account, targets, c)
  {
    if s'.starred {
      var m :| m in messages && messages[m].conversation == c && messages[m].flagged;
      assert m in db.messages && !IsTarget(db, account, targets, m);
    }
    if StarredElsewhere(db, account, targets, c) {
      var m :| m in db.messages && db.messages[m].conversation == c && db.messages[m].flagged
               && !IsTarget(db, account, targets, m);
      assert messages[m] == db.messages[m];
    }
  }

  /** Unstarring leaves a conversation starred exactly when a message outside the targets has a star. */
  lemma UnstarringShows(db: Db, account: Id, targets: set<Id>, affected: set<Id>, c: Id)
    requires WellFormed(db) && Consistent(db) && CoversTargets(db, account, targets, affected)
    requires InConversation(db.messages, c) != {}
    ensures var db' := CompleteFlags(db, account, targets, Flagged, false, affected);
      c in db'.conversations && (db'.conversations[c].starred <==> StarredElsewhere(db, account, targets, c))
  {
    FlaggedSummaries(db, account, targets, Flagged, false, affected, c);
    FlaggingSetsColumn(db, account, targets, Flagged, false, affected);
    var db' := CompleteFlags(db, account, targets, Flagged, false, affected);
    UnstarEffect(db, db'.messages, account, targets, c, db'.conversations[c]);
  }

  lemma ReadKeepsStars(db: Db, messages: map<Id, Message>, account: Id, targets: set<Id>, c: Id)
    requires ColumnIsSet(db, messages, account, targets, Seen, true)
    ensures (exists m :: m in messages && messages[m].conversation == c && messages[m].flagged)
            <==> exists m :: m in db.messages && db.messages[m].conversation == c && db.messages[m].flagged
  {
    forall m | m in db.messages
      ensures messages[m].conversation == db.messages[m].conversation && messages[m].flagged == db.messages[m].flagged
    {
    }
  }

  lemma ReadEffect(db: Db, messages: map<Id, Message>, account: Id, targets: set<Id>, c: Id, s: Summary, s': Summary)
    requires ColumnIsSet(db, messages, account, targets, Seen, true)
    requires Tells(db.messages, c, s) && Tells(messages, c, s')
    ensures s'.unreadCount == s.unreadCount - |UnseenTargets(db, account, targets, c)|
    ensures s'.messageCount == s.messageCount && s'.starred == s.starred
  {
    ColumnMembers(db, messages, account, targets, Seen, true, c);
    ReadKeepsStars(db, messages, account, targets, c);
    var unseen, read := Unseen(db.messages, c), UnseenTargets(db, account, targets, c);
    assert unseen == read + (unseen - read);
    assert |unseen| == |read| + |unseen - read|;
  }

  /** Reading takes exactly the unseen targets off the unread count. */
  lemma ReadingCounts(db: Db, account: Id, targets: set<Id>, affected: set<Id>, c: Id)
    requires WellFormed(db) && Consistent(db) && CoversTargets(db, account, targets, affected)
    requires InConversation(db.messages, c) != {}
    ensures var db' := CompleteFlags(db, account, targets, Seen, true, affected);
      && c in db.conversations && c in db'.conversations
      && db'.conversations[c].unreadCount == db.conversations[c].unreadCount - |UnseenTargets(db, account, targets, c)|
      && db'.conversations[c].messageCount == db.conversations[c].messageCount
      && db'.conversations[c].starred == db.conversations[c].starred
  {
    FlaggedSummaries(db, account, targets, Seen, true, affected, c);
    FlaggingSetsColumn(db, account, targets, Seen, true, affected);
    var db' := CompleteFlags(db, account, targets, Seen, true, affected);
    ReadEffect(db, db'.messages, account, targets, c, db.conversations[c], db'.conversations[c]);
  }

  /** Reading one unseen message lowers the unread count of its conversation by one. */
  lemma ReadingOneCountsOne(db: Db, account: Id, affected: set<Id>, m: Id)
    requires WellFormed(db) && Consistent(db) && CoversTargets(db, account, {m}, affected)
    requires m in db.messages && db.messages[m].account == account && !db.messages[m].seen
    ensures var c, db' := db.messages[m].conversation, CompleteFlags(db, account, {m}, Seen, true, affected);
      && c in db.conversations && c in db'.conversations
      && db'.conversations[c].unreadCount == db.conversations[c].unreadCount - 1
  {
    var c := db.messages[m].conversation;
    assert m in InConversation(db.messages, c);
    ReadingCounts(db, account, {m}, affected, c);
    assert UnseenTargets(db, account, {m}, c) == {m};
  }

  /** Reading all messages of a conversation leaves nothing unread. */
  lemma ReadingAllLeavesNone(db: Db, account: Id, targets: set<Id>, affected: set<Id>, c: Id)
    requires WellFormed(db) && Consistent(db) && CoversTargets(db, account, targets, affected)
    requires InConversation(db.messages, c) != {}
    requires forall m :: m in InConversation(db.messages, c) ==> IsTarget(db, account, targets, m)
    ensures var db' := CompleteFlags(db, account, targets, Seen, true, affected);
      c in db'.conversations && db'.conversations[c].unreadCount == 0
  {
    ReadingCounts(db, account, targets, affected, c);
    FlaggedSummaries(db, account, targets, Seen, true, affected, c);
    assert forall m :: m in Unseen(db.messages, c) ==> m in InConversation(db.messages, c);
    assert UnseenTargets(db, account, targets, c) == Unseen(db.messages, c);
  }

  // ---- storing ----

  /** After an arrival its place is stored with a message that has its flags, and nothing else has changed. */
  lemma ArrivalIsStored(db: Db, account: Id, a: Arrival)
    requires Fits(db, account, a)
    ensures var db' := StoreOne(db, a);
      && a.place in db'.locations
      && db'.locations.Keys == db.locations.Keys + {a.place}
      && (forall p :: p in db.locations ==> db'.locations[p] == db.locations[p])
      && var m := db'.locations[a.place].message;
      && m in db'.messages && db'.messages.Keys == db.messages.Keys + {m}
      && (forall n :: n in db.messages && n != m ==> db'.messages[n] == db.messages[n])
      && (!a.Known? ==> db'.locations[a.place].flags == a.flags)
      && (!a.Linked? ==> db'.messages[m].seen == a.flags.seen && db'.messages[m].flagged == a.flags.flagged)
      && (a.Linked? ==> m == a.message && db'.messages[m] == db.messages[m])
      && (a.Known? ==> db'.messages[m].conversation == db.messages[m].conversation
                       && db'.messages[m].receivedAt == db.messages[m].receivedAt
                       && db'.messages[m].subject == (if a.healed then a.subject else db.messages[m].subject)
                       && db'.messages[m].preview == (if a.healed then a.preview else db.messages[m].preview))
      && (a.Stored? ==> m == a.id && db'.messages[m] == a.content && a.content.conversation in db'.conversations)
  {
  }

  // ---- reconciling ----

  /** A row of the folder that the snapshot lists under its own UIDVALIDITY. */
  predicate Shown(snapshot: Snapshot, p: Place) {
    p.account == snapshot.account && p.folder == snapshot.folder
    && p.uidValidity == snapshot.uidValidity && p.uid in snapshot.states
  }

  /** A row of the folder that the snapshot proves gone. */
  predicate Vanished(snapshot: Snapshot, p: Place) {
    p.account == snapshot.account && p.folder == snapshot.folder
    && (p.uidValidity != snapshot.uidValidity || (p.uid < snapshot.uidNext && p.uid !in snapshot.states))
  }

  lemma {:induction false} ComparedFlags(before: Db, db: Db, snapshot: Snapshot, rows: seq<Place>, p: Place)
    requires WellFormed(before) && SameRows(before, db) && forall q :: q in rows ==> q in before.locations
    requires p in before.locations
    requires db.locations[p].flags == before.locations[p].flags
          || (IsListed(p, snapshot) && db.locations[p].flags == snapshot.states[p.uid])
    ensures var after := CompareRows(before, db, snapshot, rows).0;
      after.locations[p].flags == if p in rows && IsListed(p, snapshot) then snapshot.states[p.uid] else db.locations[p].flags
    decreases |rows|
  {
    if rows != [] {
      var next := CompareOne(before, db, snapshot, rows[0]).0;
      ComparedFlags(before, next, snapshot, rows[1..], p);
      assert p in rows <==> p == rows[0] || p in rows[1..];
    }
  }

  /** The message with the flags that the server has for it. */
  function Flagging(m: Message, flags: Flags): Message {
    m.(seen := flags.seen, flagged := flags.flagged)
  }

  /** All rows of the list that show message `m` show it with `flags`. */
  ghost predicate ShownAs(before: Db, snapshot: Snapshot, rows: seq<Place>, m: Id, flags: Flags) {
    forall q :: q in rows && q in before.locations && IsListed(q, snapshot) && before.locations[q].message == m ==>
      snapshot.states[q.uid] == flags
  }

  ghost predicate IsShown(before: Db, snapshot: Snapshot, rows: seq<Place>, m: Id) {
    exists q :: q in rows && q in before.locations && IsListed(q, snapshot) && before.locations[q].message == m
  }

  lemma {:induction false} ComparedMessage(before: Db, db: Db, snapshot: Snapshot, rows: seq<Place>, m: Id, flags: Flags)
    requires WellFormed(before) && SameRows(before, db) && forall q :: q in rows ==> q in before.locations
    requires m in before.messages && ShownAs(before, snapshot, rows, m, flags)
    requires db.messages[m] == before.messages[m] || db.messages[m] == Flagging(before.messages[m], flags)
    ensures var after := CompareRows(before, db, snapshot, rows).0;
      after.messages[m] == if IsShown(before, snapshot, rows, m) then Flagging(before.messages[m], flags) else db.messages[m]
    decreases |rows|
  {
    if rows != [] {
      var p := rows[0];
      var next := CompareOne(before, db, snapshot, p).0;
      forall q | q in rows[1..] && q in before.locations && IsListed(q, snapshot) && before.locations[q].message == m
        ensures snapshot.states[q.uid] == flags
      {
        assert q in rows;
      }
      if IsListed(p, snapshot) && before.locations[p].message == m {
        assert p in rows && snapshot.states[p.uid] == flags;
      }
      ComparedMessage(before, next, snapshot, rows[1..], m, flags);
      ShownLater(before, snapshot, rows, m);
    }
  }

  lemma ShownLater(before: Db, snapshot: Snapshot, rows: seq<Place>, m: Id)
    requires rows != []
    ensures IsShown(before, snapshot, rows, m) <==>
            (rows[0] in before.locations && IsListed(rows[0], snapshot) && before.locations[rows[0]].message == m)
            || IsShown(before, snapshot, rows[1..], m)
  {
    assert forall q :: q in rows <==> q == rows[0] || q in rows[1..];
  }

  /** After a reconcile the folder's rows are those the snapshot does not prove gone, with the flags it shows. */
  lemma ReconciledRows(db: Db, snapshot: Snapshot, rows: seq<Place>, p: Place)
    requires WellFormed(db) && AreRowsOf(db, snapshot.account, snapshot.folder, rows)
    ensures var db' := Reconcile(db, snapshot, rows);
      && (p in db'.locations <==> p in db.locations && !Vanished(snapshot, p))
      && (p in db'.locations ==>
            && db'.locations[p].message == db.locations[p].message
            && db'.locations[p].flags == if Shown(snapshot, p) then snapshot.states[p.uid] else db.locations[p].flags)
  {
    if p in db.locations {
      ComparedFlags(db, db, snapshot, rows, p);
    }
  }

  /**
   After a reconcile a message of the account is there exactly when it has a place left. One whose rows the
   snapshot shows with the same flags has these flags, one it does not show has its own; the rest of it is as before.
   */
  lemma ReconciledMessages(db: Db, snapshot: Snapshot, rows: seq<Place>, m: Id, flags: Flags)
    requires WellFormed(db) && AreRowsOf(db, snapshot.account, snapshot.folder, rows)
    requires m in db.messages
    requires forall p :: p in db.locations && Shown(snapshot, p) && db.locations[p].message == m ==>
                           snapshot.states[p.uid] == flags
    ensures var db' := Reconcile(db, snapshot, rows);
      && (m in db'.messages <==>
            db.messages[m].account != snapshot.account || exists p :: p in db'.locations && db'.locations[p].message == m)
      && (m in db'.messages ==>
            db'.messages[m] == if exists p :: p in db.locations && Shown(snapshot, p) && db.locations[p].message == m
                               then Flagging(db.messages[m], flags) else db.messages[m])
  {
    ComparedMessage(db, db, snapshot, rows, m, flags);
    var compared := CompareRows(db, db, snapshot, rows).0;
    var left := Without(compared, GoneRows(db, snapshot));
    var db' := Reconcile(db, snapshot, rows);
    assert db'.locations == left.locations;
    assert HasPlace(left, m) <==> exists p :: p in db'.locations && db'.locations[p].message == m;
    ShownInFolder(db, snapshot, rows, m);
  }

  lemma ShownInFolder(db: Db, snapshot: Snapshot, rows: seq<Place>, m: Id)
    requires AreRowsOf(db, snapshot.account, snapshot.folder, rows)
    ensures IsShown(db, snapshot, rows, m) <==>
            exists p :: p in db.locations && Shown(snapshot, p) && db.locations[p].message == m
  {
    if IsShown(db, snapshot, rows, m) {
      var q :| q in rows && q in db.locations && IsListed(q, snapshot) && db.locations[q].message == m;
      assert InFolder(q, snapshot.account, snapshot.folder);
      assert Shown(snapshot, q);
    }
    if p :| p in db.locations && Shown(snapshot, p) && db.locations[p].message == m {
      assert InFolder(p, snapshot.account, snapshot.folder);
      assert p in rows && IsListed(p, snapshot);
    }
  }

  /** A rebuild forgets the rows of the folder and no other, and keeps the messages that still have a place. */
  lemma RebuiltTables(db: Db, account: Id, folder: Id)
    requires WellFormed(db)
    ensures var db' := Rebuild(db, account, folder);
      && (forall p :: p in db'.locations <==> p in db.locations && !(p.account == account && p.folder == folder))
      && (forall p :: p in db'.locations ==> db'.locations[p] == db.locations[p])
      && (forall m :: m in db'.messages <==>
            m in db.messages && (db.messages[m].account != account || exists p :: p in db'.locations && db'.locations[p].message == m))
      && (forall m :: m in db'.messages ==> db'.messages[m] == db.messages[m])
  {
    var left := Without(db, InFolderRows(db, account, folder));
    var db' := Rebuild(db, account, folder);
    assert db'.locations == left.locations;
    forall m
      ensures HasPlace(left, m) <==> exists p :: p in db'.locations && db'.locations[p].message == m
    {
    }
  }

  /** A conversation is dropped by a cleanup exactly when it is of the account and has no message left. */
  lemma CleanedConversations(db: Db, account: Id, c: Id)
    ensures var db' := Cleanup(db, account);
      && (c in db'.conversations <==>
            c in db.conversations && (db.conversations[c].account != account || exists m :: m in db'.messages && db'.messages[m].conversation == c))
      && (c in db'.conversations ==> db'.conversations[c] == db.conversations[c])
  {
    var db' := Cleanup(db, account);
    if Members(db'.messages, c) != {} {
      var m :| m in Members(db'.messages, c);
      assert m in db'.messages && db'.messages[m].conversation == c;
    }
    if m :| m in db'.messages && db'.messages[m].conversation == c {
      assert m in Members(db'.messages, c);
    }
  }

  // ---- moving ----

  predicate Touches(s: Source, p: Place) {
    s.place == p || s.destination == Some(p)
  }

  lemma {:induction false} UntouchedStays(db: Db, sources: seq<Source>, p: Place)
    requires forall i :: 0 <= i < |sources| ==> !Touches(sources[i], p)
    ensures p in MoveAll(db, sources).locations <==> p in db.locations
    ensures p in db.locations ==> MoveAll(db, sources).locations[p] == db.locations[p]
    decreases |sources|
  {
    if sources != [] {
      assert !Touches(sources[0], p);
      assert forall i :: 0 <= i < |sources[1..]| ==> sources[1..][i] == sources[i + 1];
      UntouchedStays(MoveOne(db, sources[0]), sources[1..], p);
    }
  }

  /**
   A place that no row leaves or reaches is as before. The last move that concerns a place decides it: the
   row is there with its message and flags when that is where it went, and nothing is when it left.
   */
  lemma {:induction false} LastMoveDecides(db: Db, sources: seq<Source>, i: nat, p: Place)
    requires i < |sources| && Touches(sources[i], p)
    requires forall j :: i < j < |sources| ==> !Touches(sources[j], p)
    ensures var db' := MoveAll(db, sources);
      if sources[i].destination == Some(p) then
        p in db'.locations && db'.locations[p] == Location(sources[i].message, sources[i].flags)
      else p !in db'.locations
    decreases |sources|
  {
    var next := MoveOne(db, sources[0]);
    assert forall j :: 0 <= j < |sources[1..]| ==> sources[1..][j] == sources[j + 1];
    if i == 0 {
      UntouchedStays(next, sources[1..], p);
    } else {
      LastMoveDecides(next, sources[1..], i - 1, p);
    }
  }

  /** A move leaves every message; a permanent delete takes exactly the targets of the account that are nowhere. */
  lemma MovedTables(db: Db, account: Id, sources: seq<Source>, permanent: bool, targets: set<Id>)
    ensures var db' := CommitMove(db, account, sources, permanent, targets);
      && db'.locations == MoveAll(db, sources).locations
      && (forall m :: m in db'.messages <==>
            m in db.messages && !(permanent && m in targets && db.messages[m].account == account
                                  && !exists p :: p in db'.locations && db'.locations[p].message == m))
      && (forall m :: m in db'.messages ==> db'.messages[m] == db.messages[m])
  {
    var moved := MoveAll(db, sources);
    forall m
      ensures HasPlace(moved, m) <==> exists p :: p in moved.locations && moved.locations[p].message == m
    {
    }
  }
}

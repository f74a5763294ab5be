/**
 Conversation summaries: what they must say, how they are refreshed, and the transactions that change
 messages and their locations. A transaction is a function on a snapshot of the tables.
 */
module Conversations {
  import FolderStore
  import opened Ordering

  type Id = nat

  datatype Flags = Flags(seen: bool, flagged: bool, others: nat)

  datatype Message = Message(account: Id, conversation: Id, receivedAt: int, subject: string, preview: string, seen: bool, flagged: bool)

  datatype Place = Place(account: Id, folder: Id, uidValidity: nat, uid: nat)

  datatype Location = Location(message: Id, flags: Flags)

  datatype Summary = Summary(account: Id, subject: string, preview: string, latestAt: int, messageCount: nat,
                             unreadCount: nat, starred: bool)

  datatype Db = Db(messages: map<Id, Message>, locations: map<Place, Location>, conversations: map<Id, Summary>)

  // ---- what a summary must say ----

  ghost function Members(messages: map<Id, Message>, c: Id): set<Id> {
    set m | m in messages && messages[m].conversation == c
  }

  ghost function Unread(messages: map<Id, Message>, c: Id): set<Id> {
    set m | m in messages && messages[m].conversation == c && !messages[m].seen
  }

  /** `a` comes after `b` in ORDER BY received_at, id. */
  predicate Later(messages: map<Id, Message>, a: Id, b: Id)
    requires a in messages && b in messages
  {
    Earlier(messages[b].receivedAt, b, messages[a].receivedAt, a)
  }

  ghost predicate IsLatest(messages: map<Id, Message>, c: Id, m: Id) {
    m in Members(messages, c) && forall q :: q in Members(messages, c) && q != m ==> Later(messages, m, q)
  }

  /** The summary recomputed from the messages; without any, the old time of the latest one stays. */
  ghost function Recomputed(messages: map<Id, Message>, c: Id, old': Summary): Summary {
    var counted := old'.(messageCount := |Members(messages, c)|, unreadCount := |Unread(messages, c)|,
                         starred := exists m :: m in Members(messages, c) && messages[m].flagged);
    if m :| IsLatest(messages, c, m) then
      counted.(subject := messages[m].subject, preview := messages[m].preview, latestAt := messages[m].receivedAt)
    else counted.(subject := "", preview := "")
  }

  lemma {:induction false} SomeoneIsLatest(messages: map<Id, Message>, rest: set<Id>) returns (m: Id)
    requires rest != {} && rest <= messages.Keys
    ensures m in rest && forall q :: q in rest && q != m ==> Later(messages, m, q)
    decreases rest
  {
    var one :| one in rest;
    m := one;
    if rest != {one} {
      var best := SomeoneIsLatest(messages, rest - {one});
      m := if Later(messages, best, one) then best else one;
      forall q | q in rest && q != m ensures Later(messages, m, q) {
        assert q != one && q != best ==> Later(messages, best, q);
      }
    }
  }

  /** A conversation with messages has exactly one latest message. */
  lemma LatestIsUnique(messages: map<Id, Message>, c: Id)
    requires Members(messages, c) != {}
    ensures exists m :: IsLatest(messages, c, m)
    ensures forall m, n :: IsLatest(messages, c, m) && IsLatest(messages, c, n) ==> m == n
  {
    var m := SomeoneIsLatest(messages, Members(messages, c));
    assert IsLatest(messages, c, m);
  }

  ghost predicate Agrees(db: Db, c: Id)
    requires c in db.conversations
  {
    db.conversations[c] == Recomputed(db.messages, c, db.conversations[c])
  }

  /** Every summary says what its recomputation from the messages would say. */
  ghost predicate Consistent(db: Db) {
    forall c :: c in db.conversations ==> Agrees(db, c)
  }

  /** The messages of `c` are the same in both. */
  ghost predicate SameMembers(a: map<Id, Message>, b: map<Id, Message>, c: Id) {
    && (forall m :: m in a && a[m].conversation == c ==> m in b && b[m] == a[m])
    && (forall m :: m in b && b[m].conversation == c ==> m in a && a[m] == b[m])
  }

  lemma SameMembersSameSummary(a: map<Id, Message>, b: map<Id, Message>, c: Id, s: Summary)
    requires SameMembers(a, b, c)
    ensures Members(a, c) == Members(b, c) && Recomputed(a, c, s) == Recomputed(b, c, s)
  {
    assert Members(a, c) == Members(b, c) && Unread(a, c) == Unread(b, c);
    forall m ensures IsLatest(a, c, m) <==> IsLatest(b, c, m) {
      forall q | q in Members(a, c) && m in Members(a, c) ensures Later(a, m, q) == Later(b, m, q) {
      }
    }
    if Members(a, c) != {} {
      LatestIsUnique(a, c);
      LatestIsUnique(b, c);
    }
  }

  lemma RecomputedTwice(messages: map<Id, Message>, c: Id, s: Summary)
    ensures Recomputed(messages, c, Recomputed(messages, c, s)) == Recomputed(messages, c, s)
  {
    if Members(messages, c) != {} {
      LatestIsUnique(messages, c);
    }
  }

  // ---- refreshing ----

  ghost function Refresh(db: Db, affected: set<Id>): Db {
    db.(conversations := map c | c in db.conversations ::
          if c in affected then Recomputed(db.messages, c, db.conversations[c]) else db.conversations[c])
  }

  /** Like `Refresh`, but a conversation that lost its last message is dropped. */
  ghost function RefreshOrDrop(db: Db, affected: set<Id>): Db {
    db.(conversations := map c | c in db.conversations && (c in affected ==> Members(db.messages, c) != {}) ::
          if c in affected then Recomputed(db.messages, c, db.conversations[c]) else db.conversations[c])
  }

  /** From `a` to `b`, nothing changed about conversations outside `affected` that are still there. */
  ghost predicate TouchesOnly(a: Db, b: Db, affected: set<Id>) {
    forall c :: c in b.conversations && c !in affected ==>
      c in a.conversations && b.conversations[c] == a.conversations[c] && SameMembers(a.messages, b.messages, c)
  }

  /** Refreshing what was touched makes every summary right again. */
  lemma RefreshRestores(a: Db, b: Db, affected: set<Id>)
    requires Consistent(a) && TouchesOnly(a, b, affected)
    ensures Consistent(Refresh(b, affected)) && Consistent(RefreshOrDrop(b, affected))
  {
    forall c | c in b.conversations
      ensures Agrees(Refresh(b, affected), c)
      ensures c in RefreshOrDrop(b, affected).conversations ==> Agrees(RefreshOrDrop(b, affected), c)
    {
      if c in affected {
        RecomputedTwice(b.messages, c, b.conversations[c]);
      } else {
        assert Agrees(a, c);
        SameMembersSameSummary(a.messages, b.messages, c, a.conversations[c]);
      }
    }
  }

  lemma TouchesCompose(a: Db, b: Db, d: Db, x: set<Id>, y: set<Id>)
    requires TouchesOnly(a, b, x) && TouchesOnly(b, d, y)
    ensures TouchesOnly(a, d, x + y)
  {
  }

  // ---- orphans ----

  ghost predicate HasPlace(db: Db, m: Id) {
    exists p :: p in db.locations && db.locations[p].message == m
  }

  ghost predicate IsOrphan(db: Db, account: Id, m: Id) {
    m in db.messages && db.messages[m].account == account && !HasPlace(db, m)
  }

  ghost predicate NoOrphans(db: Db) {
    forall m :: m in db.messages ==> HasPlace(db, m)
  }

  /** Deletes the messages of the account that are nowhere, and its conversations without a message. */
  ghost function Cleanup(db: Db, account: Id): Db {
    var messages := map m | m in db.messages && !IsOrphan(db, account, m) :: db.messages[m];
    Db(messages, db.locations,
       map c | c in db.conversations && (db.conversations[c].account != account || Members(messages, c) != {}) :: db.conversations[c])
  }

  /** The conversations with a message that is nowhere. */
  ghost predicate HasOrphan(db: Db, account: Id, c: Id) {
    exists m :: m in Members(db.messages, c) && IsOrphan(db, account, m)
  }

  ghost predicate Strays(db: Db, account: Id, affected: set<Id>) {
    exists c :: c in Cleanup(db, account).conversations && c !in affected && HasOrphan(db, account, c)
  }

  /**
   Cleaning up and refreshing `affected` leaves every summary right exactly when no other conversation
   loses a message and survives. Before the cleanup, only affected conversations were touched.
   */
  lemma CleanupIsRightExactly(a: Db, b: Db, account: Id, affected: set<Id>)
    requires Consistent(a) && TouchesOnly(a, b, affected)
    ensures Consistent(Refresh(Cleanup(b, account), affected)) <==> !Strays(b, account, affected)
  {
    var cleaned := Cleanup(b, account);
    var after := Refresh(cleaned, affected);
    if !Strays(b, account, affected) {
      forall c | c in cleaned.conversations && c !in affected ensures SameMembers(b.messages, cleaned.messages, c) {
        assert !HasOrphan(b, account, c);
        assert forall m :: m in b.messages && b.messages[m].conversation == c ==> m in Members(b.messages, c);
      }
      assert TouchesOnly(b, cleaned, affected);
      TouchesCompose(a, b, cleaned, affected, affected);
      assert affected + affected == affected;
      RefreshRestores(a, cleaned, affected);
    } else {
      var c :| c in cleaned.conversations && c !in affected && HasOrphan(b, account, c);
      LostMemberShows(a, b, account, affected, c);
    }
  }

  /** A conversation that loses a message without being refreshed counts one too many. */
  lemma LostMemberShows(a: Db, b: Db, account: Id, affected: set<Id>, c: Id)
    requires Consistent(a) && TouchesOnly(a, b, affected)
    requires c in Cleanup(b, account).conversations && c !in affected && HasOrphan(b, account, c)
    ensures !Agrees(Refresh(Cleanup(b, account), affected), c)
  {
    var cleaned := Cleanup(b, account);
    var m :| m in Members(b.messages, c) && IsOrphan(b, account, m);
    assert Agrees(a, c);
    SameMembersSameSummary(a.messages, b.messages, c, a.conversations[c]);
    var had, has := Members(b.messages, c), Members(cleaned.messages, c);
    assert has <= had && m in had && m !in has;
    FewerMembers(has, had, m);
  }

  lemma FewerMembers<T>(s: set<T>, t: set<T>, x: T)
    requires s <= t && x in t && x !in s
    ensures |s| < |t|
  {
    var rest := t - {x};
    assert s <= rest;
    SubsetIsSmaller(s, rest);
  }

  lemma {:induction false} SubsetIsSmaller<T>(s: set<T>, t: set<T>)
    requires s <= t
    ensures |s| <= |t|
    decreases s
  {
    if x :| x in s {
      SubsetIsSmaller(s - {x}, t - {x});
    }
  }

  // ---- the transactions ----

  /**
   One fetched message. `Known`: its place is stored already, its flags and perhaps its subject and
   preview are taken over. `Linked`: a stored message appears in one more place. `Stored`: a new
   message, or one that was nowhere, with the conversation it belongs to, new or not.
   */
  datatype Arrival =
    | Known(place: Place, flags: Flags, healed: bool, subject: string, preview: string)
    | Linked(place: Place, flags: Flags, message: Id)
    | Stored(place: Place, flags: Flags, id: Id, content: Message)

  /** What the lookups establish about an arrival. */
  ghost predicate Fits(db: Db, account: Id, a: Arrival) {
    && a.place.account == account
    && match a
       case Known(place, _, _, _, _) => place in db.locations && db.locations[place].message in db.messages
       case Linked(place, _, m) => place !in db.locations && m in db.messages && db.messages[m].account == account
       case Stored(place, flags, id, content) =>
         && place !in db.locations && content.account == account
         && content.seen == flags.seen && content.flagged == flags.flagged
         && (content.conversation in db.conversations ==> db.conversations[content.conversation].account == account)
         && (id in db.messages ==>
               && IsOrphan(db, account, id) && db.messages[id].conversation == content.conversation
               && db.messages[id].receivedAt == content.receivedAt && db.messages[id].preview == content.preview)
  }

  predicate IsLookedUp(db: Db, a: Arrival) {
    match a
    case Known(place, _, _, _, _) => place in db.locations && db.locations[place].message in db.messages
    case Linked(_, _, m) => m in db.messages
    case Stored(_, _, _, _) => true
  }

  function ConversationOf(db: Db, a: Arrival): Id
    requires IsLookedUp(db, a)
  {
    match a
    case Known(place, _, _, _, _) => db.messages[db.locations[place].message].conversation
    case Linked(_, _, m) => db.messages[m].conversation
    case Stored(_, _, _, content) => content.conversation
  }

  function Renewed(m: Message, a: Arrival): Message
    requires a.Known?
  {
    var seen := m.(seen := a.flags.seen, flagged := a.flags.flagged);
    if a.healed then seen.(subject := a.subject, preview := a.preview) else seen
  }

  function FirstSummary(message: Message): Summary {
    Summary(message.account, message.subject, message.preview, message.receivedAt, 0, 0, false)
  }

  function StoreOne(db: Db, a: Arrival): Db
    requires IsLookedUp(db, a)
  {
    match a
    case Known(place, _, _, _, _) =>
      var m := db.locations[place].message;
      db.(messages := db.messages[m := Renewed(db.messages[m], a)])
    case Linked(place, flags, m) => db.(locations := db.locations[place := Location(m, flags)])
    case Stored(place, flags, id, content) =>
      Db(db.messages[id := content], db.locations[place := Location(id, flags)],
         if content.conversation in db.conversations then db.conversations
         else db.conversations[content.conversation := FirstSummary(content)])
  }

  ghost predicate AllFit(db: Db, account: Id, batch: seq<Arrival>)
    decreases |batch|
  {
    batch != [] ==> Fits(db, account, batch[0]) && AllFit(StoreOne(db, batch[0]), account, batch[1..])
  }

  /** The batch before the summaries are refreshed, and the conversations it affects. */
  ghost function StoreAll(db: Db, account: Id, batch: seq<Arrival>): (r: (Db, set<Id>))
    requires AllFit(db, account, batch)
    decreases |batch|
  {
    if batch == [] then (db, {})
    else
      var (after, affected) := StoreAll(StoreOne(db, batch[0]), account, batch[1..]);
      (after, {ConversationOf(db, batch[0])} + affected)
  }

  ghost function StoreBatch(db: Db, account: Id, batch: seq<Arrival>): Db
    requires AllFit(db, account, batch)
  {
    Refresh(StoreAll(db, account, batch).0, StoreAll(db, account, batch).1)
  }

  lemma {:induction false} BatchTouches(db: Db, account: Id, batch: seq<Arrival>)
    requires AllFit(db, account, batch)
    ensures TouchesOnly(db, StoreAll(db, account, batch).0, StoreAll(db, account, batch).1)
    decreases |batch|
  {
    if batch != [] {
      var next := StoreOne(db, batch[0]);
      var (after, affected) := StoreAll(next, account, batch[1..]);
      assert TouchesOnly(db, next, {ConversationOf(db, batch[0])});
      BatchTouches(next, account, batch[1..]);
      TouchesCompose(db, next, after, {ConversationOf(db, batch[0])}, affected);
    }
  }

  /** Storing a batch keeps the summaries right. */
  lemma StoringKeepsSummaries(db: Db, account: Id, batch: seq<Arrival>)
    requires Consistent(db) && AllFit(db, account, batch)
    ensures Consistent(StoreBatch(db, account, batch))
  {
    BatchTouches(db, account, batch);
    RefreshRestores(db, StoreAll(db, account, batch).0, StoreAll(db, account, batch).1);
  }

  datatype Snapshot = Snapshot(account: Id, folder: Id, uidValidity: nat, uidNext: nat, states: map<nat, Flags>)

  predicate InFolder(p: Place, account: Id, folder: Id) {
    p.account == account && p.folder == folder
  }

  predicate IsListed(p: Place, snapshot: Snapshot) {
    p.uidValidity == snapshot.uidValidity && p.uid in snapshot.states
  }

  /** What the snapshot shows to be gone; rows at or above its UIDNEXT came later and stay. */
  predicate IsGone(p: Place, snapshot: Snapshot) {
    && InFolder(p, snapshot.account, snapshot.folder)
    && FolderStore.Stale(FolderStore.Snapshot(snapshot.uidValidity, snapshot.uidNext, snapshot.states.Keys),
                         FolderStore.Location(p.uidValidity, p.uid))
  }

  /** References lead somewhere, within one account. */
  ghost predicate WellFormed(db: Db) {
    && (forall m :: m in db.messages ==>
          db.messages[m].conversation in db.conversations
          && db.conversations[db.messages[m].conversation].account == db.messages[m].account)
    && (forall p :: p in db.locations ==>
          db.locations[p].message in db.messages && db.messages[db.locations[p].message].account == p.account)
  }

  /** Whether the row already says what the snapshot says of it. */
  predicate IsCurrent(before: Db, p: Place, remote: Flags)
    requires p in before.locations && before.locations[p].message in before.messages
  {
    var m := before.messages[before.locations[p].message];
    before.locations[p].flags == remote && m.seen == remote.seen && m.flagged == remote.flagged
  }

  function TakeFlags(db: Db, p: Place, remote: Flags): Db
    requires p in db.locations && db.locations[p].message in db.messages
  {
    var m := db.locations[p].message;
    db.(messages := db.messages[m := db.messages[m].(seen := remote.seen, flagged := remote.flagged)],
        locations := db.locations[p := Location(m, remote)])
  }

  /** The rows were read before any of them was changed. */
  ghost predicate SameRows(before: Db, db: Db) {
    && db.conversations == before.conversations && db.messages.Keys == before.messages.Keys
    && db.locations.Keys == before.locations.Keys
    && (forall p :: p in db.locations ==> db.locations[p].message == before.locations[p].message)
    && (forall m :: m in db.messages ==> db.messages[m].conversation == before.messages[m].conversation
                                         && db.messages[m].account == before.messages[m].account)
  }

  /** One row of the folder against the snapshot, and the conversation it affects. */
  ghost function CompareOne(before: Db, db: Db, snapshot: Snapshot, p: Place): (r: (Db, set<Id>))
    requires WellFormed(before) && SameRows(before, db) && p in before.locations
    ensures SameRows(before, r.0)
  {
    var c := before.messages[before.locations[p].message].conversation;
    if !IsListed(p, snapshot) then (db, {c})
    else if IsCurrent(before, p, snapshot.states[p.uid]) then (db, {})
    else (TakeFlags(db, p, snapshot.states[p.uid]), {c})
  }

  /** Goes through the rows of the folder: the flags taken over, and the conversations affected. */
  ghost function CompareRows(before: Db, db: Db, snapshot: Snapshot, rows: seq<Place>): (r: (Db, set<Id>))
    requires WellFormed(before) && SameRows(before, db) && forall p :: p in rows ==> p in before.locations
    ensures SameRows(before, r.0)
    decreases |rows|
  {
    if rows == [] then (db, {})
    else
      var (next, one) := CompareOne(before, db, snapshot, rows[0]);
      var (after, rest) := CompareRows(before, next, snapshot, rows[1..]);
      (after, one + rest)
  }

  function Without(db: Db, gone: set<Place>): Db {
    db.(locations := map p | p in db.locations && p !in gone :: db.locations[p])
  }

  ghost function GoneRows(db: Db, snapshot: Snapshot): set<Place> {
    set p | p in db.locations && IsGone(p, snapshot)
  }

  ghost predicate AreRowsOf(db: Db, account: Id, folder: Id, rows: seq<Place>) {
    forall p :: p in rows <==> p in db.locations && InFolder(p, account, folder)
  }

  ghost function Reconcile(db: Db, snapshot: Snapshot, rows: seq<Place>): Db
    requires WellFormed(db) && AreRowsOf(db, snapshot.account, snapshot.folder, rows)
  {
    var (compared, affected) := CompareRows(db, db, snapshot, rows);
    Refresh(Cleanup(Without(compared, GoneRows(db, snapshot)), snapshot.account), affected)
  }

  /** The conversations the reconcile refreshes. */
  ghost function Affected(db: Db, snapshot: Snapshot, rows: seq<Place>): set<Id>
    requires WellFormed(db) && AreRowsOf(db, snapshot.account, snapshot.folder, rows)
  {
    CompareRows(db, db, snapshot, rows).1
  }

  ghost function InFolderRows(db: Db, account: Id, folder: Id): set<Place> {
    set p | p in db.locations && InFolder(p, account, folder)
  }

  ghost function ConversationsAt(db: Db, places: set<Place>): set<Id>
    requires WellFormed(db) && places <= db.locations.Keys
  {
    set p | p in places :: db.messages[db.locations[p].message].conversation
  }

  /** A rebuild forgets the whole folder. */
  ghost function Rebuild(db: Db, account: Id, folder: Id): Db
    requires WellFormed(db)
  {
    var rows := InFolderRows(db, account, folder);
    Refresh(Cleanup(Without(db, rows), account), ConversationsAt(db, rows))
  }

  lemma TakeFlagsTouches(db: Db, p: Place, remote: Flags)
    requires p in db.locations && db.locations[p].message in db.messages
    ensures TouchesOnly(db, TakeFlags(db, p, remote), {db.messages[db.locations[p].message].conversation})
  {
  }

  lemma CompareOneTouches(before: Db, db: Db, snapshot: Snapshot, p: Place)
    requires WellFormed(before) && SameRows(before, db) && p in before.locations
    ensures TouchesOnly(db, CompareOne(before, db, snapshot, p).0, CompareOne(before, db, snapshot, p).1)
  {
    if IsListed(p, snapshot) {
      TakeFlagsTouches(db, p, snapshot.states[p.uid]);
    }
  }

  lemma {:induction false} CompareTouches(before: Db, db: Db, snapshot: Snapshot, rows: seq<Place>)
    requires WellFormed(before) && SameRows(before, db) && forall p :: p in rows ==> p in before.locations
    ensures TouchesOnly(db, CompareRows(before, db, snapshot, rows).0, CompareRows(before, db, snapshot, rows).1)
    decreases |rows|
  {
    if rows != [] {
      var (next, one) := CompareOne(before, db, snapshot, rows[0]);
      var (after, rest) := CompareRows(before, next, snapshot, rows[1..]);
      CompareOneTouches(before, db, snapshot, rows[0]);
      CompareTouches(before, next, snapshot, rows[1..]);
      TouchesCompose(db, next, after, one, rest);
    }
  }

  /** The conversation of a row the snapshot does not list is refreshed. */
  lemma {:induction false} UnlistedIsAffected(before: Db, db: Db, snapshot: Snapshot, rows: seq<Place>, p: Place)
    requires WellFormed(before) && SameRows(before, db) && forall q :: q in rows ==> q in before.locations
    requires p in rows && !IsListed(p, snapshot)
    ensures before.messages[before.locations[p].message].conversation in CompareRows(before, db, snapshot, rows).1
    decreases |rows|
  {
    if p != rows[0] {
      assert p in rows[1..];
      UnlistedIsAffected(before, CompareOne(before, db, snapshot, rows[0]).0, snapshot, rows[1..], p);
    }
  }

  // ---- when cleaning up is safe ----

  ghost predicate AllOrphans(db: Db, account: Id, c: Id) {
    forall m :: m in Members(db.messages, c) ==> IsOrphan(db, account, m)
  }

  /** The conversations left alone have no message that is nowhere, or none that is anywhere. */
  ghost predicate OrphansAreCovered(db: Db, account: Id, affected: set<Id>) {
    forall c :: c in db.conversations && c !in affected ==> !HasOrphan(db, account, c) || AllOrphans(db, account, c)
  }

  /** Outside the affected conversations, messages and whether they are anywhere stayed as they were. */
  ghost predicate LeavesAlone(a: Db, b: Db, affected: set<Id>) {
    && b.conversations == a.conversations && TouchesOnly(a, b, affected)
    && (forall c, m :: c in a.conversations && c !in affected && m in Members(a.messages, c) ==> HasPlace(b, m) == HasPlace(a, m))
  }

  lemma StraysAreUncovered(a: Db, b: Db, account: Id, affected: set<Id>)
    requires WellFormed(a) && LeavesAlone(a, b, affected)
    ensures Strays(b, account, affected) <==> !OrphansAreCovered(a, account, affected)
  {
    forall c | c in a.conversations && c !in affected
      ensures HasOrphan(b, account, c) == HasOrphan(a, account, c) && AllOrphans(b, account, c) == AllOrphans(a, account, c)
    {
      assert SameMembers(a.messages, b.messages, c);
      assert Members(a.messages, c) == Members(b.messages, c);
      assert forall m :: m in Members(a.messages, c) ==> IsOrphan(a, account, m) == IsOrphan(b, account, m);
    }
    var cleaned := Cleanup(b, account);
    forall c | c in a.conversations && c !in affected && HasOrphan(a, account, c)
      ensures c in cleaned.conversations <==> !AllOrphans(a, account, c)
    {
      SurvivesWithPlacedMember(a, b, account, affected, c);
    }
  }

  /** A conversation with an orphan survives the cleanup exactly when another of its messages is somewhere. */
  lemma SurvivesWithPlacedMember(a: Db, b: Db, account: Id, affected: set<Id>, c: Id)
    requires WellFormed(a) && LeavesAlone(a, b, affected)
    requires c in a.conversations && c !in affected && HasOrphan(a, account, c)
    ensures c in Cleanup(b, account).conversations <==> !AllOrphans(a, account, c)
  {
    assert SameMembers(a.messages, b.messages, c);
    var cleaned := Cleanup(b, account);
    assert b.conversations[c].account == account;
    if c in cleaned.conversations {
      assert Members(cleaned.messages, c) != {};
      var m :| m in Members(cleaned.messages, c);
      assert m in Members(a.messages, c) && !IsOrphan(b, account, m) && HasPlace(a, m);
    }
    if !AllOrphans(a, account, c) {
      var m :| m in Members(a.messages, c) && !IsOrphan(a, account, m);
      assert m in b.messages && !IsOrphan(b, account, m);
      assert m in Members(cleaned.messages, c);
    }
  }

  lemma WithoutLeavesAlone(a: Db, b: Db, gone: set<Place>, affected: set<Id>)
    requires WellFormed(a) && SameRows(a, b) && TouchesOnly(a, b, affected)
    requires forall p :: p in gone && p in a.locations ==> a.messages[a.locations[p].message].conversation in affected
    ensures LeavesAlone(a, Without(b, gone), affected)
  {
    var d := Without(b, gone);
    forall c, m | c in a.conversations && c !in affected && m in Members(a.messages, c) ensures HasPlace(d, m) == HasPlace(a, m) {
      if HasPlace(a, m) {
        var p :| p in a.locations && a.locations[p].message == m;
        assert p in d.locations && d.locations[p].message == m;
      }
      if HasPlace(d, m) {
        var p :| p in d.locations && d.locations[p].message == m;
        assert p in a.locations && a.locations[p].message == m;
      }
    }
  }

  /** A reconcile leaves every summary right exactly when the orphans before it are covered. */
  lemma ReconcileIsRightExactly(db: Db, snapshot: Snapshot, rows: seq<Place>)
    requires WellFormed(db) && Consistent(db) && AreRowsOf(db, snapshot.account, snapshot.folder, rows)
    ensures Consistent(Reconcile(db, snapshot, rows)) <==> OrphansAreCovered(db, snapshot.account, Affected(db, snapshot, rows))
  {
    var (compared, affected) := CompareRows(db, db, snapshot, rows);
    var gone := GoneRows(db, snapshot);
    CompareTouches(db, db, snapshot, rows);
    forall p | p in gone ensures db.messages[db.locations[p].message].conversation in affected {
      UnlistedIsAffected(db, db, snapshot, rows, p);
    }
    WithoutLeavesAlone(db, compared, gone, affected);
    CleanupIsRightExactly(db, Without(compared, gone), snapshot.account, affected);
    StraysAreUncovered(db, Without(compared, gone), snapshot.account, affected);
  }

  /** So does a rebuild of a folder. */
  lemma RebuildIsRightExactly(db: Db, account: Id, folder: Id)
    requires WellFormed(db) && Consistent(db)
    ensures Consistent(Rebuild(db, account, folder)) <==>
            OrphansAreCovered(db, account, ConversationsAt(db, InFolderRows(db, account, folder)))
  {
    var rows := InFolderRows(db, account, folder);
    var affected := ConversationsAt(db, rows);
    WithoutLeavesAlone(db, db, rows, affected);
    CleanupIsRightExactly(db, Without(db, rows), account, affected);
    StraysAreUncovered(db, Without(db, rows), account, affected);
  }

  lemma PlacedMessagesAreCovered(db: Db, account: Id, affected: set<Id>)
    requires NoOrphans(db)
    ensures OrphansAreCovered(db, account, affected)
  {
  }
}

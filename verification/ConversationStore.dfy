/**
 The tables as the store changes them, statement by statement and loop by loop. Every method is proved
 to do what the functions of Conversations and ConversationRuns say.
 */
module ConversationStore {
  import opened Conversations
  import opened ConversationRuns
  import opened Options

  /** ORDER BY received_at DESC, id DESC LIMIT 1. */
  method LatestOf(messages: map<Id, Message>, members: set<Id>) returns (m: Id)
    requires members != {} && members <= messages.Keys
    ensures m in members && forall q :: q in members && q != m ==> Later(messages, m, q)
  {
    ghost var one := SomeoneIsLatest(messages, members);
    m :| m in members && forall q :: q in members && q != m ==> Later(messages, m, q);
  }

  class MailStore {
    var messages: map<Id, Message>
    var locations: map<Place, Location>
    var conversations: map<Id, Summary>

    function View(): Db
      reads this
    {
      Db(messages, locations, conversations)
    }

    /** Recomputes the summary from the messages of the conversation. */
    method RefreshConversation(c: Id)
      modifies this`conversations
      ensures View() == Refresh(old(View()), {c})
    {
      ghost var before := View();
      if c in conversations {
        var members := set m | m in messages && messages[m].conversation == c;
        var unread := set m | m in messages && messages[m].conversation == c && !messages[m].seen;
        var s := conversations[c].(messageCount := |members|, unreadCount := |unread|,
                                   starred := exists m :: m in members && messages[m].flagged);
        assert members == Members(messages, c) && unread == Unread(messages, c);
        if members != {} {
          var m := LatestOf(messages, members);
          LatestIsUnique(messages, c);
          assert IsLatest(messages, c, m);
          s := s.(subject := messages[m].subject, preview := messages[m].preview, latestAt := messages[m].receivedAt);
        } else {
          s := s.(subject := "", preview := "");
        }
        assert s == Recomputed(messages, c, conversations[c]);
        conversations := conversations[c := s];
      }
      assert conversations == Refresh(before, {c}).conversations;
    }

    /** Refreshes the affected conversations, in whatever order the set is walked. */
    method RefreshAll(affected: set<Id>)
      modifies this`conversations
      ensures View() == Refresh(old(View()), affected)
    {
      ghost var before := View();
      var rest := affected;
      assert View() == Refresh(before, {});
      while rest != {}
        invariant rest <= affected && View() == Refresh(before, affected - rest)
      {
        var c :| c in rest;
        ghost var done := affected - rest;
        RefreshConversation(c);
        RefreshOneMore(before, done, c);
        rest := rest - {c};
        assert affected - rest == done + {c};
      }
      assert affected - {} == affected;
    }

    method CleanupOrphanMessages(account: Id)
      modifies this
      ensures View() == Cleanup(old(View()), account)
    {
      ghost var before := View();
      var placed := set p | p in locations :: locations[p].message;
      messages := map m | m in messages && !(messages[m].account == account && m !in placed) :: messages[m];
      PlacedOnly(before, account, placed);
      assert messages == Cleanup(before, account).messages;
      var used := set m | m in messages :: messages[m].conversation;
      conversations := map c | c in conversations && (conversations[c].account != account || c in used) :: conversations[c];
      UsedHaveMembers(messages, used);
    }

    /** Applies one arrival: new rows, changed flags, or one more place. */
    method StoreMessage(ghost account: Id, a: Arrival) returns (c: Id)
      requires Fits(View(), account, a)
      modifies this
      ensures View() == StoreOne(old(View()), a) && c == ConversationOf(old(View()), a)
    {
      match a {
        case Known(place, flags, healed, subject, preview) =>
          var m := locations[place].message;
          c := messages[m].conversation;
          messages := messages[m := messages[m].(seen := flags.seen, flagged := flags.flagged)];
          if healed {
            messages := messages[m := messages[m].(subject := subject, preview := preview)];
          }
        case Linked(place, flags, m) =>
          c := messages[m].conversation;
          locations := locations[place := Location(m, flags)];
        case Stored(place, flags, id, content) =>
          c := content.conversation;
          if c !in conversations {
            conversations := conversations[c := Summary(content.account, content.subject, content.preview, content.receivedAt, 0, 0, false)];
          }
          messages := messages[id := content];
          locations := locations[place := Location(id, flags)];
      }
    }

    /** Stores the batch message by message, then refreshes the conversations it touched. */
    method StoreMessages(account: Id, batch: seq<Arrival>)
      requires AllFit(View(), account, batch)
      modifies this
      ensures View() == StoreBatch(old(View()), account, batch)
    {
      var affected: set<Id> := {};
      ghost var (after, all) := StoreAll(View(), account, batch);
      assert batch[0..] == batch;
      for i := 0 to |batch|
        invariant AllFit(View(), account, batch[i..]) && StoreAll(View(), account, batch[i..]).0 == after
        invariant affected + StoreAll(View(), account, batch[i..]).1 == all
      {
        assert batch[i..][0] == batch[i] && batch[i..][1..] == batch[i + 1..];
        var c := StoreMessage(account, batch[i]);
        affected := affected + {c};
      }
      assert batch[|batch|..] == [];
      RefreshAll(affected);
    }

    /** One row of the folder against the snapshot, with the rows as they were read; the conversation it affects. */
    method CompareRow(snapshot: Snapshot, p: Place, read: Db) returns (touched: set<Id>)
      requires WellFormed(read) && SameRows(read, View()) && p in read.locations
      modifies this`messages, this`locations
      ensures (View(), touched) == CompareOne(read, old(View()), snapshot, p)
      ensures SameRows(read, View())
    {
      var m := read.locations[p].message;
      var c := read.messages[m].conversation;
      if p.uidValidity != snapshot.uidValidity || p.uid !in snapshot.states {
        return {c};
      }
      var remote := snapshot.states[p.uid];
      if read.locations[p].flags == remote && read.messages[m].seen == remote.seen && read.messages[m].flagged == remote.flagged {
        return {};
      }
      locations := locations[p := Location(m, remote)];
      messages := messages[m := messages[m].(seen := remote.seen, flagged := remote.flagged)];
      return {c};
    }

    /** Goes through the rows of the folder, and collects the conversations they affect. */
    method CompareAll(snapshot: Snapshot, rows: seq<Place>) returns (affected: set<Id>)
      requires WellFormed(View()) && forall p :: p in rows ==> p in locations
      modifies this`messages, this`locations
      ensures (View(), affected) == CompareRows(old(View()), old(View()), snapshot, rows)
    {
      var read := View();
      affected := {};
      ComparedNone(read, snapshot, rows);
      for i := 0 to |rows|
        invariant Compared(read, View(), snapshot, rows, i, affected)
      {
        ghost var before := View();
        var touched := CompareRow(snapshot, rows[i], read);
        ComparedOne(read, before, snapshot, rows, i, affected);
        affected := affected + touched;
      }
      ComparedAll(read, View(), snapshot, rows, affected);
    }

    /** Compares the rows of the folder, deletes what is gone, cleans up and refreshes. */
    method ReconcileFolder(snapshot: Snapshot, rows: seq<Place>)
      requires WellFormed(View()) && AreRowsOf(View(), snapshot.account, snapshot.folder, rows)
      modifies this
      ensures View() == Reconcile(old(View()), snapshot, rows)
    {
      ghost var read := View();
      var affected := CompareAll(snapshot, rows);
      ghost var compared := View();
      locations := map p | p in locations && !IsGone(p, snapshot) :: locations[p];
      assert locations == Without(compared, GoneRows(read, snapshot)).locations;
      CleanupOrphanMessages(snapshot.account);
      RefreshAll(affected);
    }

    /** Forgets the rows of the folder, cleans up and refreshes. */
    method RebuildFolder(account: Id, folder: Id)
      requires WellFormed(View())
      modifies this
      ensures View() == Rebuild(old(View()), account, folder)
    {
      ghost var read := View();
      var affected := set p | p in locations && InFolder(p, account, folder) :: messages[locations[p].message].conversation;
      locations := map p | p in locations && !InFolder(p, account, folder) :: locations[p];
      assert affected == ConversationsAt(read, InFolderRows(read, account, folder));
      assert locations == Without(read, InFolderRows(read, account, folder)).locations;
      CleanupOrphanMessages(account);
      RefreshAll(affected);
    }

    /** Refreshes the affected conversations and drops those without a message. */
    method RefreshOrDropAll(affected: set<Id>)
      modifies this`conversations
      ensures View() == RefreshOrDrop(old(View()), affected)
    {
      ghost var before := View();
      var rest := affected;
      assert View() == RefreshOrDrop(before, {});
      while rest != {}
        invariant rest <= affected && View() == RefreshOrDrop(before, affected - rest)
      {
        var c :| c in rest;
        ghost var done := affected - rest;
        var members := set m | m in messages && messages[m].conversation == c;
        assert members == Members(messages, c);
        if |members| == 0 {
          conversations := conversations - {c};
        } else {
          RefreshConversation(c);
        }
        RefreshOrDropOneMore(before, done, c);
        rest := rest - {c};
        assert affected - rest == done + {c};
      }
      assert affected - {} == affected;
    }

    /** Sets the flag of the targets and refreshes the conversations of the selected rows. */
    method CompleteFlagOperation(account: Id, targets: set<Id>, column: Column, value: bool, affected: set<Id>)
      modifies this
      ensures View() == CompleteFlags(old(View()), account, targets, column, value, affected)
    {
      messages := map m | m in messages ::
        if m in targets && messages[m].account == account then WithColumn(messages[m], column, value) else messages[m];
      RefreshOrDropAll(affected);
    }

    method MoveRow(s: Source)
      modifies this`locations
      ensures View() == MoveOne(old(View()), s)
    {
      ghost var before := View();
      locations := locations - {s.place};
      assert locations == Without(before, {s.place}).locations;
      if s.destination.Some? {
        locations := locations[s.destination.value := Location(s.message, s.flags)];
      }
    }

    /** Moves the rows one by one, purges targets that are nowhere when the delete is permanent, and refreshes. */
    method CommitMoveProgress(account: Id, sources: seq<Source>, permanent: bool, targets: set<Id>)
      modifies this
      ensures View() == CommitMove(old(View()), account, sources, permanent, targets)
    {
      ghost var moved := MoveAll(View(), sources);
      var affected: set<Id> := {};
      assert sources[0..] == sources;
      for i := 0 to |sources|
        invariant MoveAll(View(), sources[i..]) == moved
        invariant affected == ConversationsOf(sources[..i])
      {
        assert sources[i..][0] == sources[i] && sources[i..][1..] == sources[i + 1..];
        assert sources[..i + 1] == sources[..i] + [sources[i]];
        var s := sources[i];
        affected := affected + {s.conversation};
        MoveRow(s);
      }
      assert sources[..|sources|] == sources && sources[|sources|..] == [];
      if permanent {
        PurgeTargets(account, targets);
      }
      RefreshOrDropAll(affected);
    }

    method PurgeTargets(account: Id, targets: set<Id>)
      modifies this`messages
      ensures View() == Purge(old(View()), account, targets)
    {
      ghost var before := View();
      var placed := set p | p in locations :: locations[p].message;
      messages := map m | m in messages && !(m in targets && messages[m].account == account && m !in placed) :: messages[m];
      PlacedOnly(before, account, placed);
      assert messages == Purge(before, account, targets).messages;
    }
  }

  /** The first `i` rows are compared: what they affect, and going on from here gives the whole. */
  ghost predicate Compared(read: Db, db: Db, snapshot: Snapshot, rows: seq<Place>, i: nat, affected: set<Id>) {
    && WellFormed(read) && SameRows(read, db) && i <= |rows| && (forall p :: p in rows ==> p in read.locations)
    && var (after, rest) := CompareRows(read, db, snapshot, rows[i..]);
      CompareRows(read, read, snapshot, rows) == (after, affected + rest)
  }

  lemma ComparedNone(read: Db, snapshot: Snapshot, rows: seq<Place>)
    requires WellFormed(read) && forall p :: p in rows ==> p in read.locations
    ensures Compared(read, read, snapshot, rows, 0, {})
  {
    assert rows[0..] == rows;
    var (after, rest) := CompareRows(read, read, snapshot, rows);
    assert {} + rest == rest;
  }

  lemma ComparedOne(read: Db, db: Db, snapshot: Snapshot, rows: seq<Place>, i: nat, affected: set<Id>)
    requires i < |rows| && Compared(read, db, snapshot, rows, i, affected)
    ensures var (next, one) := CompareOne(read, db, snapshot, rows[i]);
      Compared(read, next, snapshot, rows, i + 1, affected + one)
  {
    assert rows[i..][0] == rows[i] && rows[i..][1..] == rows[i + 1..];
    var (next, one) := CompareOne(read, db, snapshot, rows[i]);
    var (after, rest) := CompareRows(read, next, snapshot, rows[i + 1..]);
    assert CompareRows(read, db, snapshot, rows[i..]) == (after, one + rest);
    assert affected + (one + rest) == (affected + one) + rest;
  }

  lemma ComparedAll(read: Db, db: Db, snapshot: Snapshot, rows: seq<Place>, affected: set<Id>)
    requires Compared(read, db, snapshot, rows, |rows|, affected)
    ensures CompareRows(read, read, snapshot, rows) == (db, affected)
  {
    assert rows[|rows|..] == [];
    assert affected + {} == affected;
  }

  lemma RefreshOrDropOneMore(db: Db, done: set<Id>, c: Id)
    ensures var once := RefreshOrDrop(db, done);
      RefreshOrDrop(db, done + {c}) ==
      if Members(db.messages, c) == {} then once.(conversations := once.conversations - {c}) else Refresh(once, {c})
  {
    if c in done && c in db.conversations {
      RecomputedTwice(db.messages, c, db.conversations[c]);
    }
  }

  lemma PlacedOnly(db: Db, account: Id, placed: set<Id>)
    requires placed == set p | p in db.locations :: db.locations[p].message
    ensures forall m :: m in db.messages ==> (IsOrphan(db, account, m) <==> db.messages[m].account == account && m !in placed)
  {
    forall m | m in db.messages ensures HasPlace(db, m) <==> m in placed {
    }
  }

  lemma UsedHaveMembers(messages: map<Id, Message>, used: set<Id>)
    requires used == set m | m in messages :: messages[m].conversation
    ensures forall c :: c in used <==> Members(messages, c) != {}
  {
    forall c ensures c in used <==> Members(messages, c) != {} {
      if c in used {
        var m :| m in messages && messages[m].conversation == c;
        assert m in Members(messages, c);
      }
    }
  }

  lemma RefreshOneMore(db: Db, done: set<Id>, c: Id)
    ensures Refresh(Refresh(db, done), {c}) == Refresh(db, done + {c})
  {
    if c in done && c in db.conversations {
      RecomputedTwice(db.messages, c, db.conversations[c]);
    }
  }
}

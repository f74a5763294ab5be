/**
 Grouping messages into threads by the identifiers they carry. `GroupThreads` is the union-find
 computation; what it must produce is stated without it: one group for every class of the smallest
 equivalence that relates two messages of one account when one names the other, or both carry the
 same Message-ID.
 */
module Threading {
  import opened Options
  import opened Ordering
  import opened Strings
  import opened UnionFind

  datatype Message = Message(localId: string, accountId: string, messageId: string,
                             inReplyTo: seq<string>, references: seq<string>)
  datatype Group = Group(accountId: string, localIds: seq<string>)
  datatype Fault = IdentityMissing | LocalIdRepeated
  datatype Outcome = Grouped(groups: seq<Group>) | Refused(fault: Fault)

  // ----- identifiers ------------------------------------------------------------------------------

  /** The lower case of each character, whatever the Unicode tables say it is. */
  const LOWER_CASE: char -> char

  function Lower(s: string): string {
    seq(|s|, i requires 0 <= i < |s| => LOWER_CASE(s[i]))
  }

  function Normalize(id: string): string {
    Lower(Trim(Trim(id, IsSpace), c => c in "<>"))
  }

  predicate Blank(s: string) {
    Trim(s, IsSpace) == ""
  }

  type Key = (string, string)

  function KeyOf(m: Message): Key {
    (m.accountId, Normalize(m.messageId))
  }

  function Mentions(m: Message): seq<string> {
    m.references + m.inReplyTo
  }

  // ----- what a thread is -------------------------------------------------------------------------

  /** `a` carries the Message-ID of `b`, or names it as one it answers or refers to. */
  predicate Names(a: Message, b: Message) {
    && a.accountId == b.accountId && Normalize(b.messageId) != ""
    && (Normalize(a.messageId) == Normalize(b.messageId)
        || (exists id :: id in a.references && Normalize(id) == Normalize(b.messageId))
        || (exists id :: id in a.inReplyTo && Normalize(id) == Normalize(b.messageId)))
  }

  predicate Linked(a: Message, b: Message) {
    Names(a, b) || Names(b, a)
  }

  predicate Step(path: seq<Message>, i: nat)
    requires 0 < i < |path|
  {
    Linked(path[i - 1], path[i])
  }

  ghost predicate IsPath(mail: set<Message>, path: seq<Message>, a: Message, b: Message) {
    && path != [] && path[0] == a && path[|path| - 1] == b
    && (forall i :: 0 <= i < |path| ==> path[i] in mail)
    && (forall i :: 0 < i < |path| ==> Step(path, i))
  }

  ghost predicate Connected(mail: set<Message>, a: Message, b: Message) {
    exists path :: IsPath(mail, path, a, b)
  }

  ghost function Thread(mail: set<Message>, m: Message): set<string> {
    set x | x in mail && Connected(mail, m, x) :: x.localId
  }

  ghost predicate IsThreadOf(mail: set<Message>, g: Group, m: Message) {
    && m in mail && g.accountId == m.accountId
    && Ascending(g.localIds, Before)
    && (forall id :: id in g.localIds <==> id in Thread(mail, m))
  }

  function First(g: Group): string {
    if g.localIds == [] then "" else g.localIds[0]
  }

  predicate GroupBefore(g: Group, h: Group) {
    Before(g.accountId, h.accountId) || (g.accountId == h.accountId && Before(First(g), First(h)))
  }

  /** The groups are the threads of the mail, each once, in the order of the answer. */
  ghost predicate AreThreads(mail: set<Message>, groups: seq<Group>) {
    && Ascending(groups, GroupBefore)
    && (forall g :: g in groups <==> exists m :: IsThreadOf(mail, g, m))
  }

  function FaultAt(ms: seq<Message>, i: nat): Option<Fault>
    requires i < |ms|
  {
    if Blank(ms[i].localId) || Blank(ms[i].accountId) then Some(IdentityMissing)
    else if exists j :: 0 <= j < i && ms[j].localId == ms[i].localId then Some(LocalIdRepeated)
    else None
  }

  ghost function Mail(ms: seq<Message>): set<Message> {
    set m | m in ms
  }

  /** The first message without identity or with a local ID seen before is refused; else, the threads. */
  ghost predicate Correct(ms: seq<Message>, r: Outcome) {
    match r
    case Refused(fault) =>
      exists i :: 0 <= i < |ms| && FaultAt(ms, i) == Some(fault) && forall j :: 0 <= j < i ==> FaultAt(ms, j) == None
    case Grouped(groups) =>
      (forall i :: 0 <= i < |ms| ==> FaultAt(ms, i) == None) && AreThreads(Mail(ms), groups)
  }

  // ----- connection is an equivalence -------------------------------------------------------------

  lemma ConnectedToItself(mail: set<Message>, a: Message)
    requires a in mail
    ensures Connected(mail, a, a)
  {
    assert IsPath(mail, [a], a, a);
  }

  lemma ConnectedBack(mail: set<Message>, a: Message, b: Message)
    requires Connected(mail, a, b)
    ensures Connected(mail, b, a)
  {
    var path :| IsPath(mail, path, a, b);
    var back := seq(|path|, i requires 0 <= i < |path| => path[|path| - 1 - i]);
    forall i | 0 < i < |back| ensures Step(back, i) {
      assert Step(path, |path| - i);
    }
    assert IsPath(mail, back, b, a);
  }

  lemma ConnectedThrough(mail: set<Message>, a: Message, b: Message, c: Message)
    requires Connected(mail, a, b) && Connected(mail, b, c)
    ensures Connected(mail, a, c)
  {
    var path :| IsPath(mail, path, a, b);
    var more :| IsPath(mail, more, b, c);
    var whole := path + more[1..];
    forall i | 0 < i < |whole| ensures Step(whole, i) {
      assert if i < |path| then Step(path, i) else Step(more, i - |path| + 1);
    }
    assert IsPath(mail, whole, a, c);
  }

  lemma LinkedAreConnected(mail: set<Message>, a: Message, b: Message)
    requires a in mail && b in mail && Linked(a, b)
    ensures Connected(mail, a, b)
  {
    assert IsPath(mail, [a, b], a, b);
  }

  lemma PathTail(mail: set<Message>, path: seq<Message>, a: Message, b: Message)
    requires IsPath(mail, path, a, b) && |path| > 1
    ensures Linked(a, path[1]) && IsPath(mail, path[1..], path[1], b)
  {
    assert Step(path, 1);
    forall i | 0 < i < |path[1..]| ensures Step(path[1..], i) {
      assert Step(path, i + 1);
    }
  }

  lemma {:induction false} ConnectedShareAccount(mail: set<Message>, path: seq<Message>, a: Message, b: Message)
    requires IsPath(mail, path, a, b)
    ensures a.accountId == b.accountId
    decreases |path|
  {
    if |path| > 1 {
      PathTail(mail, path, a, b);
      ConnectedShareAccount(mail, path[1..], path[1], b);
    }
  }

  // ----- what the array represents ----------------------------------------------------------------

  /** Messages in one set are connected. */
  ghost predicate Sound(ms: seq<Message>, root: seq<nat>)
    requires |root| <= |ms|
  {
    forall i, j :: 0 <= i < |root| && 0 <= j < |root| && root[i] == root[j] ==> Connected(Mail(ms), ms[i], ms[j])
  }

  /** `Merged` of two connected messages is still sound. */
  lemma MergingConnectedIsSound(ms: seq<Message>, root: seq<nat>, left: nat, right: nat)
    requires |root| <= |ms| && left < |root| && right < |root|
    requires Sound(ms, root) && Connected(Mail(ms), ms[left], ms[right])
    ensures Sound(ms, Merged(root, root[left], root[right]))
  {
    var mail, merged := Mail(ms), Merged(root, root[left], root[right]);
    forall i, j | 0 <= i < |root| && 0 <= j < |root| && merged[i] == merged[j]
      ensures Connected(mail, ms[i], ms[j])
    {
      if root[i] != root[j] {
        if root[i] == root[right] {
          ConnectedBack(mail, ms[left], ms[right]);
          ConnectedThrough(mail, ms[i], ms[right], ms[left]);
          ConnectedThrough(mail, ms[i], ms[left], ms[j]);
        } else {
          ConnectedThrough(mail, ms[i], ms[left], ms[right]);
          ConnectedThrough(mail, ms[i], ms[right], ms[j]);
        }
      }
    }
  }

  /** The set of message `i` is the set of the message recorded for the identifier. */
  ghost predicate Together(root: seq<nat>, byId: map<Key, nat>, i: nat, key: Key)
    requires i < |root|
  {
    key in byId ==> byId[key] < |root| && root[i] == root[byId[key]]
  }

  ghost predicate Recorded(ms: seq<Message>, root: seq<nat>, byId: map<Key, nat>, i: nat)
    requires i < |root| <= |ms|
  {
    KeyOf(ms[i]).1 != "" ==> KeyOf(ms[i]) in byId && Together(root, byId, i, KeyOf(ms[i]))
  }

  /** `byId` leads from the key of every message so far to a message with that key, in its set. */
  ghost predicate Indexed(ms: seq<Message>, root: seq<nat>, byId: map<Key, nat>)
    requires |root| <= |ms|
  {
    && (forall k :: k in byId ==> byId[k] < |root| && KeyOf(ms[byId[k]]) == k && k.1 != "")
    && (forall i :: 0 <= i < |root| ==> Recorded(ms, root, byId, i))
  }

  function MentionKey(m: Message, j: nat): Key
    requires j < |Mentions(m)|
  {
    (m.accountId, Normalize(Mentions(m)[j]))
  }

  /** The first `k` mentions of message `i` have been followed. */
  ghost predicate Followed(ms: seq<Message>, root: seq<nat>, byId: map<Key, nat>, i: nat, k: nat)
    requires i < |root| <= |ms| && k <= |Mentions(ms[i])|
  {
    forall j :: 0 <= j < k ==> Together(root, byId, i, MentionKey(ms[i], j))
  }

  ghost predicate AllFollowed(ms: seq<Message>, root: seq<nat>, byId: map<Key, nat>, n: nat)
    requires n <= |root| <= |ms|
  {
    forall i :: 0 <= i < n ==> Followed(ms, root, byId, i, |Mentions(ms[i])|)
  }

  /** Linked messages are in one set. */
  lemma LinkedShareRoot(ms: seq<Message>, root: seq<nat>, byId: map<Key, nat>, i: nat, j: nat)
    requires |root| == |ms| && i < |ms| && j < |ms|
    requires Indexed(ms, root, byId) && AllFollowed(ms, root, byId, |ms|) && Names(ms[i], ms[j])
    ensures root[i] == root[j]
  {
    var key := KeyOf(ms[j]);
    assert Recorded(ms, root, byId, i) && Recorded(ms, root, byId, j);
    if Normalize(ms[i].messageId) == key.1 {
      assert KeyOf(ms[i]) == key;
    } else {
      assert forall id :: id in Mentions(ms[i]) <==> id in ms[i].references || id in ms[i].inReplyTo;
      var id :| id in Mentions(ms[i]) && Normalize(id) == key.1;
      var k :| 0 <= k < |Mentions(ms[i])| && Mentions(ms[i])[k] == id;
      assert Followed(ms, root, byId, i, |Mentions(ms[i])|);
      assert Together(root, byId, i, MentionKey(ms[i], k));
    }
  }

  /** Connected messages are in one set: the partition is no finer than it should be. */
  lemma {:induction false} ConnectedShareRoot(ms: seq<Message>, root: seq<nat>, byId: map<Key, nat>, path: seq<Message>,
                                              i: nat, j: nat)
    requires |root| == |ms| && i < |ms| && j < |ms| && IsPath(Mail(ms), path, ms[i], ms[j])
    requires Indexed(ms, root, byId) && AllFollowed(ms, root, byId, |ms|)
    requires forall x, y :: 0 <= x < |ms| && 0 <= y < |ms| && ms[x] == ms[y] ==> x == y
    ensures root[i] == root[j]
    decreases |path|
  {
    if |path| > 1 {
      PathTail(Mail(ms), path, ms[i], ms[j]);
      assert path[1] in Mail(ms);
      var k :| 0 <= k < |ms| && ms[k] == path[1];
      if Names(ms[i], ms[k]) {
        LinkedShareRoot(ms, root, byId, i, k);
      } else {
        LinkedShareRoot(ms, root, byId, k, i);
      }
      ConnectedShareRoot(ms, root, byId, path[1..], k, j);
    }
  }

  lemma NewMessageIsSound(ms: seq<Message>, root: seq<nat>)
    requires |root| < |ms| && Sound(ms, root)
    requires forall i :: 0 <= i < |root| ==> root[i] < |root|
    ensures Sound(ms, root + [|root|])
  {
    ConnectedToItself(Mail(ms), ms[|root|]);
  }

  lemma RootsAreElements(p: seq<nat>, root: seq<nat>)
    requires Represents(p, root)
    ensures |p| == |root| && forall i :: 0 <= i < |root| ==> root[i] < |root|
  {
    forall i | 0 <= i < |p| ensures |root| == |p| && root[i] < |p| {
      RootIsRoot(p, root, i);
    }
  }

  /** The array after some of both passes: what it says is sound, and `byId` agrees with it. */
  ghost predicate Partial(ms: seq<Message>, p: seq<nat>, root: seq<nat>, byId: map<Key, nat>) {
    |root| <= |ms| && Represents(p, root) && Sound(ms, root) && Indexed(ms, root, byId)
  }

  lemma MergingKeepsIndex(ms: seq<Message>, root: seq<nat>, byId: map<Key, nat>, a: nat, b: nat)
    requires |root| <= |ms| && Indexed(ms, root, byId)
    ensures Indexed(ms, Merged(root, a, b), byId)
  {
    forall i | 0 <= i < |root| ensures Recorded(ms, Merged(root, a, b), byId, i) {
      assert Recorded(ms, root, byId, i);
    }
  }

  lemma MergingKeepsFollowed(ms: seq<Message>, root: seq<nat>, byId: map<Key, nat>, a: nat, b: nat, i: nat, k: nat)
    requires i < |root| <= |ms| && k <= |Mentions(ms[i])| && Followed(ms, root, byId, i, k)
    ensures Followed(ms, Merged(root, a, b), byId, i, k)
  {
    forall j | 0 <= j < k ensures Together(Merged(root, a, b), byId, i, MentionKey(ms[i], j)) {
      assert Together(root, byId, i, MentionKey(ms[i], j));
    }
  }

  lemma MergingKeepsAllFollowed(ms: seq<Message>, root: seq<nat>, byId: map<Key, nat>, a: nat, b: nat, n: nat)
    requires n <= |root| <= |ms| && AllFollowed(ms, root, byId, n)
    ensures AllFollowed(ms, Merged(root, a, b), byId, n)
  {
    forall i | 0 <= i < n ensures Followed(ms, Merged(root, a, b), byId, i, |Mentions(ms[i])|) {
      MergingKeepsFollowed(ms, root, byId, a, b, i, |Mentions(ms[i])|);
    }
  }

  /** A message whose Message-ID is new is recorded for it. */
  lemma RecordingKeepsIndex(ms: seq<Message>, root: seq<nat>, byId: map<Key, nat>)
    requires |root| < |ms| && Indexed(ms, root, byId) && KeyOf(ms[|root|]) !in byId
    ensures Indexed(ms, root + [|root|], if KeyOf(ms[|root|]).1 != "" then byId[KeyOf(ms[|root|]) := |root|] else byId)
  {
    var n, key, grown := |root|, KeyOf(ms[|root|]), root + [|root|];
    var after := if key.1 != "" then byId[key := n] else byId;
    forall i | 0 <= i < |grown| ensures Recorded(ms, grown, after, i) {
      assert i < n ==> Recorded(ms, root, byId, i);
    }
  }

  /** A message whose Message-ID is known joins the set of the message that has it. */
  lemma JoiningKeepsIndex(ms: seq<Message>, root: seq<nat>, byId: map<Key, nat>)
    requires |root| < |ms| && Indexed(ms, root, byId) && KeyOf(ms[|root|]) in byId
    ensures byId[KeyOf(ms[|root|])] < |root|
    ensures Indexed(ms, Merged(root + [|root|], |root|, root[byId[KeyOf(ms[|root|])]]), byId)
    ensures Connected(Mail(ms), ms[|root|], ms[byId[KeyOf(ms[|root|])]])
  {
    var n, key, grown := |root|, KeyOf(ms[|root|]), root + [|root|];
    var merged := Merged(grown, n, root[byId[key]]);
    assert KeyOf(ms[byId[key]]) == key;
    LinkedAreConnected(Mail(ms), ms[n], ms[byId[key]]);
    forall i | 0 <= i < |merged| ensures Recorded(ms, merged, byId, i) {
      assert i < n ==> Recorded(ms, root, byId, i);
    }
  }

  /** A mention of a known identifier connects the two messages. */
  lemma MentionConnects(ms: seq<Message>, root: seq<nat>, byId: map<Key, nat>, i: nat, k: nat)
    requires i < |root| <= |ms| && k < |Mentions(ms[i])| && Indexed(ms, root, byId) && MentionKey(ms[i], k) in byId
    ensures byId[MentionKey(ms[i], k)] < |root|
    ensures Connected(Mail(ms), ms[i], ms[byId[MentionKey(ms[i], k)]])
  {
    var key := MentionKey(ms[i], k);
    assert KeyOf(ms[byId[key]]) == key;
    assert Mentions(ms[i])[k] in Mentions(ms[i]);
    LinkedAreConnected(Mail(ms), ms[i], ms[byId[key]]);
  }

  // ----- the computation --------------------------------------------------------------------------

  /** Adds message `index` as a set of its own and unites it with the message of the same Message-ID. */
  method AddMessage(ms: seq<Message>, parents: array<nat>, index: nat, byId: map<Key, nat>, ghost before: seq<nat>)
    returns (after: map<Key, nat>, ghost root: seq<nat>)
    requires parents.Length == |ms| && |before| == index < |ms| && Partial(ms, parents[..index], before, byId)
    modifies parents
    ensures |root| == index + 1 && Partial(ms, parents[..index + 1], root, after)
  {
    ghost var p, grown := parents[..index], before + [index];
    RootsAreElements(p, before);
    NewElement(p, before);
    NewMessageIsSound(ms, before);
    parents[index] := index;
    assert parents[..index + 1] == p + [index];
    var key := KeyOf(ms[index]);
    after, root := byId, grown;
    if key in byId {
      JoiningKeepsIndex(ms, before, byId);
      MergingConnectedIsSound(ms, grown, index, byId[key]);
      Union(parents, index, byId[key], grown);
      root := Merged(grown, index, before[byId[key]]);
    } else {
      RecordingKeepsIndex(ms, before, byId);
      if key.1 != "" {
        after := byId[key := index];
      }
    }
  }

  /** The first pass: checks identities and unites the messages that carry one Message-ID. */
  method UniteByMessageId(ms: seq<Message>, parents: array<nat>)
    returns (fault: Option<Fault>, byId: map<Key, nat>, ghost root: seq<nat>)
    requires parents.Length == |ms|
    modifies parents
    ensures fault.Some? ==> Correct(ms, Refused(fault.value))
    ensures fault.None? ==> forall i :: 0 <= i < |ms| ==> FaultAt(ms, i) == None
    ensures fault.None? ==> |root| == |ms| && Partial(ms, parents[..|root|], root, byId)
  {
    var seenLocal: set<string> := {};
    byId, root := map[], [];
    assert Forest([], [], []);
    for index := 0 to |ms|
      invariant |root| == index && Partial(ms, parents[..index], root, byId)
      invariant forall id :: id in seenLocal <==> exists j :: 0 <= j < index && ms[j].localId == id
      invariant forall i :: 0 <= i < index ==> FaultAt(ms, i) == None
    {
      if Blank(ms[index].localId) || Blank(ms[index].accountId) {
        assert FaultAt(ms, index) == Some(IdentityMissing);
        return Some(IdentityMissing), byId, root;
      }
      if ms[index].localId in seenLocal {
        assert FaultAt(ms, index) == Some(LocalIdRepeated);
        return Some(LocalIdRepeated), byId, root;
      }
      seenLocal := seenLocal + {ms[index].localId};
      byId, root := AddMessage(ms, parents, index, byId, root);
    }
    return None, byId, root;
  }

  /** Follows one mention: the message joins the set of the message it names, if that is known. */
  method FollowMention(ms: seq<Message>, parents: array<nat>, byId: map<Key, nat>, i: nat, k: nat, ghost before: seq<nat>)
    returns (ghost root: seq<nat>)
    requires parents.Length == |ms| == |before| && Partial(ms, parents[..|before|], before, byId)
    requires i < |ms| && k < |Mentions(ms[i])| && AllFollowed(ms, before, byId, i) && Followed(ms, before, byId, i, k)
    modifies parents
    ensures |root| == |ms| && Partial(ms, parents[..|root|], root, byId)
    ensures AllFollowed(ms, root, byId, i) && Followed(ms, root, byId, i, k + 1)
  {
    var key := MentionKey(ms[i], k);
    root := before;
    if key in byId {
      var target := byId[key];
      MentionConnects(ms, before, byId, i, k);
      MergingConnectedIsSound(ms, before, i, target);
      MergingKeepsIndex(ms, before, byId, before[i], before[target]);
      MergingKeepsAllFollowed(ms, before, byId, before[i], before[target], i);
      MergingKeepsFollowed(ms, before, byId, before[i], before[target], i, k);
      Union(parents, i, target, before);
      root := Merged(before, before[i], before[target]);
    }
    assert Together(root, byId, i, key);
  }

  method FollowMessage(ms: seq<Message>, parents: array<nat>, byId: map<Key, nat>, i: nat, ghost before: seq<nat>)
    returns (ghost root: seq<nat>)
    requires parents.Length == |ms| == |before| && Partial(ms, parents[..|before|], before, byId)
    requires i < |ms| && AllFollowed(ms, before, byId, i)
    modifies parents
    ensures |root| == |ms| && Partial(ms, parents[..|root|], root, byId) && AllFollowed(ms, root, byId, i + 1)
  {
    root := before;
    var count := |Mentions(ms[i])|;
    for k := 0 to count
      invariant |root| == |ms| && Partial(ms, parents[..|root|], root, byId)
      invariant AllFollowed(ms, root, byId, i) && Followed(ms, root, byId, i, k)
    {
      root := FollowMention(ms, parents, byId, i, k, root);
    }
  }

  /** The second pass: follows the References and In-Reply-To of every message. */
  method FollowMentions(ms: seq<Message>, parents: array<nat>, byId: map<Key, nat>, ghost before: seq<nat>)
    returns (ghost root: seq<nat>)
    requires parents.Length == |ms| == |before| && Partial(ms, parents[..|before|], before, byId)
    modifies parents
    ensures |root| == |ms| && Partial(ms, parents[..|root|], root, byId) && AllFollowed(ms, root, byId, |ms|)
  {
    root := before;
    for index := 0 to |ms|
      invariant |root| == |ms| && Partial(ms, parents[..|root|], root, byId) && AllFollowed(ms, root, byId, index)
    {
      root := FollowMessage(ms, parents, byId, index, root);
    }
  }

  // ----- from sets to groups ----------------------------------------------------------------------

  ghost predicate IdsAreUnique(ms: seq<Message>) {
    forall i, j :: 0 <= i < |ms| && 0 <= j < |ms| && ms[i].localId == ms[j].localId ==> i == j
  }

  lemma NoFaultMakesIdsUnique(ms: seq<Message>)
    requires forall i :: 0 <= i < |ms| ==> FaultAt(ms, i) == None
    ensures IdsAreUnique(ms)
  {
    forall i, j | 0 <= i < j < |ms| ensures ms[i].localId != ms[j].localId {
      assert FaultAt(ms, j) == None;
    }
  }

  /** Message `i` is the member of the set rooted at `k` that has this local ID. */
  ghost predicate IsMember(ms: seq<Message>, root: seq<nat>, i: nat, k: nat, id: string)
    requires i < |ms| == |root|
  {
    root[i] == k && ms[i].localId == id
  }

  /** The group kept for root `k` after `n` messages: the IDs of its members among them, each once. */
  ghost predicate Holds(ms: seq<Message>, root: seq<nat>, n: nat, k: nat, g: Group)
    requires n <= |ms| == |root|
  {
    && (forall i :: 0 <= i < n && root[i] == k ==> g.accountId == ms[i].accountId && ms[i].localId in g.localIds)
    && (forall id :: id in g.localIds ==> exists i :: 0 <= i < n && IsMember(ms, root, i, k, id))
    && (forall a, b :: 0 <= a < b < |g.localIds| ==> g.localIds[a] != g.localIds[b])
    && g.localIds != []
  }

  ghost predicate Collected(ms: seq<Message>, root: seq<nat>, n: nat, groups: map<nat, Group>)
    requires n <= |ms| == |root|
  {
    && (forall i :: 0 <= i < n ==> root[i] in groups)
    && (forall k :: k in groups ==> Holds(ms, root, n, k, groups[k]))
  }

  lemma OneSetOneAccount(ms: seq<Message>, root: seq<nat>, i: nat, j: nat)
    requires |root| == |ms| && Sound(ms, root) && i < |ms| && j < |ms| && root[i] == root[j]
    ensures ms[i].accountId == ms[j].accountId
  {
    var path :| IsPath(Mail(ms), path, ms[i], ms[j]);
    ConnectedShareAccount(Mail(ms), path, ms[i], ms[j]);
  }

  lemma GroupGrows(ms: seq<Message>, root: seq<nat>, n: nat, g: Group)
    requires n < |ms| == |root| && Sound(ms, root) && IdsAreUnique(ms)
    requires Holds(ms, root, n, root[n], g) || (g == Group(ms[n].accountId, []) && forall i :: 0 <= i < n ==> root[i] != root[n])
    ensures Holds(ms, root, n + 1, root[n], g.(localIds := g.localIds + [ms[n].localId]))
  {
    var k, after := root[n], g.(localIds := g.localIds + [ms[n].localId]);
    if g.localIds != [] {
      assert g.localIds[0] in g.localIds;
      var i :| 0 <= i < n && IsMember(ms, root, i, k, g.localIds[0]);
      OneSetOneAccount(ms, root, i, n);
    }
    assert IsMember(ms, root, n, k, ms[n].localId);
    forall id | id in g.localIds ensures id != ms[n].localId && exists i :: 0 <= i < n + 1 && IsMember(ms, root, i, k, id) {
      var i :| 0 <= i < n && IsMember(ms, root, i, k, id);
    }
    assert forall a :: 0 <= a < |g.localIds| ==> g.localIds[a] in g.localIds;
  }

  lemma OtherGroupsStay(ms: seq<Message>, root: seq<nat>, n: nat, k: nat, g: Group)
    requires n < |ms| == |root| && Holds(ms, root, n, k, g) && k != root[n]
    ensures Holds(ms, root, n + 1, k, g)
  {
    forall id | id in g.localIds ensures exists i :: 0 <= i < n + 1 && IsMember(ms, root, i, k, id) {
      var i :| 0 <= i < n && IsMember(ms, root, i, k, id);
    }
  }

  /** The third pass: gathers the local IDs of every set under its root. */
  method Gather(ms: seq<Message>, parents: array<nat>, ghost root: seq<nat>) returns (groups: map<nat, Group>)
    requires parents.Length == |ms| == |root| && Represents(parents[..|root|], root)
    requires Sound(ms, root) && IdsAreUnique(ms)
    modifies parents
    ensures Collected(ms, root, |ms|, groups)
  {
    groups := map[];
    for index := 0 to |ms|
      invariant Represents(parents[..|root|], root) && Collected(ms, root, index, groups)
    {
      var r := Find(parents, index, root);
      var group := if r in groups then groups[r] else Group(ms[index].accountId, []);
      GroupGrows(ms, root, index, group);
      forall k | k in groups && k != r ensures Holds(ms, root, index + 1, k, groups[k]) {
        OtherGroupsStay(ms, root, index, k, groups[k]);
      }
      groups := groups[r := group.(localIds := group.localIds + [ms[index].localId])];
    }
  }

  lemma GroupBeforeIsStrictOrder()
    ensures StrictOrder(GroupBefore)
    ensures forall g: Group, h: Group :: g.accountId != h.accountId || First(g) != First(h) ==> GroupBefore(g, h) || GroupBefore(h, g)
  {
    BeforeIsStrictOrder();
  }

  /** `h` is the group `g` with its IDs in order. */
  ghost predicate InOrder(g: Group, h: Group) {
    h.accountId == g.accountId && Ascending(h.localIds, Before) && forall id :: id in h.localIds <==> id in g.localIds
  }

  /** The answer lists the groups kept under `from`, each root once. */
  ghost predicate Lists(groups: map<nat, Group>, from: seq<nat>, result: seq<Group>) {
    && |from| == |result|
    && (forall a :: 0 <= a < |from| ==> from[a] in groups && InOrder(groups[from[a]], result[a]))
    && (forall a, b :: 0 <= a < b < |from| ==> from[a] != from[b])
  }

  lemma DifferentGroupsCompare(ms: seq<Message>, root: seq<nat>, groups: map<nat, Group>, k: nat, l: nat, g: Group, h: Group)
    requires |root| == |ms| && IdsAreUnique(ms) && Collected(ms, root, |ms|, groups)
    requires k in groups && l in groups && k != l && InOrder(groups[k], g) && InOrder(groups[l], h)
    ensures GroupBefore(g, h) || GroupBefore(h, g)
  {
    GroupBeforeIsStrictOrder();
    assert groups[k].localIds[0] in g.localIds && groups[l].localIds[0] in h.localIds;
    assert First(g) in groups[k].localIds && First(h) in groups[l].localIds;
    var i :| 0 <= i < |ms| && IsMember(ms, root, i, k, First(g));
    var j :| 0 <= j < |ms| && IsMember(ms, root, j, l, First(h));
  }

  /** Every gathered group is the thread of any of its members, and no thread is missing. */
  lemma GatheredIsThread(ms: seq<Message>, root: seq<nat>, byId: map<Key, nat>, groups: map<nat, Group>, g: Group, i: nat)
    requires |root| == |ms| && i < |ms| && IdsAreUnique(ms) && Sound(ms, root)
    requires Indexed(ms, root, byId) && AllFollowed(ms, root, byId, |ms|) && Collected(ms, root, |ms|, groups)
    requires root[i] in groups && InOrder(groups[root[i]], g)
    ensures IsThreadOf(Mail(ms), g, ms[i])
  {
    var mail, k := Mail(ms), root[i];
    assert Holds(ms, root, |ms|, k, groups[k]);
    forall id | id in g.localIds ensures id in Thread(mail, ms[i]) {
      var j :| 0 <= j < |ms| && IsMember(ms, root, j, k, id);
      assert ms[j] in mail && Connected(mail, ms[i], ms[j]);
    }
    forall id | id in Thread(mail, ms[i]) ensures id in g.localIds {
      var x :| x in mail && Connected(mail, ms[i], x) && x.localId == id;
      var j :| 0 <= j < |ms| && ms[j] == x;
      var path :| IsPath(mail, path, ms[i], x);
      ConnectedShareRoot(ms, root, byId, path, i, j);
    }
  }

  /** What the three passes leave for the answer. */
  ghost predicate Finished(ms: seq<Message>, root: seq<nat>, byId: map<Key, nat>, groups: map<nat, Group>) {
    && |root| == |ms| && IdsAreUnique(ms) && Sound(ms, root)
    && Indexed(ms, root, byId) && AllFollowed(ms, root, byId, |ms|) && Collected(ms, root, |ms|, groups)
  }

  lemma ListedIsThread(ms: seq<Message>, root: seq<nat>, byId: map<Key, nat>, groups: map<nat, Group>, k: nat, g: Group)
    requires Finished(ms, root, byId, groups) && k in groups && InOrder(groups[k], g)
    ensures exists m :: IsThreadOf(Mail(ms), g, m)
  {
    var id := groups[k].localIds[0];
    assert id in groups[k].localIds;
    var i :| 0 <= i < |ms| && IsMember(ms, root, i, k, id);
    GatheredIsThread(ms, root, byId, groups, g, i);
  }

  lemma ThreadIsListed(ms: seq<Message>, root: seq<nat>, byId: map<Key, nat>, groups: map<nat, Group>, from: seq<nat>,
                       listed: seq<Group>, g: Group, m: Message)
    requires Finished(ms, root, byId, groups) && Lists(groups, from, listed) && (forall k :: k in groups ==> k in from)
    requires IsThreadOf(Mail(ms), g, m)
    ensures g in listed
  {
    var i :| 0 <= i < |ms| && ms[i] == m;
    assert root[i] in groups && root[i] in from;
    var a :| 0 <= a < |from| && from[a] == root[i];
    GatheredIsThread(ms, root, byId, groups, listed[a], i);
    BeforeIsStrictOrder();
    AscendingIsUnique(g.localIds, listed[a].localIds, Before);
    assert g == listed[a];
  }

  /** The groups with sorted IDs, in the order the map happens to be walked. */
  method ListGroups(groups: map<nat, Group>) returns (listed: seq<Group>, ghost from: seq<nat>)
    requires forall k :: k in groups ==> forall a, b :: 0 <= a < b < |groups[k].localIds| ==> groups[k].localIds[a] != groups[k].localIds[b]
    ensures Lists(groups, from, listed) && forall k :: k in groups ==> k in from
  {
    BeforeIsStrictOrder();
    listed, from := [], [];
    var left := groups.Keys;
    while left != {}
      invariant Lists(groups, from, listed)
      invariant left <= groups.Keys && forall k :: k in groups ==> (k in from <==> k !in left)
    {
      var k :| k in left;
      var ids := Sort(groups[k].localIds, Before);
      left := left - {k};
      listed, from := listed + [groups[k].(localIds := ids)], from + [k];
    }
  }

  /** Groups the messages into threads; every map may be walked in any order. */
  method GroupThreads(ms: seq<Message>) returns (r: Outcome)
    ensures Correct(ms, r)
  {
    var parents := new nat[|ms|];
    var fault, byId, root := UniteByMessageId(ms, parents);
    if fault.Some? {
      return Refused(fault.value);
    }
    NoFaultMakesIdsUnique(ms);
    root := FollowMentions(ms, parents, byId, root);
    var groups := Gather(ms, parents, root);
    var listed, from := ListGroups(groups);
    GroupBeforeIsStrictOrder();
    forall a, b | 0 <= a < b < |listed|
      ensures GroupBefore(listed[a], listed[b]) || GroupBefore(listed[b], listed[a])
    {
      DifferentGroupsCompare(ms, root, groups, from[a], from[b], listed[a], listed[b]);
    }
    var result := Sort(listed, GroupBefore);
    forall g | g in result ensures exists m :: IsThreadOf(Mail(ms), g, m) {
      var a :| 0 <= a < |listed| && listed[a] == g;
      ListedIsThread(ms, root, byId, groups, from[a], g);
    }
    forall g, m | IsThreadOf(Mail(ms), g, m) ensures g in result {
      ThreadIsListed(ms, root, byId, groups, from, listed, g, m);
    }
    return Grouped(result);
  }

  // ----- the answer does not depend on the order --------------------------------------------------

  /** The threads of a set of messages have one listing. */
  lemma ThreadListingIsUnique(mail: set<Message>, r: seq<Group>, s: seq<Group>)
    requires AreThreads(mail, r) && AreThreads(mail, s)
    ensures r == s
  {
    GroupBeforeIsStrictOrder();
    AscendingIsUnique(r, s, GroupBefore);
  }

  /** The messages of a mail come without repeated local IDs, whatever the order. */
  ghost predicate OneIdEach(mail: set<Message>) {
    forall x, y :: x in mail && y in mail && x.localId == y.localId ==> x == y
  }

  ghost function Ordered(ids: set<string>): (s: seq<string>)
    ensures Ascending(s, Before) && forall id :: id in s <==> id in ids
  {
    BeforeIsStrictOrder();
    if ids == {} then [] else
      var id :| id in ids;
      Insert(Ordered(ids - {id}), id, Before)
  }

  /** Two messages share a group exactly when they are connected. */
  lemma SharingAGroupIsConnection(mail: set<Message>, groups: seq<Group>, a: Message, b: Message)
    requires AreThreads(mail, groups) && a in mail && b in mail && OneIdEach(mail)
    ensures Connected(mail, a, b) <==> exists g :: g in groups && a.localId in g.localIds && b.localId in g.localIds
  {
    if Connected(mail, a, b) {
      ConnectedToItself(mail, a);
      var g := Group(a.accountId, Ordered(Thread(mail, a)));
      assert IsThreadOf(mail, g, a);
      assert a.localId in g.localIds && b.localId in g.localIds;
    }
    if g :| g in groups && a.localId in g.localIds && b.localId in g.localIds {
      var m :| IsThreadOf(mail, g, m);
      assert a.localId in Thread(mail, m) && b.localId in Thread(mail, m);
      assert Connected(mail, m, a) && Connected(mail, m, b);
      ConnectedBack(mail, m, a);
      ConnectedThrough(mail, a, m, b);
    }
  }

  lemma {:induction false} RepeatedElement<T>(s: seq<T>, i: nat, j: nat)
    requires i < j < |s| && s[i] == s[j]
    ensures multiset(s)[s[i]] > 1
  {
    assert s == s[..j] + s[j..];
    assert s[i] == s[..j][i] && s[j] == s[j..][0];
    assert s[i] in multiset(s[..j]) && s[j] in multiset(s[j..]);
  }

  lemma {:induction false} CountedTwice<T>(s: seq<T>, x: T)
    requires multiset(s)[x] > 1
    ensures exists i, j :: 0 <= i < j < |s| && s[i] == x == s[j]
  {
    var last := |s| - 1;
    assert s == s[..last] + [s[last]];
    if s[last] == x {
      assert x in multiset(s[..last]);
      var i :| 0 <= i < last && s[..last][i] == x;
      assert s[i] == x == s[last];
    } else {
      CountedTwice(s[..last], x);
      var i, j :| 0 <= i < j < last && s[..last][i] == x == s[..last][j];
      assert s[i] == x == s[j];
    }
  }

  lemma FaultlessInAnyOrder(ms: seq<Message>, ns: seq<Message>)
    requires multiset(ms) == multiset(ns) && forall i :: 0 <= i < |ms| ==> FaultAt(ms, i) == None
    ensures forall i :: 0 <= i < |ns| ==> FaultAt(ns, i) == None
  {
    NoFaultMakesIdsUnique(ms);
    forall i | 0 <= i < |ns| ensures FaultAt(ns, i) == None {
      assert ns[i] in multiset(ns) && ns[i] in multiset(ms) && ns[i] in ms;
      var a :| 0 <= a < |ms| && ms[a] == ns[i];
      assert FaultAt(ms, a) == None;
      if j :| 0 <= j < i && ns[j].localId == ns[i].localId {
        assert ns[j] in multiset(ns) && ns[j] in multiset(ms) && ns[j] in ms;
        assert ns[j] == ns[i];
        RepeatedElement(ns, j, i);
        CountedTwice(ms, ns[i]);
        assert false;
      }
    }
  }

  /** The same messages in another order are refused too, or give the same answer. */
  lemma OrderDoesNotMatter(ms: seq<Message>, ns: seq<Message>, r: Outcome, s: Outcome)
    requires multiset(ms) == multiset(ns) && Correct(ms, r) && Correct(ns, s)
    ensures r == s || (r.Refused? && s.Refused?)
  {
    if r.Grouped? || s.Grouped? {
      if r.Grouped? {
        FaultlessInAnyOrder(ms, ns);
      } else {
        FaultlessInAnyOrder(ns, ms);
      }
      forall m ensures m in Mail(ms) <==> m in Mail(ns) {
        assert m in ms <==> m in multiset(ms);
        assert m in ns <==> m in multiset(ns);
      }
      assert Mail(ms) == Mail(ns);
      ThreadListingIsUnique(Mail(ms), r.groups, s.groups);
    }
  }
}

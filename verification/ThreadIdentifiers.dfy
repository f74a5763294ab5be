/**
 Which identifiers are the same, and that a message which answers or refers to another by any spelling of
 its identifier is in the same thread.
 */
module ThreadIdentifiers {
  import opened Options
  import opened Ordering
  import opened Strings
  import opened Threading

  predicate AllSpace(s: string) {
    forall i :: 0 <= i < |s| ==> IsSpace(s[i])
  }

  predicate AllBrackets(s: string) {
    forall i :: 0 <= i < |s| ==> s[i] == '<' || s[i] == '>'
  }

  predicate IsInner(c: char) {
    !IsSpace(c) && c != '<' && c != '>'
  }

  /** One way to write an identifier: its core, brackets around that and white space around all of it. */
  datatype Spelling = Spelling(before: string, open: string, core: string, close: string, after: string) {
    predicate Valid() {
      && AllSpace(before) && AllBrackets(open) && AllBrackets(close) && AllSpace(after)
      && core != "" && IsInner(core[0]) && IsInner(core[|core| - 1])
    }

    function Text(): string {
      before + (open + core + close) + after
    }
  }

  /** The cores are the same letter by letter, up to case. */
  predicate SameLetters(s: string, t: string) {
    |s| == |t| && forall i :: 0 <= i < |s| ==> LOWER_CASE(s[i]) == LOWER_CASE(t[i])
  }

  lemma {:induction false} TrimLeftKeeps(around: string, s: string, cut: char -> bool)
    requires forall i :: 0 <= i < |around| ==> cut(around[i])
    requires s != "" && !cut(s[0])
    ensures TrimLeft(around + s, cut) == s
    decreases |around|
  {
    if around == "" {
      assert around + s == s;
    } else {
      assert (around + s)[1..] == around[1..] + s;
      TrimLeftKeeps(around[1..], s, cut);
    }
  }

  lemma {:induction false} TrimRightKeeps(s: string, around: string, cut: char -> bool)
    requires forall i :: 0 <= i < |around| ==> cut(around[i])
    requires s != "" && !cut(s[|s| - 1])
    ensures TrimRight(s + around, cut) == s
    decreases |around|
  {
    if around == "" {
      assert s + around == s;
    } else {
      var all := s + around;
      assert all[..|all| - 1] == s + around[..|around| - 1];
      TrimRightKeeps(s, around[..|around| - 1], cut);
    }
  }

  /** Trimming takes what is to be cut off both ends and leaves the rest. */
  lemma TrimKeeps(left: string, s: string, right: string, cut: char -> bool)
    requires forall i :: 0 <= i < |left| ==> cut(left[i])
    requires forall i :: 0 <= i < |right| ==> cut(right[i])
    requires s != "" && !cut(s[0]) && !cut(s[|s| - 1])
    ensures Trim(left + s + right, cut) == s
  {
    assert left + s + right == left + (s + right);
    TrimLeftKeeps(left, s + right, cut);
    TrimRightKeeps(s, right, cut);
  }

  lemma NormalizedIsCore(x: Spelling)
    requires x.Valid()
    ensures Normalize(x.Text()) == Lower(x.core)
  {
    var written := x.open + x.core + x.close;
    var bracket: char -> bool := c => c in "<>";
    assert written[0] == if x.open != "" then x.open[0] else x.core[0];
    assert written[|written| - 1] == if x.close != "" then x.close[|x.close| - 1] else x.core[|x.core| - 1];
    TrimKeeps(x.before, written, x.after, IsSpace);
    TrimKeeps(x.open, x.core, x.close, bracket);
    TrimByMembers(written, c => c in "<>", bracket);
  }

  /** White space, brackets and the case of letters do not matter to an identifier; everything else does. */
  lemma SpellingsAgree(x: Spelling, y: Spelling)
    requires x.Valid() && y.Valid()
    ensures Normalize(x.Text()) == Normalize(y.Text()) <==> SameLetters(x.core, y.core)
    ensures Normalize(x.Text()) != ""
  {
    NormalizedIsCore(x);
    NormalizedIsCore(y);
    if Lower(x.core) == Lower(y.core) {
      forall i | 0 <= i < |x.core|
        ensures LOWER_CASE(x.core[i]) == LOWER_CASE(y.core[i])
      {
        assert Lower(x.core)[i] == Lower(y.core)[i];
      }
    }
    if SameLetters(x.core, y.core) {
      assert Lower(x.core) == Lower(y.core);
    }
  }

  lemma {:induction false} TrimLeftByMembers(s: string, a: char -> bool, b: char -> bool)
    requires forall c :: a(c) == b(c)
    ensures TrimLeft(s, a) == TrimLeft(s, b)
  {
    if s != "" && a(s[0]) {
      TrimLeftByMembers(s[1..], a, b);
    }
  }

  lemma {:induction false} TrimRightByMembers(s: string, a: char -> bool, b: char -> bool)
    requires forall c :: a(c) == b(c)
    ensures TrimRight(s, a) == TrimRight(s, b)
  {
    if s != "" && a(s[|s| - 1]) {
      TrimRightByMembers(s[..|s| - 1], a, b);
    }
  }

  lemma TrimByMembers(s: string, a: char -> bool, b: char -> bool)
    requires forall c :: a(c) == b(c)
    ensures Trim(s, a) == Trim(s, b)
  {
    TrimLeftByMembers(s, a, b);
    TrimRightByMembers(TrimLeft(s, a), a, b);
  }

  /** Only white space is blank. */
  lemma BlankIsSpace(s: string)
    ensures Blank(s) <==> AllSpace(s)
  {
    var left := TrimLeft(s, IsSpace);
    TrimLeftCuts(s, IsSpace);
    TrimRightCuts(left, IsSpace);
  }

  /** A message that answers or refers to another one of its account, however it spells it, shares its group. */
  lemma AnswersJoin(mail: set<Message>, groups: seq<Group>, a: Message, b: Message, x: Spelling, y: Spelling)
    requires AreThreads(mail, groups) && OneIdEach(mail) && a in mail && b in mail && a.accountId == b.accountId
    requires x.Valid() && y.Valid() && SameLetters(x.core, y.core)
    requires x.Text() in a.inReplyTo || x.Text() in a.references
    requires y.Text() == b.messageId
    ensures exists g :: g in groups && a.localId in g.localIds && b.localId in g.localIds
  {
    SpellingsAgree(x, y);
    LinkedAreConnected(mail, a, b);
    SharingAGroupIsConnection(mail, groups, a, b);
  }

  /** So do two messages of one account that carry the same identifier. */
  lemma CopiesJoin(mail: set<Message>, groups: seq<Group>, a: Message, b: Message, x: Spelling, y: Spelling)
    requires AreThreads(mail, groups) && OneIdEach(mail) && a in mail && b in mail && a.accountId == b.accountId
    requires x.Valid() && y.Valid() && SameLetters(x.core, y.core)
    requires x.Text() == a.messageId && y.Text() == b.messageId
    ensures exists g :: g in groups && a.localId in g.localIds && b.localId in g.localIds
  {
    SpellingsAgree(x, y);
    LinkedAreConnected(mail, a, b);
    SharingAGroupIsConnection(mail, groups, a, b);
  }

  // ---- the order of the answer ----

  /** The strings differ first at `k`, where `s` has the smaller character or has ended. */
  predicate DiffersAt(s: string, t: string, k: nat) {
    k <= |s| && k < |t| && s[..k] == t[..k] && (k == |s| || s[k] < t[k])
  }

  lemma {:induction false} BeforeDiffers(s: string, t: string) returns (k: nat)
    requires Before(s, t)
    ensures DiffersAt(s, t, k)
  {
    k := 0;
    if s != "" && s[0] == t[0] {
      var l := BeforeDiffers(s[1..], t[1..]);
      k := l + 1;
      assert s[..k] == [s[0]] + s[1..][..l] && t[..k] == [t[0]] + t[1..][..l];
    }
  }

  /** Groups are listed by account and then by their first message, and a group lists its messages, as a dictionary would. */
  lemma ListedInOrder(mail: set<Message>, groups: seq<Group>, i: nat, j: nat)
    requires AreThreads(mail, groups) && i < j < |groups|
    ensures exists k: nat ::
      if groups[i].accountId == groups[j].accountId then DiffersAt(First(groups[i]), First(groups[j]), k)
      else DiffersAt(groups[i].accountId, groups[j].accountId, k)
  {
    assert GroupBefore(groups[i], groups[j]);
    if Before(groups[i].accountId, groups[j].accountId) {
      BeforeIsTotal(groups[i].accountId, groups[j].accountId);
      var k := BeforeDiffers(groups[i].accountId, groups[j].accountId);
    } else {
      var k := BeforeDiffers(First(groups[i]), First(groups[j]));
    }
  }

  lemma MembersInOrder(mail: set<Message>, groups: seq<Group>, g: Group, i: nat, j: nat)
    requires AreThreads(mail, groups) && g in groups && i < j < |g.localIds|
    ensures exists k: nat :: DiffersAt(g.localIds[i], g.localIds[j], k)
  {
    var m :| IsThreadOf(mail, g, m);
    var k := BeforeDiffers(g.localIds[i], g.localIds[j]);
  }
}

/**
 One attempt at a mail operation against the server, group by group: how the locations are grouped,
 what each answer leads to, and the loop that goes through the groups. The loop is proved to be a run
 of `Advance`, so what holds of every step of `Advance` holds of it.
 */
module OperationAttempt {
  import opened Options
  import opened Ordering

  // ---- groups of locations ----

  datatype Location = Location(id: nat, messageId: nat, folderId: string, uidValidity: nat, uid: nat)

  type Group = seq<Location>

  function Decimal(n: nat): (r: string) {
    if n < 10 then [('0' as int + n) as char] else Decimal(n / 10) + [('0' as int + n % 10) as char]
  }

  const NUL: char := 0 as char

  function Key(l: Location): string {
    l.folderId + [NUL] + Decimal(l.uidValidity)
  }

  predicate UidBefore(a: Location, b: Location) {
    a.uid < b.uid
  }

  predicate SameMailbox(a: Location, b: Location) {
    a.folderId == b.folderId && a.uidValidity == b.uidValidity
  }

  /** Every location is in the one group of its folder and UIDVALIDITY, in the order of the UIDs. */
  ghost predicate AreGroupsOf(locations: seq<Location>, groups: seq<Group>) {
    && (forall l :: l in locations <==> exists g :: g in groups && l in g)
    && (forall g :: g in groups ==> g != [] && Ascending(g, UidBefore))
    && (forall a, b, l, m :: 0 <= a < |groups| && 0 <= b < |groups| && l in groups[a] && m in groups[b] ==>
          (a == b <==> SameMailbox(l, m)))
  }

  lemma {:induction false} DecimalIsUnique(m: nat, n: nat)
    requires Decimal(m) == Decimal(n)
    ensures m == n
  {
    assert Decimal(m)[|Decimal(m)| - 1] == Decimal(n)[|Decimal(n)| - 1];
    if m >= 10 && n >= 10 {
      assert Decimal(m)[..|Decimal(m)| - 1] == Decimal(m / 10);
      assert Decimal(n)[..|Decimal(n)| - 1] == Decimal(n / 10);
      DecimalIsUnique(m / 10, n / 10);
    }
  }

  predicate HasNoNul(s: string) {
    forall i :: 0 <= i < |s| ==> s[i] != NUL
  }

  /** The key text tells folder and UIDVALIDITY apart, as a folder ID holds no NUL. */
  lemma KeyTellsMailbox(a: Location, b: Location)
    requires HasNoNul(a.folderId) && HasNoNul(b.folderId)
    ensures Key(a) == Key(b) <==> SameMailbox(a, b)
  {
    if Key(a) == Key(b) {
      var m, n := |a.folderId|, |b.folderId|;
      assert Key(a)[m] == NUL && Key(b)[n] == NUL;
      assert forall i :: 0 <= i < m ==> Key(a)[i] == a.folderId[i];
      assert forall i :: 0 <= i < n ==> Key(b)[i] == b.folderId[i];
      assert m == n;
      assert Key(a)[..m] == a.folderId && Key(b)[..n] == b.folderId;
      assert Key(a)[m + 1..] == Decimal(a.uidValidity) && Key(b)[n + 1..] == Decimal(b.uidValidity);
      DecimalIsUnique(a.uidValidity, b.uidValidity);
    }
  }

  /** The group of a key holds the locations with this key, in the order they came. */
  ghost predicate IsFilled(locations: seq<Location>, n: nat, key: string, group: Group)
    requires n <= |locations|
  {
    && (forall l :: l in group <==> l in locations[..n] && Key(l) == key)
    && Comparable(group, UidBefore)
  }

  ghost predicate AreFilled(locations: seq<Location>, n: nat, keys: seq<string>, groups: map<string, Group>)
    requires n <= |locations|
  {
    && (forall k :: k in keys <==> k in groups)
    && (forall a, b :: 0 <= a < b < |keys| ==> keys[a] != keys[b])
    && (forall k :: k in groups ==> groups[k] != [] && IsFilled(locations, n, k, groups[k]))
    && (forall l :: l in locations[..n] ==> Key(l) in groups)
  }

  /** No two rows share folder, UIDVALIDITY and UID, as the table demands; folder IDs hold no NUL. */
  ghost predicate AreRows(locations: seq<Location>) {
    && (forall l :: l in locations ==> HasNoNul(l.folderId))
    && (forall i, j :: 0 <= i < j < |locations| && SameMailbox(locations[i], locations[j]) ==>
          locations[i].uid != locations[j].uid)
  }

  lemma OneMoreFilled(locations: seq<Location>, n: nat, key: string, group: Group)
    requires n < |locations| && AreRows(locations) && Key(locations[n]) == key
    requires IsFilled(locations, n, key, group)
    ensures IsFilled(locations, n + 1, key, group + [locations[n]])
  {
    assert locations[..n + 1] == locations[..n] + [locations[n]];
    forall l | l in group ensures l.uid != locations[n].uid {
      var i :| 0 <= i < n && locations[i] == l;
      assert l in locations && locations[n] in locations;
      KeyTellsMailbox(l, locations[n]);
    }
  }

  lemma OthersStayFilled(locations: seq<Location>, n: nat, key: string, group: Group)
    requires n < |locations| && Key(locations[n]) != key && IsFilled(locations, n, key, group)
    ensures IsFilled(locations, n + 1, key, group)
  {
    assert locations[..n + 1] == locations[..n] + [locations[n]];
  }

  /** Collects the locations by key, and the keys in the order they first appear. */
  method CollectByKey(locations: seq<Location>) returns (keys: seq<string>, groups: map<string, Group>)
    requires AreRows(locations)
    ensures AreFilled(locations, |locations|, keys, groups)
  {
    keys, groups := [], map[];
    for n := 0 to |locations|
      invariant AreFilled(locations, n, keys, groups)
    {
      var l := locations[n];
      var key := Key(l);
      ghost var before := groups;
      assert locations[..n + 1] == locations[..n] + [l];
      if key !in groups {
        keys := keys + [key];
        groups := groups[key := []];
      }
      OneMoreFilled(locations, n, key, groups[key]);
      forall k | k in before && k != key ensures IsFilled(locations, n + 1, k, before[k]) {
        OthersStayFilled(locations, n, k, before[k]);
      }
      groups := groups[key := groups[key] + [l]];
    }
  }

  method SortGroups(keys: seq<string>, groups: map<string, Group>) returns (result: seq<Group>)
    requires forall k :: k in keys ==> k in groups && Comparable(groups[k], UidBefore)
    ensures |result| == |keys| && forall a :: 0 <= a < |keys| ==> SortsGroup(result[a], groups[keys[a]])
  {
    result := [];
    for i := 0 to |keys|
      invariant |result| == i && forall a :: 0 <= a < i ==> SortsGroup(result[a], groups[keys[a]])
    {
      var group := Sort(groups[keys[i]], UidBefore);
      result := result + [group];
    }
  }

  /** Puts the groups in the order of their keys, and each in the order of its UIDs. */
  method GroupLocations(locations: seq<Location>) returns (result: seq<Group>)
    requires AreRows(locations)
    ensures AreGroupsOf(locations, result)
  {
    var keys, groups := CollectByKey(locations);
    BeforeIsStrictOrder();
    var sorted := Sort(keys, Before);
    AscendingIsDistinct(sorted, Before);
    SameKeysFilled(locations, keys, sorted, groups);
    result := SortGroups(sorted, groups);
    SortedGroupsAreGroups(locations, sorted, groups, result);
  }

  lemma SameKeysFilled(locations: seq<Location>, keys: seq<string>, sorted: seq<string>, groups: map<string, Group>)
    requires AreFilled(locations, |locations|, keys, groups)
    requires (forall k :: k in sorted <==> k in keys) && forall a, b :: 0 <= a < b < |sorted| ==> sorted[a] != sorted[b]
    ensures AreFilled(locations, |locations|, sorted, groups)
    ensures forall k :: k in sorted ==> k in groups && Comparable(groups[k], UidBefore)
  {
    forall k | k in groups ensures Comparable(groups[k], UidBefore) {
      assert IsFilled(locations, |locations|, k, groups[k]);
    }
  }

  ghost predicate SortsGroup(sorted: Group, group: Group) {
    Ascending(sorted, UidBefore) && forall l :: l in sorted <==> l in group
  }

  lemma AscendingIsDistinct<T(!new)>(s: seq<T>, less: (T, T) -> bool)
    requires StrictOrder(less) && Ascending(s, less)
    ensures forall a, b :: 0 <= a < b < |s| ==> s[a] != s[b]
  {
  }

  lemma SortedGroupsAreGroups(locations: seq<Location>, keys: seq<string>, groups: map<string, Group>, result: seq<Group>)
    requires AreRows(locations) && AreFilled(locations, |locations|, keys, groups) && |result| == |keys|
    requires forall a :: 0 <= a < |result| ==> SortsGroup(result[a], groups[keys[a]])
    ensures AreGroupsOf(locations, result)
  {
    assert locations[..|locations|] == locations;
    forall a, l | 0 <= a < |result| ensures l in result[a] <==> l in locations && Key(l) == keys[a] {
      assert IsFilled(locations, |locations|, keys[a], groups[keys[a]]);
    }
    forall a | 0 <= a < |result| ensures result[a] != [] {
      assert groups[keys[a]] != [] && groups[keys[a]][0] in result[a];
    }
    forall l | l in locations ensures exists g :: g in result && l in g {
      var a :| 0 <= a < |keys| && keys[a] == Key(l);
      assert l in result[a] && result[a] in result;
    }
    forall a, b, l, m | 0 <= a < |result| && 0 <= b < |result| && l in result[a] && m in result[b]
      ensures a == b <==> SameMailbox(l, m)
    {
      KeyTellsMailbox(l, m);
    }
  }

  /** A group lists its locations by ascending UID, all in one folder under one UIDVALIDITY. */
  lemma GroupsAreAscending(locations: seq<Location>, groups: seq<Group>, g: Group, i: nat, j: nat)
    requires AreGroupsOf(locations, groups) && g in groups && i < j < |g|
    ensures g[i].uid < g[j].uid && g[i].folderId == g[j].folderId && g[i].uidValidity == g[j].uidValidity
  {
    var a :| 0 <= a < |groups| && groups[a] == g;
    assert g[i] in groups[a] && g[j] in groups[a];
    assert SameMailbox(g[i], g[j]);
  }

  // ---- the attempt ----

  /** What applying an operation can report, and whether it asks for a sync. */
  datatype ApplyError = Plain | ApplyError(uncertain: bool, attention: bool, syncRequired: bool)

  const SELECT_FAILED := ApplyError(false, false, false)
  const VALIDITY_CHANGED := ApplyError(false, true, false)
  const OUTCOME_UNKNOWN := ApplyError(true, false, true)

  /** An error before a later group, when earlier groups are done. */
  function Partial(err: ApplyError, committed: bool): ApplyError {
    if !committed then err
    else match err
      case Plain => OUTCOME_UNKNOWN
      case ApplyError(uncertain, attention, _) => ApplyError(uncertain || !attention, attention, true)
  }

  datatype Strategy = StoreFlags | MoveDirect | CopyThenExpunge | Expunge

  datatype Phase = Selecting | Writing | Expunging | Committing | Completing | Done | Stopped(err: ApplyError)

  /** The locals of the group loop: how many groups are behind, and where in the current one it is. */
  datatype Attempt = Attempt(strategy: Strategy, groups: nat, index: nat, committed: bool, phase: Phase)

  /** How a call ended; `changed` is for a mailbox selected under another UIDVALIDITY. */
  datatype Reply = Reply(ok: bool, changed: bool)

  predicate IsOver(a: Attempt) {
    a.phase.Done? || a.phase.Stopped?
  }

  function Start(strategy: Strategy, groups: nat): Attempt {
    Attempt(strategy, groups, 0, false, if groups == 0 then Completing else Selecting)
  }

  function Stop(a: Attempt, err: ApplyError): Attempt {
    a.(phase := Stopped(err))
  }

  function AfterSelect(a: Attempt, reply: Reply): Attempt {
    if !reply.ok then Stop(a, Partial(SELECT_FAILED, a.committed))
    else if reply.changed then Stop(a, Partial(VALIDITY_CHANGED, a.committed))
    else a.(phase := Writing)
  }

  function AfterCommit(a: Attempt): Attempt {
    a.(index := a.index + 1, committed := true, phase := if a.index + 1 == a.groups then Completing else Selecting)
  }

  /** A copy is followed by the expunge of what was copied. */
  function AfterChange(strategy: Strategy): Phase {
    if strategy == CopyThenExpunge then Expunging else Committing
  }

  /** What the reply to the call that the attempt is waiting for leads to. */
  function Advance(a: Attempt, reply: Reply): Attempt {
    match a.phase
    case Selecting => AfterSelect(a, reply)
    case Writing =>
      if !reply.ok then Stop(a, OUTCOME_UNKNOWN)
      else a.(phase := AfterChange(a.strategy))
    case Expunging => if !reply.ok then Stop(a, OUTCOME_UNKNOWN) else a.(phase := Committing)
    case Committing => if !reply.ok then Stop(a, OUTCOME_UNKNOWN) else AfterCommit(a)
    case Completing =>
      if reply.ok then a.(phase := Done)
      else if a.groups == 0 then Stop(a, Plain)
      else Stop(a, OUTCOME_UNKNOWN)
    case _ => a
  }

  function Drive(a: Attempt, replies: seq<Reply>): Attempt
    decreases |replies|
  {
    if IsOver(a) || replies == [] then a else Drive(Advance(a, replies[0]), replies[1..])
  }

  /** The states an attempt can be in. */
  predicate IsSound(a: Attempt) {
    && a.index <= a.groups
    && (a.committed <==> a.index > 0)
    && (a.phase.Selecting? || a.phase.Writing? || a.phase.Expunging? || a.phase.Committing? ==> a.index < a.groups)
    && (a.phase.Completing? || a.phase.Done? ==> a.index == a.groups)
  }

  // ---- the calls of an attempt ----

  /** A call of the group loop, with what it names. */
  datatype Call =
    | Select(folderId: string, uidValidity: nat)
    | Change(uids: seq<nat>)
    | ExpungeCopied(uids: seq<nat>)
    | Commit(group: Group)
    | Complete

  predicate AreFilledIn(groups: seq<Group>) {
    forall k :: 0 <= k < |groups| ==> groups[k] != []
  }

  function Uids(g: Group): seq<nat> {
    seq(|g|, i requires 0 <= i < |g| => g[i].uid)
  }

  function SelectOf(g: Group): Call
    requires g != []
  {
    Select(g[0].folderId, g[0].uidValidity)
  }

  /** The call whose reply the attempt is waiting for. */
  function CallOf(groups: seq<Group>, a: Attempt): Call
    requires AreFilledIn(groups) && a.groups == |groups| && IsSound(a) && !IsOver(a)
  {
    match a.phase
    case Selecting => SelectOf(groups[a.index])
    case Writing => Change(Uids(groups[a.index]))
    case Expunging => ExpungeCopied(Uids(groups[a.index]))
    case Committing => Commit(groups[a.index])
    case Completing => Complete
  }

  /** The calls that are made until the replies end or the attempt is over. */
  function Trace(groups: seq<Group>, a: Attempt, replies: seq<Reply>): seq<Call>
    requires AreFilledIn(groups) && a.groups == |groups| && IsSound(a)
    decreases |replies|
  {
    if IsOver(a) || replies == [] then [] else [CallOf(groups, a)] + Trace(groups, Advance(a, replies[0]), replies[1..])
  }

  /** One more call was made, and the attempt goes on with the rest of the replies. */
  lemma {:induction false} CallOn(groups: seq<Group>, a: Attempt, replies: seq<Reply>, next: nat, calls: seq<Call>)
    requires AreFilledIn(groups) && a.groups == |groups| && IsSound(a)
    requires next < |replies| && !IsOver(a)
    ensures Drive(a, replies[next..]) == Drive(Advance(a, replies[next]), replies[next + 1..])
    ensures calls + Trace(groups, a, replies[next..])
         == (calls + [CallOf(groups, a)]) + Trace(groups, Advance(a, replies[next]), replies[next + 1..])
  {
    assert replies[next..][1..] == replies[next + 1..];
    var rest := Trace(groups, Advance(a, replies[next]), replies[next + 1..]);
    assert calls + ([CallOf(groups, a)] + rest) == (calls + [CallOf(groups, a)]) + rest;
  }

  /** The attempt stands at `a` with `next` replies used and `calls` made. */
  ghost predicate StandsAt(groups: seq<Group>, strategy: Strategy, replies: seq<Reply>, a: Attempt, next: nat, calls: seq<Call>) {
    && next <= |replies| && AreFilledIn(groups) && a.groups == |groups| && IsSound(a)
    && Drive(Start(strategy, |groups|), replies) == Drive(a, replies[next..])
    && Trace(groups, Start(strategy, |groups|), replies) == calls + Trace(groups, a, replies[next..])
  }

  lemma {:induction false} StandsNext(groups: seq<Group>, strategy: Strategy, replies: seq<Reply>, a: Attempt, next: nat, calls: seq<Call>)
    requires StandsAt(groups, strategy, replies, a, next, calls) && next < |replies| && !IsOver(a)
    ensures StandsAt(groups, strategy, replies, Advance(a, replies[next]), next + 1, calls + [CallOf(groups, a)])
  {
    CallOn(groups, a, replies, next, calls);
  }

  lemma {:induction false} StandsOver(groups: seq<Group>, strategy: Strategy, replies: seq<Reply>, a: Attempt, next: nat, calls: seq<Call>)
    requires StandsAt(groups, strategy, replies, a, next, calls) && IsOver(a)
    ensures Drive(Start(strategy, |groups|), replies) == a && Trace(groups, Start(strategy, |groups|), replies) == calls
  {
  }

  /** Selects the mailbox of a group and changes the group there. */
  method ChangeGroup(strategy: Strategy, groups: seq<Group>, index: nat, committed: bool, replies: seq<Reply>, start: nat, before: seq<Call>)
      returns (stop: Option<Phase>, next: nat, calls: seq<Call>)
    requires index < |groups| && start + 2 <= |replies|
    requires StandsAt(groups, strategy, replies, Attempt(strategy, |groups|, index, committed, Selecting), start, before)
    ensures stop.Some? ==> stop.value.Stopped? && stop.value == Drive(Start(strategy, |groups|), replies).phase
    ensures stop.Some? ==> AreFilledIn(groups) && calls == Trace(groups, Start(strategy, |groups|), replies)
    ensures stop.None? ==> next <= start + 2 && StandsAt(groups, strategy, replies, Attempt(strategy, |groups|, index, committed, AfterChange(strategy)), next, calls)
  {
    ghost var a := Attempt(strategy, |groups|, index, committed, Selecting);
    StandsNext(groups, strategy, replies, a, start, before);
    calls, a, next := before + [SelectOf(groups[index])], Advance(a, replies[start]), start + 1;
    if !replies[start].ok || replies[start].changed {
      StandsOver(groups, strategy, replies, a, next, calls);
      return Some(Stopped(Partial(if !replies[start].ok then SELECT_FAILED else VALIDITY_CHANGED, committed))), next, calls;
    }
    StandsNext(groups, strategy, replies, a, next, calls);
    calls, a, next := calls + [Change(Uids(groups[index]))], Advance(a, replies[next]), next + 1;
    if !replies[next - 1].ok {
      StandsOver(groups, strategy, replies, a, next, calls);
      return Some(Stopped(OUTCOME_UNKNOWN)), next, calls;
    }
    stop := None;
  }

  /** For a copy expunges what was copied, and commits the group locally. */
  method SettleGroup(strategy: Strategy, groups: seq<Group>, index: nat, committed: bool, replies: seq<Reply>, start: nat, before: seq<Call>)
      returns (stop: Option<Phase>, next: nat, calls: seq<Call>)
    requires index < |groups| && start + 2 <= |replies|
    requires StandsAt(groups, strategy, replies, Attempt(strategy, |groups|, index, committed, AfterChange(strategy)), start, before)
    ensures stop.Some? ==> stop.value.Stopped? && stop.value == Drive(Start(strategy, |groups|), replies).phase
    ensures stop.Some? ==> AreFilledIn(groups) && calls == Trace(groups, Start(strategy, |groups|), replies)
    ensures stop.None? ==> next <= start + 2 && StandsAt(groups, strategy, replies, AfterCommit(Attempt(strategy, |groups|, index, committed, Committing)), next, calls)
  {
    ghost var a := Attempt(strategy, |groups|, index, committed, AfterChange(strategy));
    calls, next := before, start;
    if strategy == CopyThenExpunge {
      StandsNext(groups, strategy, replies, a, next, calls);
      calls, a, next := calls + [ExpungeCopied(Uids(groups[index]))], Advance(a, replies[next]), next + 1;
      if !replies[start].ok {
        StandsOver(groups, strategy, replies, a, next, calls);
        return Some(Stopped(OUTCOME_UNKNOWN)), next, calls;
      }
    }
    StandsNext(groups, strategy, replies, a, next, calls);
    calls, a, next := calls + [Commit(groups[index])], Advance(a, replies[next]), next + 1;
    if !replies[next - 1].ok {
      StandsOver(groups, strategy, replies, a, next, calls);
      return Some(Stopped(OUTCOME_UNKNOWN)), next, calls;
    }
    stop := None;
  }

  /**
   The group loop. The replies are those of its calls in order: select, change and for a copy the
   expunge, commit; at the end the transaction that completes the operation.
   */
  method ApplyGroups(strategy: Strategy, groups: seq<Group>, replies: seq<Reply>) returns (result: Phase, calls: seq<Call>)
    requires AreFilledIn(groups) && |replies| > 4 * |groups|
    ensures result == Drive(Start(strategy, |groups|), replies).phase && (result.Done? || result.Stopped?)
    ensures calls == Trace(groups, Start(strategy, |groups|), replies)
  {
    var committed, next := false, 0;
    calls := [];
    for index := 0 to |groups|
      invariant 0 <= next <= 4 * index && (committed <==> index > 0)
      invariant StandsAt(groups, strategy, replies,
                         Attempt(strategy, |groups|, index, committed, if index == |groups| then Completing else Selecting), next, calls)
    {
      var stop;
      stop, next, calls := ChangeGroup(strategy, groups, index, committed, replies, next, calls);
      if stop.Some? {
        return stop.value, calls;
      }
      stop, next, calls := SettleGroup(strategy, groups, index, committed, replies, next, calls);
      if stop.Some? {
        return stop.value, calls;
      }
      committed := true;
    }
    ghost var a := Attempt(strategy, |groups|, |groups|, committed, Completing);
    StandsNext(groups, strategy, replies, a, next, calls);
    calls := calls + [Complete];
    result := if replies[next].ok then Done else Stopped(if |groups| == 0 then Plain else OUTCOME_UNKNOWN);
    StandsOver(groups, strategy, replies, Advance(a, replies[next]), next + 1, calls);
  }

  // ---- what an attempt changes ----

  /** The changing calls, each with the mailbox that was selected for it. */
  function Writes(calls: seq<Call>, selected: Call): seq<(Call, seq<nat>)> {
    if calls == [] then []
    else match calls[0]
      case Select(_, _) => Writes(calls[1..], calls[0])
      case Change(uids) => [(selected, uids)] + Writes(calls[1..], selected)
      case _ => Writes(calls[1..], selected)
  }

  /** The groups from `from` up to `to`, each changed in its own mailbox. */
  function Wanted(groups: seq<Group>, from: nat, to: nat): seq<(Call, seq<nat>)>
    requires AreFilledIn(groups) && from <= to <= |groups|
  {
    seq(to - from, k requires 0 <= k < to - from => (SelectOf(groups[from + k]), Uids(groups[from + k])))
  }

  /** The first group that the attempt has not changed yet. */
  function FirstUnchanged(a: Attempt): nat
    requires IsSound(a)
  {
    if a.phase.Expunging? || a.phase.Committing? then a.index + 1 else a.index
  }

  /** From wherever an attempt stands, it changes the next groups in order, all of them if it succeeds. */
  lemma {:induction false} TraceWrites(groups: seq<Group>, a: Attempt, replies: seq<Reply>, selected: Call) returns (n: nat)
    requires AreFilledIn(groups) && a.groups == |groups| && IsSound(a) && !a.phase.Stopped?
    requires a.phase.Writing? ==> selected == SelectOf(groups[a.index])
    ensures FirstUnchanged(a) <= n <= |groups|
    ensures Writes(Trace(groups, a, replies), selected) == Wanted(groups, FirstUnchanged(a), n)
    ensures Drive(a, replies).phase.Done? ==> n == |groups|
    decreases |replies|
  {
    n := FirstUnchanged(a);
    if !IsOver(a) && replies != [] {
      var next := Advance(a, replies[0]);
      if next.phase.Stopped? {
        n := if a.phase.Writing? then a.index + 1 else FirstUnchanged(a);
        LastCallWrites(groups, a, replies, selected, n);
      } else {
        n := TraceWrites(groups, next, replies[1..], SelectedAfter(groups, a, selected));
        CallWrites(groups, a, replies, selected, n);
      }
    }
  }

  function SelectedAfter(groups: seq<Group>, a: Attempt, selected: Call): Call
    requires AreFilledIn(groups) && a.groups == |groups| && IsSound(a)
  {
    if a.phase.Selecting? then SelectOf(groups[a.index]) else selected
  }

  /** A call that stops the attempt is the last one. */
  lemma {:induction false} LastCallWrites(groups: seq<Group>, a: Attempt, replies: seq<Reply>, selected: Call, n: nat)
    requires AreFilledIn(groups) && a.groups == |groups| && IsSound(a) && !IsOver(a) && replies != []
    requires Advance(a, replies[0]).phase.Stopped? && (a.phase.Writing? ==> selected == SelectOf(groups[a.index]))
    requires n == if a.phase.Writing? then a.index + 1 else FirstUnchanged(a)
    ensures n <= |groups| && Writes(Trace(groups, a, replies), selected) == Wanted(groups, FirstUnchanged(a), n)
    ensures !Drive(a, replies).phase.Done?
  {
    assert Trace(groups, a, replies) == [CallOf(groups, a)];
    assert Drive(a, replies) == Advance(a, replies[0]);
  }

  /** What one call adds to the changes that follow it. */
  lemma {:induction false} CallWrites(groups: seq<Group>, a: Attempt, replies: seq<Reply>, selected: Call, n: nat)
    requires AreFilledIn(groups) && a.groups == |groups| && IsSound(a) && !IsOver(a) && replies != []
    requires a.phase.Writing? ==> selected == SelectOf(groups[a.index])
    requires !Advance(a, replies[0]).phase.Stopped? && FirstUnchanged(Advance(a, replies[0])) <= n <= |groups|
    requires Writes(Trace(groups, Advance(a, replies[0]), replies[1..]), SelectedAfter(groups, a, selected))
          == Wanted(groups, FirstUnchanged(Advance(a, replies[0])), n)
    ensures FirstUnchanged(a) <= n && Writes(Trace(groups, a, replies), selected) == Wanted(groups, FirstUnchanged(a), n)
  {
    WritesFront(CallOf(groups, a), Trace(groups, Advance(a, replies[0]), replies[1..]), selected);
    if a.phase.Writing? {
      WantedFront(groups, a.index, n);
    }
  }

  lemma {:induction false} WritesFront(call: Call, rest: seq<Call>, selected: Call)
    ensures Writes([call] + rest, selected) ==
            if call.Select? then Writes(rest, call)
            else if call.Change? then [(selected, call.uids)] + Writes(rest, selected)
            else Writes(rest, selected)
  {
    assert ([call] + rest)[1..] == rest;
  }

  lemma WantedFront(groups: seq<Group>, from: nat, to: nat)
    requires AreFilledIn(groups) && from < to <= |groups|
    ensures Wanted(groups, from, to) == [(SelectOf(groups[from]), Uids(groups[from]))] + Wanted(groups, from + 1, to)
  {
  }

  /** The call changes the location: in its mailbox, by its UID. */
  predicate Names(w: (Call, seq<nat>), l: Location) {
    w.0 == Select(l.folderId, l.uidValidity) && l.uid in w.1
  }

  /**
   Whatever the replies, an attempt changes selected locations only, each in its own mailbox and under the
   UIDVALIDITY it was stored with, and none twice; if it succeeds it changes every one.
   */
  lemma EachLocationOnce(strategy: Strategy, locations: seq<Location>, groups: seq<Group>, replies: seq<Reply>)
    requires AreGroupsOf(locations, groups) && AreFilledIn(groups)
    ensures var writes := Writes(Trace(groups, Start(strategy, |groups|), replies), Complete);
      && (forall k, u :: 0 <= k < |writes| && u in writes[k].1 ==> exists l :: l in locations && l.uid == u && Names(writes[k], l))
      && (forall j, k, l :: 0 <= j < |writes| && 0 <= k < |writes| && l in locations && Names(writes[j], l) && Names(writes[k], l) ==> j == k)
      && (Drive(Start(strategy, |groups|), replies).phase.Done? ==>
            forall l :: l in locations ==> exists k :: 0 <= k < |writes| && Names(writes[k], l))
  {
    var n := TraceWrites(groups, Start(strategy, |groups|), replies, Complete);
    WantedNames(locations, groups, n);
  }

  lemma WantedNames(locations: seq<Location>, groups: seq<Group>, n: nat)
    requires AreGroupsOf(locations, groups) && AreFilledIn(groups) && n <= |groups|
    ensures var writes := Wanted(groups, 0, n);
      && (forall k, u :: 0 <= k < |writes| && u in writes[k].1 ==> exists l :: l in locations && l.uid == u && Names(writes[k], l))
      && (forall j, k, l :: 0 <= j < |writes| && 0 <= k < |writes| && l in locations && Names(writes[j], l) && Names(writes[k], l) ==> j == k)
      && (n == |groups| ==> forall l :: l in locations ==> exists k :: 0 <= k < |writes| && Names(writes[k], l))
  {
    var writes := Wanted(groups, 0, n);
    forall k, l | 0 <= k < n && l in locations ensures Names(writes[k], l) <==> l in groups[k] {
      NamesItsGroup(locations, groups, k, l);
    }
    forall k, u | 0 <= k < |writes| && u in writes[k].1
      ensures exists l :: l in locations && l.uid == u && Names(writes[k], l)
    {
      var i :| 0 <= i < |groups[k]| && groups[k][i].uid == u;
      assert groups[k][i] in groups[k] && groups[k] in groups && groups[k][i] in locations;
      assert Names(writes[k], groups[k][i]);
    }
    forall j, k, l | 0 <= j < |writes| && 0 <= k < |writes| && l in locations && Names(writes[j], l) && Names(writes[k], l)
      ensures j == k
    {
      assert l in groups[j] && l in groups[k] && SameMailbox(l, l);
    }
    if n == |groups| {
      forall l | l in locations ensures exists k :: 0 <= k < |writes| && Names(writes[k], l) {
        var g :| g in groups && l in g;
        var k :| 0 <= k < |groups| && groups[k] == g;
        assert Names(writes[k], l);
      }
    }
  }

  /** A group's call names exactly the members of the group. */
  lemma NamesItsGroup(locations: seq<Location>, groups: seq<Group>, k: nat, l: Location)
    requires AreGroupsOf(locations, groups) && AreFilledIn(groups) && k < |groups| && l in locations
    ensures Names((SelectOf(groups[k]), Uids(groups[k])), l) <==> l in groups[k]
  {
    var first := groups[k][0];
    assert first in groups[k];
    var g :| g in groups && l in g;
    var b :| 0 <= b < |groups| && groups[b] == g;
    assert k == b <==> SameMailbox(first, l);
    if l in groups[k] {
      var i :| 0 <= i < |groups[k]| && groups[k][i] == l;
      assert Uids(groups[k])[i] == l.uid;
    }
  }
}

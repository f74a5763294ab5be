/**
 The local mirror of one mail folder: stored locations, the checkpoint row and the transactions
 on them, and the loops that turn a server's answers into what those transactions store.
 */
module FolderStore {
  import opened Options

  type Uid = nat

  /** Largest value of a 32-bit UID. */
  const MAX_UID: Uid := 0xFFFF_FFFF

  /** Most UIDs one search may return. */
  const SEARCH_LIMIT: nat := 100000

  datatype Location = Location(validity: nat, uid: Uid)

  /** Validity 0 stands for a checkpoint that was never written. */
  datatype Checkpoint = Checkpoint(validity: nat, last: Uid)

  datatype Action = Initialize | Incremental | Rebuild

  datatype Folder = Folder(rows: set<Location>, validity: nat, last: Uid, backfillPending: bool)

  datatype Snapshot = Snapshot(validity: nat, uidNext: Uid, uids: set<Uid>)

  /** How a pass treats the checkpoint it read, given the UIDVALIDITY it then observed. */
  function Decide(cp: Checkpoint, observed: nat): Action {
    if cp.validity == 0 then Initialize else if cp.validity != observed then Rebuild else Incremental
  }

  /** First UID of an incremental probe; it stays put at the largest 32-bit value. */
  function FetchFrom(cp: Checkpoint): Uid {
    if cp.last == MAX_UID then cp.last else cp.last + 1
  }

  function Max(a: nat, b: nat): nat {
    if a < b then b else a
  }

  // ---- the transactions ----

  function Prepare(f: Folder, action: Action, validity: nat): Folder {
    f.(rows := if action == Rebuild then {} else f.rows, validity := validity)
  }

  function Store(f: Folder, validity: nat, uid: Uid): Folder {
    f.(rows := f.rows + {Location(validity, uid)})
  }

  /** A row is deleted when it is of another generation, or below UIDNEXT and not in the snapshot. */
  predicate Stale(snap: Snapshot, row: Location) {
    row.validity != snap.validity || (row.uid < snap.uidNext && row.uid !in snap.uids)
  }

  function Reconcile(f: Folder, snap: Snapshot): Folder {
    f.(rows := set row | row in f.rows && !Stale(snap, row))
  }

  /** Within one generation the last UID never moves back. */
  function Complete(f: Folder, validity: nat, last: Uid): Folder {
    f.(last := if f.validity == validity then Max(f.last, last) else last, validity := validity)
  }

  function CompleteBackfill(f: Folder): Folder {
    f.(backfillPending := false)
  }

  // ---- the loops around them ----

  predicate Distinct(uids: seq<Uid>) {
    forall i, j :: 0 <= i < j < |uids| ==> uids[i] != uids[j]
  }

  datatype SnapshotCheck = Valid(uids: set<Uid>) | Invalid

  /** A snapshot is applied only if its UIDs are distinct and non-zero and its states match them one to one. */
  method ValidateFolderSnapshot(validity: nat, uidNext: Uid, uids: seq<Uid>, states: seq<Uid>) returns (check: SnapshotCheck)
    ensures check.Valid? <==>
              && validity != 0 && uidNext != 0 && |uids| <= SEARCH_LIMIT
              && Distinct(uids) && 0 !in uids
              && Distinct(states) && (forall u :: u in uids <==> u in states)
    ensures check.Valid? ==> forall u :: u in check.uids <==> u in uids
  {
    if validity == 0 || uidNext == 0 || |uids| > SEARCH_LIMIT {
      return Invalid;
    }
    var remote := CollectUids(uids);
    if remote == None {
      return Invalid;
    }
    var matching := StatesMatch(states, remote.value);
    return if matching then Valid(remote.value) else Invalid;
  }

  method CollectUids(uids: seq<Uid>) returns (remote: Option<set<Uid>>)
    ensures remote.Some? <==> Distinct(uids) && 0 !in uids
    ensures remote.Some? ==> forall u :: u in remote.value <==> u in uids
  {
    var found: set<Uid> := {};
    for i := 0 to |uids|
      invariant forall u :: u in found <==> u in uids[..i]
      invariant Distinct(uids[..i]) && 0 !in uids[..i]
    {
      if uids[i] == 0 || uids[i] in found {
        assert uids[i] == 0 || exists j :: 0 <= j < i && uids[j] == uids[i];
        return None;
      }
      found := found + {uids[i]};
    }
    assert uids[..|uids|] == uids;
    return Some(found);
  }

  method StatesMatch(states: seq<Uid>, remote: set<Uid>) returns (ok: bool)
    ensures ok <==> Distinct(states) && forall u :: u in remote <==> u in states
  {
    if |states| != |remote| {
      if Distinct(states) && forall u :: u in states <==> u in remote {
        SizeOfDistinct(states, remote);
      }
      return false;
    }
    var seen: set<Uid> := {};
    for i := 0 to |states|
      invariant forall u :: u in seen <==> u in states[..i]
      invariant Distinct(states[..i]) && seen <= remote && |seen| == i
    {
      if states[i] !in remote || states[i] in seen {
        assert states[i] in states;
        assert states[i] in seen ==> exists j :: 0 <= j < i && states[j] == states[i];
        return false;
      }
      seen := seen + {states[i]};
    }
    assert states[..|states|] == states;
    FullSubset(seen, remote);
    return true;
  }

  lemma {:induction false} SizeOfDistinct(xs: seq<Uid>, s: set<Uid>)
    requires Distinct(xs) && forall u :: u in xs <==> u in s
    ensures |xs| == |s|
    decreases |xs|
  {
    if xs == [] {
      assert s == {};
    } else {
      var last := xs[|xs| - 1];
      assert xs == xs[..|xs| - 1] + [last];
      SizeOfDistinct(xs[..|xs| - 1], s - {last});
    }
  }

  lemma FullSubset(a: set<Uid>, b: set<Uid>)
    requires a <= b && |a| == |b|
    ensures a == b
  {
    assert |b - a| == 0;
  }

  /** Keeps the probed UIDs that are not already covered and finds the highest of them. */
  method FreshUids(uids: seq<Uid>, from: Uid) returns (news: seq<Uid>, highest: Uid)
    ensures forall u :: u in news <==> u in uids && u >= from
    ensures Distinct(uids) ==> Distinct(news)
    ensures forall u :: u in news ==> u <= highest
    ensures highest == 0 || highest in news
  {
    news, highest := [], 0;
    for i := 0 to |uids|
      invariant forall u :: u in news <==> u in uids[..i] && u >= from
      invariant Distinct(uids) ==> Distinct(news)
      invariant forall u :: u in news ==> u <= highest
      invariant highest == 0 || highest in news
    {
      if uids[i] >= from {
        assert Distinct(uids) ==> uids[i] !in uids[..i];
        news := news + [uids[i]];
        if uids[i] > highest {
          highest := uids[i];
        }
      }
    }
    assert uids[..|uids|] == uids;
  }

  /** Cuts the work into batches that cover it once, in order. */
  method Batches(uids: seq<Uid>, batchSize: nat) returns (batches: seq<seq<Uid>>)
    requires 0 < batchSize
    ensures Flatten(batches) == uids
    ensures forall b :: b in batches ==> 0 < |b| <= batchSize
  {
    batches := [];
    var start := 0;
    while start < |uids|
      invariant 0 <= start <= |uids|
      invariant Flatten(batches) == uids[..start]
      invariant forall b :: b in batches ==> 0 < |b| <= batchSize
    {
      var end := start + batchSize;
      if end > |uids| {
        end := |uids|;
      }
      FlattenAppend(batches, uids[start..end]);
      assert uids[..start] + uids[start..end] == uids[..end];
      batches := batches + [uids[start..end]];
      start := end;
    }
    assert uids[..|uids|] == uids;
  }

  function Flatten(xss: seq<seq<Uid>>): seq<Uid> {
    if xss == [] then [] else xss[0] + Flatten(xss[1..])
  }

  lemma {:induction false} FlattenAppend(xss: seq<seq<Uid>>, xs: seq<Uid>)
    ensures Flatten(xss + [xs]) == Flatten(xss) + xs
    decreases |xss|
  {
    if xss == [] {
      assert [xs][1..] == [];
    } else {
      FlattenAppend(xss[1..], xs);
      assert (xss + [xs])[1..] == xss[1..] + [xs];
    }
  }

  /** The folder's rows and checkpoint, updated in place by each transaction. */
  class IngestStore {
    var rows: set<Location>
    var validity: nat
    var last: Uid
    var backfillPending: bool

    ghost function View(): Folder
      reads this
    {
      Folder(rows, validity, last, backfillPending)
    }

    method PrepareFolder(action: Action, observed: nat)
      modifies this
      ensures View() == Prepare(old(View()), action, observed)
    {
      if action == Rebuild {
        rows := {};
      }
      validity := observed;
    }

    method StoreMessage(v: nat, uid: Uid) returns (ok: bool)
      modifies this
      ensures ok == (v != 0 && uid != 0)
      ensures View() == if ok then Store(old(View()), v, uid) else old(View())
    {
      ok := v != 0 && uid != 0;
      if ok {
        rows := rows + {Location(v, uid)};
      }
    }

    /** Visits the rows one by one and deletes those the snapshot shows to be stale. */
    method ReconcileFolder(snap: Snapshot)
      modifies this
      ensures View() == Reconcile(old(View()), snap)
    {
      var todo := rows;
      while todo != {}
        invariant todo <= rows <= old(rows)
        invariant forall row :: row in old(rows) && row !in todo ==> (row in rows <==> !Stale(snap, row))
        invariant forall row :: row in todo ==> row in rows
        invariant View() == old(View()).(rows := rows)
        decreases |todo|
      {
        var row :| row in todo;
        todo := todo - {row};
        if row.validity != snap.validity || (row.uid < snap.uidNext && row.uid !in snap.uids) {
          rows := rows - {row};
        }
      }
    }

    method CompleteFolder(v: nat, lastUid: Uid)
      modifies this
      ensures View() == Complete(old(View()), v, lastUid)
    {
      if validity == v {
        if last < lastUid {
          last := lastUid;
        }
      } else {
        last := lastUid;
      }
      validity := v;
    }

    method FinishBackfill()
      modifies this
      ensures View() == CompleteBackfill(old(View()))
    {
      backfillPending := false;
    }
  }
}

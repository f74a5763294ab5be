/**
 The search for a release marker in a file that is read in pieces. Only the last `|marker| - 1`
 bytes are kept between two reads; the answer is that of a search in the whole file.
 */
module MarkerSearch {
  import opened Sequences

  newtype Byte = b: int | 0 <= b < 0x100

  datatype End = More | EndOfFile | ReadFailed

  /** What one call of Read returned: some bytes, possibly none, and how it ended. */
  datatype Read = Read(data: seq<Byte>, end: End)

  datatype Answer = Found | NotFound | Failed

  /** The bytes the file gives until a read ends it. */
  ghost function Bytes(pieces: seq<Read>): seq<Byte> {
    if pieces == [] then []
    else pieces[0].data + (if pieces[0].end == More then Bytes(pieces[1..]) else [])
  }

  ghost function Ending(pieces: seq<Read>): End {
    if pieces == [] then More else if pieces[0].end != More then pieces[0].end else Ending(pieces[1..])
  }

  predicate IsAt(s: seq<Byte>, marker: seq<Byte>, i: nat) {
    i + |marker| <= |s| && forall k :: 0 <= k < |marker| ==> s[i + k] == marker[k]
  }

  predicate Contains(s: seq<Byte>, marker: seq<Byte>) {
    exists i :: 0 <= i <= |s| && IsAt(s, marker, i)
  }

  /** `part` is what `whole` holds from `at` on. */
  ghost predicate IsPart(part: seq<Byte>, whole: seq<Byte>, at: nat) {
    at + |part| <= |whole| && forall k :: 0 <= k < |part| ==> part[k] == whole[at + k]
  }

  lemma OccursAround(part: seq<Byte>, whole: seq<Byte>, at: nat, marker: seq<Byte>, i: nat)
    requires IsPart(part, whole, at) && IsAt(part, marker, i)
    ensures IsAt(whole, marker, at + i)
  {
    forall k | 0 <= k < |marker| ensures whole[at + i + k] == marker[k] {
      assert part[i + k] == marker[k];
    }
  }

  lemma OccursInside(part: seq<Byte>, whole: seq<Byte>, at: nat, marker: seq<Byte>, i: nat)
    requires IsPart(part, whole, at) && IsAt(whole, marker, i) && at <= i && i + |marker| <= at + |part|
    ensures IsAt(part, marker, i - at)
  {
    forall k | 0 <= k < |marker| ensures part[i - at + k] == marker[k] {
      assert whole[i + k] == marker[k] && part[i - at + k] == whole[at + (i - at + k)];
    }
  }

  /** With no marker in what came before, its last `|marker| - 1` bytes decide. */
  lemma WindowDecides(seen: seq<Byte>, data: seq<Byte>, marker: seq<Byte>)
    requires marker != [] && !Contains(seen, marker)
    ensures Contains(Last(seen, |marker| - 1) + data, marker) <==> Contains(seen + data, marker)
  {
    var window, all := Last(seen, |marker| - 1) + data, seen + data;
    var skipped := |all| - |window|;
    assert IsPart(window, all, skipped) && IsPart(seen, all, 0);
    if i :| 0 <= i <= |window| && IsAt(window, marker, i) {
      OccursAround(window, all, skipped, marker, i);
    }
    if i :| 0 <= i <= |all| && IsAt(all, marker, i) {
      if i < skipped {
        OccursInside(seen, all, 0, marker, i);
      } else {
        OccursInside(window, all, skipped, marker, i);
      }
    }
  }

  lemma FoundEarly(seen: seq<Byte>, rest: seq<Byte>, marker: seq<Byte>)
    requires Contains(seen, marker)
    ensures Contains(seen + rest, marker)
  {
    var i :| 0 <= i <= |seen| && IsAt(seen, marker, i);
    assert IsPart(seen, seen + rest, 0);
    OccursAround(seen, seen + rest, 0, marker, i);
  }

  /** Searches the bytes of one read, given what is kept of `seen`, and says what to keep next. */
  method Scan(tail: seq<Byte>, data: seq<Byte>, marker: seq<Byte>, ghost seen: seq<Byte>)
    returns (hit: bool, kept: seq<Byte>)
    requires marker != [] && tail == Last(seen, |marker| - 1) && !Contains(seen, marker)
    ensures hit <==> Contains(seen + data, marker)
    ensures !hit ==> kept == Last(seen + data, |marker| - 1)
  {
    WindowDecides(seen, data, marker);
    LastOfLast(seen, data, |marker| - 1);
    hit, kept := false, tail;
    if data != [] {
      var window := tail + data;
      hit := Contains(window, marker);
      if !hit {
        kept := Last(window, |marker| - 1);
      }
    } else {
      assert seen + data == seen;
    }
  }

  lemma BytesOfFirst(pieces: seq<Read>, seen: seq<Byte>)
    requires pieces != []
    ensures pieces[0].end == More ==> seen + Bytes(pieces) == (seen + pieces[0].data) + Bytes(pieces[1..])
    ensures pieces[0].end != More ==> seen + Bytes(pieces) == seen + pieces[0].data
  {
  }

  lemma NothingSeen(marker: seq<Byte>)
    requires marker != []
    ensures !Contains([], marker) && Last<Byte>([], |marker| - 1) == []
  {
  }

  /** The marker is reported exactly when the bytes read hold it, however they were split. */
  method FileContainsMarker(pieces: seq<Read>, marker: seq<Byte>) returns (answer: Answer)
    requires marker != [] && Ending(pieces) != More
    ensures answer == Found <==> Contains(Bytes(pieces), marker)
    ensures answer == Failed <==> !Contains(Bytes(pieces), marker) && Ending(pieces) == ReadFailed
  {
    var tail: seq<Byte> := [];
    var rest := pieces;
    ghost var seen: seq<Byte> := [];
    assert seen + Bytes(rest) == Bytes(pieces);
    NothingSeen(marker);
    while true
      invariant Ending(rest) == Ending(pieces) != More && seen + Bytes(rest) == Bytes(pieces)
      invariant tail == Last(seen, |marker| - 1) && !Contains(seen, marker)
      decreases |rest|
    {
      BytesOfFirst(rest, seen);
      var piece := rest[0];
      var hit, kept := Scan(tail, piece.data, marker, seen);
      seen := seen + piece.data;
      if hit {
        if piece.end == More {
          FoundEarly(seen, Bytes(rest[1..]), marker);
        }
        return Found;
      }
      if piece.end != More {
        return if piece.end == EndOfFile then NotFound else Failed;
      }
      tail := kept;
      rest := rest[1..];
    }
  }
}

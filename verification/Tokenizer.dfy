/**
 Search tokens: Latin words, and the overlapping one- to three-rune grams of CJK runs. The loop over
 the runes is proved against runs of one class; the properties search relies on are proved of those.
 */
module Tokenizer {
  import opened Strings

  datatype Kind = Cjk | Word | Boundary

  /** The Unicode tables the tokenizer consults. White space is a boundary, in lower case too. */
  datatype Unicode = Unicode(kind: char -> Kind, lower: char -> char) {
    ghost predicate Valid() {
      forall c :: IsSpace(c) ==> kind(lower(c)) == Boundary
    }
  }

  // ---- the specification ----

  /** The length of the run of one class at the front. */
  function RunLength(kind: char -> Kind, s: string): (n: nat)
    requires s != ""
    ensures 0 < n <= |s|
  {
    if |s| == 1 || kind(s[1]) != kind(s[0]) then 1 else 1 + RunLength(kind, s[1..])
  }

  lemma {:induction false} RunIsMaximal(kind: char -> Kind, s: string)
    requires s != ""
    ensures var n := RunLength(kind, s);
      && (forall i :: 0 <= i < n ==> kind(s[i]) == kind(s[0]))
      && (n < |s| ==> kind(s[n]) != kind(s[0]))
  {
    if |s| > 1 && kind(s[1]) == kind(s[0]) {
      RunIsMaximal(kind, s[1..]);
      var n := RunLength(kind, s);
      forall i | 0 < i < n ensures kind(s[i]) == kind(s[0]) {
        assert s[i] == s[1..][i - 1];
      }
    }
  }

  /** The grams of one size, by place. */
  function GramsOf(run: string, size: nat): (r: seq<string>)
    ensures |r| == if size <= |run| then |run| - size + 1 else 0
  {
    seq(if size <= |run| then |run| - size + 1 else 0, i requires 0 <= i && i + size <= |run| => run[i..i + size])
  }

  /** All grams of the run, by size and then by place. */
  function Grams(run: string): seq<string> {
    GramsOf(run, 1) + GramsOf(run, 2) + GramsOf(run, 3)
  }

  function RunTokens(kind: char -> Kind, run: string): seq<string> {
    if run == "" then []
    else match kind(run[0])
      case Cjk => Grams(run)
      case Word => [run]
      case Boundary => []
  }

  /** The maximal runs of one class, without the boundaries between them. */
  function Runs(kind: char -> Kind, s: string): seq<string> {
    if s == "" then []
    else if kind(s[0]) == Boundary then Runs(kind, s[1..])
    else var n := RunLength(kind, s);
      [s[..n]] + Runs(kind, s[n..])
  }

  function Flatten(kind: char -> Kind, runs: seq<string>): seq<string> {
    if runs == [] then [] else RunTokens(kind, runs[0]) + Flatten(kind, runs[1..])
  }

  /** The tokens of the maximal runs, in order. */
  function TokensOf(kind: char -> Kind, s: string): seq<string> {
    Flatten(kind, Runs(kind, s))
  }

  function Lowered(u: Unicode, s: string): (r: string)
    ensures |r| == |s|
  {
    seq(|s|, i requires 0 <= i < |s| => u.lower(s[i]))
  }

  /** What `Tokens` computes. */
  function Tokens(u: Unicode, input: string): seq<string> {
    TokensOf(u.kind, Lowered(u, Trim(input, IsSpace)))
  }

  // ---- the runs are the maximal ones ----

  /** From `i` to `j` the text is of one class other than Boundary, and no longer stretch around it is. */
  ghost predicate IsMaximalRun(kind: char -> Kind, s: string, i: nat, j: nat) {
    && i < j <= |s| && kind(s[i]) != Boundary
    && (forall k :: i <= k < j ==> kind(s[k]) == kind(s[i]))
    && (i > 0 ==> kind(s[i - 1]) != kind(s[i]))
    && (j < |s| ==> kind(s[j]) != kind(s[i]))
  }

  ghost predicate IsRunFrom(kind: char -> Kind, s: string, k: nat, run: string) {
    exists i: nat, j: nat :: k <= i && IsMaximalRun(kind, s, i, j) && run == s[i..j]
  }

  lemma FirstRunIsMaximal(kind: char -> Kind, s: string, k: nat)
    requires k < |s| && kind(s[k]) != Boundary && (k > 0 ==> kind(s[k - 1]) != kind(s[k]))
    ensures var n := RunLength(kind, s[k..]);
      && IsMaximalRun(kind, s, k, k + n)
      && forall i, j :: k <= i < k + n && IsMaximalRun(kind, s, i, j) ==> i == k && j == k + n
  {
    RunIsMaximal(kind, s[k..]);
    var n := RunLength(kind, s[k..]);
    assert forall i :: k <= i < k + n ==> s[i] == s[k..][i - k];
    assert n < |s[k..]| ==> s[k + n] == s[k..][n];
  }

  lemma {:induction false} RunsFromAreMaximal(kind: char -> Kind, s: string, k: nat, run: string)
    requires k <= |s| && (0 < k < |s| ==> kind(s[k - 1]) != kind(s[k]) || kind(s[k - 1]) == Boundary)
    ensures run in Runs(kind, s[k..]) <==> IsRunFrom(kind, s, k, run)
    decreases |s| - k
  {
    if k < |s| {
      if kind(s[k]) == Boundary {
        assert s[k..][1..] == s[k + 1..];
        RunsFromAreMaximal(kind, s, k + 1, run);
        assert IsRunFrom(kind, s, k, run) <==> IsRunFrom(kind, s, k + 1, run);
      } else {
        FirstRunIsMaximal(kind, s, k);
        var next := k + RunLength(kind, s[k..]);
        assert s[k..][..next - k] == s[k..next] && s[k..][next - k..] == s[next..];
        RunsFromAreMaximal(kind, s, next, run);
        assert IsRunFrom(kind, s, k, run) <==> run == s[k..next] || IsRunFrom(kind, s, next, run);
      }
    }
  }

  /** The runs are exactly the maximal stretches of one class. */
  lemma RunsAreMaximal(kind: char -> Kind, s: string, run: string)
    ensures run in Runs(kind, s) <==> exists i: nat, j: nat :: IsMaximalRun(kind, s, i, j) && run == s[i..j]
  {
    assert s[0..] == s;
    RunsFromAreMaximal(kind, s, 0, run);
    assert IsRunFrom(kind, s, 0, run) <==> exists i: nat, j: nat :: IsMaximalRun(kind, s, i, j) && run == s[i..j];
  }

  // ---- where the text may be cut ----

  lemma {:induction false} RunStopsAt(kind: char -> Kind, a: string, b: string)
    requires a != "" && (b == "" || kind(a[|a| - 1]) != kind(b[0]))
    ensures RunLength(kind, a + b) == RunLength(kind, a)
  {
    if |a| > 1 {
      assert (a + b)[1..] == a[1..] + b;
      RunStopsAt(kind, a[1..], b);
    }
  }

  lemma CutInside<T>(a: seq<T>, b: seq<T>, n: nat)
    requires n <= |a|
    ensures (a + b)[..n] == a[..n] && (a + b)[n..] == a[n..] + b
  {
  }

  lemma FirstRunSplits(kind: char -> Kind, a: string, b: string)
    requires a != "" && kind(a[0]) != Boundary && (b == "" || kind(a[|a| - 1]) != kind(b[0]))
    ensures var n := RunLength(kind, a); Runs(kind, a + b) == [a[..n]] + Runs(kind, a[n..] + b)
  {
    RunStopsAt(kind, a, b);
    CutInside(a, b, RunLength(kind, a));
  }

  lemma {:induction false} RunsSplit(kind: char -> Kind, a: string, b: string)
    requires a == "" || b == "" || kind(a[|a| - 1]) != kind(b[0])
    ensures Runs(kind, a + b) == Runs(kind, a) + Runs(kind, b)
    decreases |a|
  {
    if a == "" {
      assert a + b == b;
    } else if kind(a[0]) == Boundary {
      assert (a + b)[1..] == a[1..] + b;
      RunsSplit(kind, a[1..], b);
    } else {
      FirstRunSplits(kind, a, b);
      RunsSplit(kind, a[RunLength(kind, a)..], b);
    }
  }

  lemma {:induction false} FlattenJoins(kind: char -> Kind, xs: seq<string>, ys: seq<string>)
    ensures Flatten(kind, xs + ys) == Flatten(kind, xs) + Flatten(kind, ys)
  {
    if xs == [] {
      assert xs + ys == ys;
    } else {
      assert (xs + ys)[1..] == xs[1..] + ys;
      FlattenJoins(kind, xs[1..], ys);
    }
  }

  /** Between two classes the text may be cut: its tokens are those of the two parts. */
  lemma TokensSplit(kind: char -> Kind, a: string, b: string)
    requires a == "" || b == "" || kind(a[|a| - 1]) != kind(b[0])
    ensures TokensOf(kind, a + b) == TokensOf(kind, a) + TokensOf(kind, b)
  {
    RunsSplit(kind, a, b);
    FlattenJoins(kind, Runs(kind, a), Runs(kind, b));
  }

  lemma {:induction false} BoundarySeparatesRuns(kind: char -> Kind, a: string, c: char, b: string)
    requires kind(c) == Boundary
    ensures Runs(kind, a + [c] + b) == Runs(kind, a) + Runs(kind, b)
    decreases |a|
  {
    assert ([c] + b)[1..] == b;
    assert a + [c] + b == a + ([c] + b);
    if a == "" {
      assert a + ([c] + b) == [c] + b;
    } else if kind(a[|a| - 1]) != Boundary {
      RunsSplit(kind, a, [c] + b);
    } else {
      var init, last := a[..|a| - 1], a[|a| - 1];
      assert init + [last] + ([c] + b) == a + ([c] + b) && init + [last] + "" == a;
      BoundarySeparatesRuns(kind, init, last, [c] + b);
      BoundarySeparatesRuns(kind, init, last, "");
    }
  }

  /** A boundary rune separates: the text before and the text after give their tokens independently. */
  lemma BoundarySeparates(kind: char -> Kind, a: string, c: char, b: string)
    requires kind(c) == Boundary
    ensures TokensOf(kind, a + [c] + b) == TokensOf(kind, a) + TokensOf(kind, b)
  {
    BoundarySeparatesRuns(kind, a, c, b);
    FlattenJoins(kind, Runs(kind, a), Runs(kind, b));
  }

  lemma {:induction false} BoundariesGiveNothing(kind: char -> Kind, s: string, t: string)
    requires forall i :: 0 <= i < |s| ==> kind(s[i]) == Boundary
    ensures TokensOf(kind, s + t) == TokensOf(kind, t) && TokensOf(kind, t + s) == TokensOf(kind, t)
  {
    if s == "" {
      assert s + t == t && t + s == t;
    } else {
      assert (s + t)[1..] == s[1..] + t;
      BoundariesGiveNothing(kind, s[1..], t);
      BoundarySeparates(kind, t, s[0], s[1..]);
      assert t + [s[0]] + s[1..] == t + s;
      BoundariesGiveNothing(kind, s[1..], "");
      assert s[1..] + "" == s[1..];
    }
  }

  lemma LoweredJoins(u: Unicode, a: string, b: string)
    ensures Lowered(u, a + b) == Lowered(u, a) + Lowered(u, b)
  {
  }

  lemma TrimmingLeftIsInvisible(u: Unicode, input: string)
    requires u.Valid()
    ensures TokensOf(u.kind, Lowered(u, TrimLeft(input, IsSpace))) == TokensOf(u.kind, Lowered(u, input))
  {
    var left := TrimLeft(input, IsSpace);
    TrimLeftCuts(input, IsSpace);
    var front := input[..|input| - |left|];
    assert input == front + left;
    LoweredJoins(u, front, left);
    BoundariesGiveNothing(u.kind, Lowered(u, front), Lowered(u, left));
  }

  lemma TrimmingRightIsInvisible(u: Unicode, input: string)
    requires u.Valid()
    ensures TokensOf(u.kind, Lowered(u, TrimRight(input, IsSpace))) == TokensOf(u.kind, Lowered(u, input))
  {
    var rest := TrimRight(input, IsSpace);
    TrimRightCuts(input, IsSpace);
    var back := input[|rest|..];
    assert input == rest + back;
    LoweredJoins(u, rest, back);
    BoundariesGiveNothing(u.kind, Lowered(u, back), Lowered(u, rest));
  }

  /** Trimming removes no token. */
  lemma TrimmingIsInvisible(u: Unicode, input: string)
    requires u.Valid()
    ensures Tokens(u, input) == TokensOf(u.kind, Lowered(u, input))
  {
    TrimmingLeftIsInvisible(u, input);
    TrimmingRightIsInvisible(u, TrimLeft(input, IsSpace));
  }

  /** `Tokens` distributes over a boundary rune. */
  lemma TokensDistribute(u: Unicode, a: string, c: char, b: string)
    requires u.Valid() && u.kind(u.lower(c)) == Boundary
    ensures Tokens(u, a + [c] + b) == Tokens(u, a) + Tokens(u, b)
  {
    TrimmingIsInvisible(u, a + [c] + b);
    TrimmingIsInvisible(u, a);
    TrimmingIsInvisible(u, b);
    LoweredJoins(u, a + [c], b);
    LoweredJoins(u, a, [c]);
    assert Lowered(u, [c]) == [u.lower(c)];
    BoundarySeparates(u.kind, Lowered(u, a), u.lower(c), Lowered(u, b));
  }

  // ---- pieces of CJK text ----

  predicate IsPieceAt(run: string, g: string, i: nat) {
    i + |g| <= |run| && forall k :: 0 <= k < |g| ==> run[i + k] == g[k]
  }

  lemma GramsArePieces(run: string, g: string)
    ensures g in Grams(run) <==> 1 <= |g| <= 3 && exists i :: 0 <= i <= |run| && IsPieceAt(run, g, i)
  {
    if g in Grams(run) {
      var size :| 1 <= size <= 3 && g in GramsOf(run, size);
      var i :| 0 <= i < |GramsOf(run, size)| && GramsOf(run, size)[i] == g;
      assert IsPieceAt(run, g, i);
    }
    if 1 <= |g| <= 3 {
      if i :| 0 <= i <= |run| && IsPieceAt(run, g, i) {
        assert GramsOf(run, |g|)[i] == run[i..i + |g|] == g;
        assert g in GramsOf(run, 1) || g in GramsOf(run, 2) || g in GramsOf(run, 3);
      }
    }
  }

  lemma GramsOfPiece(run: string, at: nat, piece: string, g: string)
    requires IsPieceAt(run, piece, at) && g in Grams(piece)
    ensures g in Grams(run)
  {
    GramsArePieces(piece, g);
    var i :| 0 <= i <= |piece| && IsPieceAt(piece, g, i);
    forall k | 0 <= k < |g| ensures run[at + i + k] == g[k] {
      assert piece[i + k] == run[at + (i + k)];
    }
    assert IsPieceAt(run, g, at + i);
    GramsArePieces(run, g);
  }

  /** A text of one class gives the tokens of that run. */
  lemma UniformTokens(kind: char -> Kind, s: string)
    requires s != "" && kind(s[0]) != Boundary && forall i :: 0 <= i < |s| ==> kind(s[i]) == kind(s[0])
    ensures TokensOf(kind, s) == RunTokens(kind, s)
  {
    RunIsMaximal(kind, s);
    assert RunLength(kind, s) == |s| && s[..|s|] == s;
    assert Runs(kind, s) == [s];
    assert Flatten(kind, [s]) == RunTokens(kind, s) + [];
  }

  /** A run that reaches a CJK piece contains it. */
  lemma PieceIsInRun(kind: char -> Kind, a: string, q: string, b: string)
    requires q != "" && (forall i :: 0 <= i < |q| ==> kind(q[i]) == Cjk) && RunLength(kind, a + q + b) > |a|
    ensures kind((a + q + b)[0]) == Cjk
    ensures IsPieceAt((a + q + b)[..RunLength(kind, a + q + b)], q, |a|)
  {
    var s := a + q + b;
    var n := RunLength(kind, s);
    RunIsMaximal(kind, s);
    assert forall i :: |a| <= i < |a| + |q| ==> s[i] == q[i - |a|];
    assert kind(s[|a|]) == kind(q[0]);
    assert n >= |a| + |q|;
  }

  /** A CJK piece of a text lies inside one run of the text. */
  lemma {:induction false} PieceHasRun(kind: char -> Kind, a: string, q: string, b: string) returns (run: string, at: nat)
    requires q != "" && forall i :: 0 <= i < |q| ==> kind(q[i]) == Cjk
    ensures run in Runs(kind, a + q + b) && run != "" && kind(run[0]) == Cjk && IsPieceAt(run, q, at)
    decreases |a|
  {
    var s := a + q + b;
    if a != "" && kind(a[0]) == Boundary {
      assert s[1..] == a[1..] + q + b;
      run, at := PieceHasRun(kind, a[1..], q, b);
    } else if RunLength(kind, s) <= |a| {
      var n := RunLength(kind, s);
      assert s[n..] == a[n..] + q + b;
      run, at := PieceHasRun(kind, a[n..], q, b);
    } else {
      PieceIsInRun(kind, a, q, b);
      run, at := s[..RunLength(kind, s)], |a|;
    }
  }

  lemma {:induction false} RunTokensAreTokens(kind: char -> Kind, runs: seq<string>, run: string, g: string)
    requires run in runs && g in RunTokens(kind, run)
    ensures g in Flatten(kind, runs)
  {
    if runs[0] != run {
      RunTokensAreTokens(kind, runs[1..], run, g);
    }
  }

  /** Every gram of a CJK piece is a token of the text. */
  lemma PieceTokensAreTokens(kind: char -> Kind, a: string, q: string, b: string, g: string)
    requires forall i :: 0 <= i < |q| ==> kind(q[i]) == Cjk
    requires g in TokensOf(kind, q)
    ensures g in TokensOf(kind, a + q + b)
  {
    UniformTokens(kind, q);
    var run, at := PieceHasRun(kind, a, q, b);
    GramsOfPiece(run, at, q, g);
    RunTokensAreTokens(kind, Runs(kind, a + q + b), run, g);
  }

  /** The query built from a CJK piece of a text asks only for tokens of the text. */
  lemma PieceIsFound(u: Unicode, a: string, q: string, b: string, token: string)
    requires u.Valid() && (forall i :: 0 <= i < |q| ==> u.kind(u.lower(q[i])) == Cjk)
    requires token in Tokens(u, q)
    ensures token in Tokens(u, a + q + b)
  {
    TrimmingIsInvisible(u, q);
    TrimmingIsInvisible(u, a + q + b);
    LoweredJoins(u, a + q, b);
    LoweredJoins(u, a, q);
    PieceTokensAreTokens(u.kind, Lowered(u, a), Lowered(u, q), Lowered(u, b), token);
  }

  // ---- the loop ----

  method AllGrams(run: string) returns (r: seq<string>)
    ensures r == Grams(run)
  {
    r := [];
    for size := 1 to 4
      invariant r == if size == 1 then [] else if size == 2 then GramsOf(run, 1)
                     else if size == 3 then GramsOf(run, 1) + GramsOf(run, 2) else Grams(run)
    {
      ghost var before, grams := r, GramsOf(run, size);
      var start := 0;
      while start + size <= |run|
        invariant 0 <= start <= |grams| && r == before + grams[..start]
      {
        assert grams[..start + 1] == grams[..start] + [run[start..start + size]];
        r := r + [run[start..start + size]];
        start := start + 1;
      }
      assert grams[..start] == grams;
    }
  }

  /** The buffer `open` holds the runes from `k` to `i`, all of one class; the tokens before `k` are out. */
  ghost predicate Reading(kind: char -> Kind, text: string, k: nat, i: nat, open: string, one: Kind, result: seq<string>) {
    && k <= i <= |text| && open == text[k..i]
    && (forall j :: k <= j < i ==> kind(text[j]) == one)
    && result == TokensOf(kind, text[..k])
    && (k > 0 ==> kind(text[k - 1]) != one)
  }

  /** Writing out the buffered run accounts for everything read. */
  lemma FlushCompletes(kind: char -> Kind, text: string, k: nat, i: nat, open: string, one: Kind, result: seq<string>)
    requires Reading(kind, text, k, i, open, one, result) && one != Boundary && open != ""
    ensures result + RunTokens(kind, open) == TokensOf(kind, text[..i])
  {
    var front := text[..k];
    CutBetween(text, k, i);
    assert kind(open[0]) == one && (front != "" ==> kind(front[k - 1]) != one);
    UniformTokens(kind, open);
    TokensSplit(kind, front, open);
  }

  lemma CutBetween<T>(s: seq<T>, k: nat, i: nat)
    requires k <= i <= |s|
    ensures s[..i] == s[..k] + s[k..i]
  {
  }

  lemma BoundaryEnds(kind: char -> Kind, text: string, c: char)
    requires kind(c) == Boundary
    ensures TokensOf(kind, text + [c]) == TokensOf(kind, text)
  {
    BoundarySeparates(kind, text, c, "");
    assert text + [c] + "" == text + [c];
  }

  /** Everything before `i` is accounted for. */
  ghost predicate Settled(kind: char -> Kind, text: string, i: nat, result: seq<string>) {
    i <= |text| && result == TokensOf(kind, text[..i])
  }

  /** At most one buffer is in use, and it holds the run that is being read. */
  ghost predicate Buffered(kind: char -> Kind, text: string, k: nat, i: nat, word: string, cjk: string, result: seq<string>) {
    && (word == "" || cjk == "")
    && (word != "" ==> Reading(kind, text, k, i, word, Word, result))
    && (cjk != "" ==> Reading(kind, text, k, i, cjk, Cjk, result))
    && (word == "" && cjk == "" ==> Settled(kind, text, i, result) && (i > 0 ==> kind(text[i - 1]) == Boundary))
  }

  method FlushWord(kind: char -> Kind, word: string, result: seq<string>, ghost text: string, ghost k: nat, ghost i: nat)
    returns (r: seq<string>)
    requires word != "" ==> Reading(kind, text, k, i, word, Word, result)
    ensures if word == "" then r == result else Settled(kind, text, i, r)
  {
    r := result;
    if |word| > 0 {
      FlushCompletes(kind, text, k, i, word, Word, result);
      r := result + [word];
    }
  }

  method FlushCjk(kind: char -> Kind, cjk: string, result: seq<string>, ghost text: string, ghost k: nat, ghost i: nat)
    returns (r: seq<string>)
    requires cjk != "" ==> Reading(kind, text, k, i, cjk, Cjk, result)
    ensures if cjk == "" then r == result else Settled(kind, text, i, r)
  {
    if |cjk| == 0 {
      return result;
    }
    FlushCompletes(kind, text, k, i, cjk, Cjk, result);
    var grams := AllGrams(cjk);
    r := result + grams;
  }

  /** A rune of the class extends the run, or starts one where the last run of another class ended. */
  lemma RunGrows(kind: char -> Kind, text: string, k: nat, i: nat, open: string, one: Kind, result: seq<string>)
    requires i < |text| && kind(text[i]) == one
    requires Reading(kind, text, k, i, open, one, result)
             || (k == i && open == "" && Settled(kind, text, i, result) && (i > 0 ==> kind(text[i - 1]) != one))
    ensures Reading(kind, text, k, i + 1, open + [text[i]], one, result)
  {
  }

  lemma BoundarySettles(kind: char -> Kind, text: string, i: nat, result: seq<string>)
    requires i < |text| && kind(text[i]) == Boundary && Settled(kind, text, i, result)
    ensures Settled(kind, text, i + 1, result)
  {
    BoundaryEnds(kind, text[..i], text[i]);
    assert text[..i + 1] == text[..i] + [text[i]];
  }

  /** Reads one rune: it extends the run of its class, and ends any other. */
  method ReadRune(kind: char -> Kind, text: string, i: nat, word: string, cjk: string, result: seq<string>, ghost k: nat)
    returns (word': string, cjk': string, result': seq<string>, ghost k': nat)
    requires i < |text| && Buffered(kind, text, k, i, word, cjk, result)
    ensures Buffered(kind, text, k', i + 1, word', cjk', result')
  {
    var c := text[i];
    word', cjk', result', k' := word, cjk, result, if word == "" && cjk == "" then i else k;
    match kind(c)
    case Cjk =>
      result' := FlushWord(kind, word, result, text, k, i);
      k' := if word != "" then i else k';
      RunGrows(kind, text, k', i, cjk, Cjk, result');
      word', cjk' := "", cjk + [c];
    case Word =>
      result' := FlushCjk(kind, cjk, result, text, k, i);
      k' := if cjk != "" then i else k';
      RunGrows(kind, text, k', i, word, Word, result');
      word', cjk' := word + [c], "";
    case Boundary =>
      result' := FlushWord(kind, word, result, text, k, i);
      result' := FlushCjk(kind, cjk, result', text, k, i);
      BoundarySettles(kind, text, i, result');
      word', cjk' := "", "";
  }

  /** The tokens, with the runes of the current run buffered by class. */
  method Scan(u: Unicode, text: string) returns (result: seq<string>)
    ensures result == TokensOf(u.kind, text)
  {
    var word, cjk := "", "";
    ghost var k: nat := 0;
    result := [];
    for i := 0 to |text|
      invariant Buffered(u.kind, text, k, i, word, cjk, result)
    {
      word, cjk, result, k := ReadRune(u.kind, text, i, word, cjk, result, k);
    }
    assert text[..|text|] == text;
    result := FlushWord(u.kind, word, result, text, k, |text|);
    result := FlushCjk(u.kind, cjk, result, text, k, |text|);
  }

  /** Trims and lower-cases the input, then scans it. */
  method ComputeTokens(u: Unicode, input: string) returns (result: seq<string>)
    ensures result == Tokens(u, input)
  {
    result := Scan(u, Lowered(u, Trim(input, IsSpace)));
  }

  // ---- the MATCH expression ----

  /** The tokens without repetition, in the order of their first occurrence. */
  function Unique(tokens: seq<string>): (r: seq<string>)
    ensures forall t :: t in r <==> t in tokens
    ensures forall i, j :: 0 <= i < j < |r| ==> r[i] != r[j]
  {
    if tokens == [] then []
    else
      var init, last := tokens[..|tokens| - 1], tokens[|tokens| - 1];
      assert tokens == init + [last];
      if last in init then Unique(init) else Unique(init) + [last]
  }

  function Escape(t: string): string {
    if t == "" then "" else (if t[0] == '"' then ['"', '"'] else [t[0]]) + Escape(t[1..])
  }

  function Quote(t: string): string {
    ['"'] + Escape(t) + ['"']
  }

  const AND := " AND "

  function Join(terms: seq<string>): string {
    if terms == [] then ""
    else if |terms| == 1 then terms[0]
    else Join(terms[..|terms| - 1]) + AND + terms[|terms| - 1]
  }

  function Quoted(terms: seq<string>): seq<string> {
    seq(|terms|, i requires 0 <= i < |terms| => Quote(terms[i]))
  }

  method QuoteUnique(tokens: seq<string>) returns (quoted: seq<string>)
    ensures quoted == Quoted(Unique(tokens))
  {
    var seen: set<string> := {};
    quoted := [];
    for i := 0 to |tokens|
      invariant forall t :: t in seen <==> t in tokens[..i]
      invariant quoted == Quoted(Unique(tokens[..i]))
    {
      assert tokens[..i + 1][..i] == tokens[..i];
      if tokens[i] !in seen {
        seen := seen + {tokens[i]};
        quoted := quoted + [Quote(tokens[i])];
      }
    }
    assert tokens[..|tokens|] == tokens;
  }

  /** Every token once, quoted, joined by AND. */
  method MatchQuery(u: Unicode, input: string) returns (query: string)
    ensures query == Join(Quoted(Unique(Tokens(u, input))))
  {
    var tokens := ComputeTokens(u, input);
    var quoted := QuoteUnique(tokens);
    query := Join(quoted);
  }

  /** Reads a quoted string from after its opening quote: its content, and what follows the closing quote. */
  function ReadString(s: string): (r: (bool, string, string))
    ensures |r.2| <= |s|
  {
    if s == "" then (false, "", "")
    else if s[0] != '"' then var (ok, body, rest) := ReadString(s[1..]); (ok, [s[0]] + body, rest)
    else if |s| > 1 && s[1] == '"' then var (ok, body, rest) := ReadString(s[2..]); (ok, ['"'] + body, rest)
    else (true, "", s[1..])
  }

  /** Reads quoted strings joined by AND; anything else is no such expression. */
  function ReadTerms(s: string): (r: (bool, seq<string>))
    decreases |s|
  {
    if s == "" || s[0] != '"' then (false, [])
    else
      var (ok, term, rest) := ReadString(s[1..]);
      if !ok then (false, [])
      else if rest == "" then (true, [term])
      else if AND <= rest then
        var (more, terms) := ReadTerms(rest[|AND|..]);
        (more, [term] + terms)
      else (false, [])
  }

  lemma {:induction false} QuotedStringReads(t: string, rest: string)
    requires rest == "" || rest[0] != '"'
    ensures ReadString(Escape(t) + ['"'] + rest) == (true, t, rest)
  {
    var s := Escape(t) + ['"'] + rest;
    if t == "" {
      assert s == ['"'] + rest && s[1..] == rest;
    } else {
      QuotedStringReads(t[1..], rest);
      var tail := Escape(t[1..]) + ['"'] + rest;
      assert t == [t[0]] + t[1..];
      if t[0] == '"' {
        assert s == ['"', '"'] + tail && s[2..] == tail;
      } else {
        assert s == [t[0]] + tail && s[1..] == tail;
      }
    }
  }

  lemma {:induction false} JoinFromFront(terms: seq<string>)
    requires |terms| > 1
    ensures Join(terms) == terms[0] + (AND + Join(terms[1..]))
  {
    var n := |terms| - 1;
    if n > 1 {
      JoinFromFront(terms[..n]);
      assert terms[..n][1..] == terms[1..][..n - 1];
      assert Join(terms) == terms[0] + (AND + Join(terms[1..n])) + AND + terms[n];
      assert terms[..n][1..] == terms[1..n];
    } else {
      assert terms[1..] == [terms[1]];
      assert terms[..1] == [terms[0]];
    }
  }

  lemma FirstTermReads(t: string, rest: string)
    requires rest == "" || AND <= rest
    ensures rest == "" ==> ReadTerms(Quote(t) + rest) == (true, [t])
    ensures rest != "" ==>
      var (ok, terms) := ReadTerms(rest[|AND|..]); ReadTerms(Quote(t) + rest) == (ok, [t] + terms)
  {
    var s := Quote(t) + rest;
    assert rest != "" ==> rest[0] == AND[0];
    assert s[1..] == Escape(t) + ['"'] + rest;
    QuotedStringReads(t, rest);
  }

  lemma QueryFromFront(terms: seq<string>)
    requires terms != []
    ensures Join(Quoted(terms)) == Quote(terms[0]) + (if |terms| == 1 then "" else AND + Join(Quoted(terms[1..])))
  {
    var quoted := Quoted(terms);
    if |terms| > 1 {
      JoinFromFront(quoted);
      assert quoted[1..] == Quoted(terms[1..]);
    }
  }

  /** Whatever the tokens are, the expression asks for exactly them: nothing in a token acts as syntax. */
  lemma {:induction false} QueryReadsAsItsTerms(terms: seq<string>)
    requires terms != []
    ensures ReadTerms(Join(Quoted(terms))) == (true, terms)
  {
    QueryFromFront(terms);
    if |terms| == 1 {
      FirstTermReads(terms[0], "");
      assert terms == [terms[0]];
    } else {
      var left := Join(Quoted(terms[1..]));
      QueryReadsAsItsTerms(terms[1..]);
      FirstTermReads(terms[0], AND + left);
      assert (AND + left)[|AND|..] == left;
      assert terms == [terms[0]] + terms[1..];
    }
  }

  /** The query built from a CJK piece of a text matches the text: each of its terms is a token of the text. */
  lemma PieceMatches(u: Unicode, a: string, q: string, b: string)
    requires u.Valid() && q != "" && (forall i :: 0 <= i < |q| ==> u.kind(u.lower(q[i])) == Cjk)
    ensures var (ok, terms) := ReadTerms(Join(Quoted(Unique(Tokens(u, q)))));
      ok && terms != [] && forall t :: t in terms ==> t in Tokens(u, a + q + b)
  {
    TrimmingIsInvisible(u, q);
    UniformTokens(u.kind, Lowered(u, q));
    assert GramsOf(Lowered(u, q), 1)[0] in Tokens(u, q);
    QueryReadsAsItsTerms(Unique(Tokens(u, q)));
    forall t | t in Tokens(u, q) ensures t in Tokens(u, a + q + b) {
      PieceIsFound(u, a, q, b, t);
    }
  }
}

/**
 Which tokens a text has, told by the classes of its runes: the words in it, and the pieces of up to three
 CJK runes, and in which order a text of one class gives them.
 */
module TokenizerFacts {
  import opened Strings
  import opened Tokenizer

  /** From `i` to `j` the text is one whole word. */
  ghost predicate IsWholeWord(kind: char -> Kind, s: string, i: nat, j: nat) {
    && i < j <= |s|
    && (forall k :: i <= k < j ==> kind(s[k]) == Word)
    && (i > 0 ==> kind(s[i - 1]) != Word) && (j < |s| ==> kind(s[j]) != Word)
  }

  /** From `i` to `j` there are one to three CJK runes. */
  ghost predicate IsCjkPiece(kind: char -> Kind, s: string, i: nat, j: nat) {
    i < j <= |s| && j - i <= 3 && forall k :: i <= k < j ==> kind(s[k]) == Cjk
  }

  ghost predicate HasWord(kind: char -> Kind, s: string, t: string) {
    exists i: nat, j: nat :: IsWholeWord(kind, s, i, j) && t == s[i..j]
  }

  ghost predicate HasPiece(kind: char -> Kind, s: string, t: string) {
    exists i: nat, j: nat :: IsCjkPiece(kind, s, i, j) && t == s[i..j]
  }

  lemma {:induction false} TokenHasRun(kind: char -> Kind, runs: seq<string>, t: string) returns (run: string)
    requires t in Flatten(kind, runs)
    ensures run in runs && t in RunTokens(kind, run)
  {
    if t in RunTokens(kind, runs[0]) {
      run := runs[0];
    } else {
      run := TokenHasRun(kind, runs[1..], t);
    }
  }

  /** Every token is a whole word or a CJK piece. */
  lemma TokenIsInText(kind: char -> Kind, s: string, t: string)
    requires t in TokensOf(kind, s)
    ensures HasWord(kind, s, t) || HasPiece(kind, s, t)
  {
    var run := TokenHasRun(kind, Runs(kind, s), t);
    RunsAreMaximal(kind, s, run);
    var i: nat, j: nat :| IsMaximalRun(kind, s, i, j) && run == s[i..j];
    if kind(s[i]) == Word {
      assert IsWholeWord(kind, s, i, j);
    } else {
      GramIsPiece(kind, s, i, j, t);
    }
  }

  lemma GramIsPiece(kind: char -> Kind, s: string, i: nat, j: nat, t: string)
    requires i < j <= |s| && (forall k :: i <= k < j ==> kind(s[k]) == Cjk) && t in Grams(s[i..j])
    ensures HasPiece(kind, s, t)
  {
    var run := s[i..j];
    GramsArePieces(run, t);
    var at :| 0 <= at <= |run| && IsPieceAt(run, t, at);
    var from := i + at;
    forall k | 0 <= k < |t|
      ensures s[from + k] == t[k]
    {
      assert run[at + k] == t[k];
    }
    assert t == s[from..from + |t|];
    assert IsCjkPiece(kind, s, from, from + |t|);
  }

  /** Every whole word is a token. */
  lemma WordIsToken(kind: char -> Kind, s: string, i: nat, j: nat)
    requires IsWholeWord(kind, s, i, j)
    ensures s[i..j] in TokensOf(kind, s)
  {
    assert IsMaximalRun(kind, s, i, j);
    RunsAreMaximal(kind, s, s[i..j]);
    RunTokensAreTokens(kind, Runs(kind, s), s[i..j], s[i..j]);
  }

  lemma SmallPieceIsOwnToken(kind: char -> Kind, piece: string)
    requires 1 <= |piece| <= 3 && forall k :: 0 <= k < |piece| ==> kind(piece[k]) == Cjk
    ensures piece in TokensOf(kind, piece)
  {
    UniformTokens(kind, piece);
    assert IsPieceAt(piece, piece, 0);
    GramsArePieces(piece, piece);
  }

  /** Every CJK piece is a token. */
  lemma PieceIsToken(kind: char -> Kind, s: string, i: nat, j: nat)
    requires IsCjkPiece(kind, s, i, j)
    ensures s[i..j] in TokensOf(kind, s)
  {
    var a, piece, b := s[..i], s[i..j], s[j..];
    assert s == a + piece + b;
    SmallPieceIsOwnToken(kind, piece);
    PieceTokensAreTokens(kind, a, piece, b, piece);
  }

  /** The tokens of an input are exactly the words and the CJK pieces of its lower case. */
  lemma TokensAreExact(u: Unicode, input: string, t: string)
    requires u.Valid()
    ensures t in Tokens(u, input) <==> HasWord(u.kind, Lowered(u, input), t) || HasPiece(u.kind, Lowered(u, input), t)
  {
    TrimmingIsInvisible(u, input);
    var s := Lowered(u, input);
    if t in TokensOf(u.kind, s) {
      TokenIsInText(u.kind, s, t);
    }
    if HasWord(u.kind, s, t) {
      var i: nat, j: nat :| IsWholeWord(u.kind, s, i, j) && t == s[i..j];
      WordIsToken(u.kind, s, i, j);
    }
    if HasPiece(u.kind, s, t) {
      var i: nat, j: nat :| IsCjkPiece(u.kind, s, i, j) && t == s[i..j];
      PieceIsToken(u.kind, s, i, j);
    }
  }

  /** A Latin word is one token, in lower case. */
  lemma WordIsOneToken(u: Unicode, s: string)
    requires u.Valid() && s != "" && forall i :: 0 <= i < |s| ==> u.kind(u.lower(s[i])) == Word
    ensures Tokens(u, s) == [Lowered(u, s)]
    ensures forall i :: 0 <= i < |s| ==> Lowered(u, s)[i] == u.lower(s[i])
  {
    TrimmingIsInvisible(u, s);
    UniformTokens(u.kind, Lowered(u, s));
  }

  /** A CJK text gives its runes, then its pairs, then its triples, each in the order of the text. */
  lemma CjkInOrder(u: Unicode, s: string)
    requires u.Valid() && s != "" && forall i :: 0 <= i < |s| ==> u.kind(u.lower(s[i])) == Cjk
    ensures var tokens, text, n := Tokens(u, s), Lowered(u, s), |s|;
      && |tokens| == n + (n - 1) + (if n > 1 then n - 2 else 0)
      && (forall i :: 0 <= i < n ==> tokens[i] == text[i..i + 1])
      && (forall i :: n <= i < 2 * n - 1 ==> tokens[i] == text[i - n..i - n + 2])
      && (forall i :: 2 * n - 1 <= i < |tokens| ==> tokens[i] == text[i - (2 * n - 1)..i - (2 * n - 1) + 3])
  {
    TrimmingIsInvisible(u, s);
    UniformTokens(u.kind, Lowered(u, s));
  }

  /** The terms of a query come in the order in which they first occur in the input. */
  lemma {:induction false} TermsInOrder(tokens: seq<string>, i: nat, j: nat)
    requires i < j < |Unique(tokens)|
    ensures exists p :: 0 <= p < |tokens| && tokens[p] == Unique(tokens)[i] && Unique(tokens)[j] !in tokens[..p + 1]
    decreases |tokens|
  {
    var init, last := tokens[..|tokens| - 1], tokens[|tokens| - 1];
    var terms := Unique(init);
    if j < |terms| {
      TermsInOrder(init, i, j);
      var p :| 0 <= p < |init| && init[p] == terms[i] && terms[j] !in init[..p + 1];
      assert tokens[..p + 1] == init[..p + 1] && tokens[p] == init[p];
    } else {
      assert terms[i] in init;
      var p :| 0 <= p < |init| && init[p] == terms[i];
      assert tokens[..p + 1] == init[..p + 1] && tokens[p] == init[p];
      assert forall t :: t in init[..p + 1] ==> t in init;
    }
  }
}

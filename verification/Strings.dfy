/** White space and trimming, as the standard library defines them. */
module Strings {
  /** The White_Space property of Unicode. */
  predicate IsSpace(c: char) {
    var n := c as int;
    || 0x09 <= n <= 0x0D || n == 0x20 || n == 0x85 || n == 0xA0 || n == 0x1680 || 0x2000 <= n <= 0x200A
    || n == 0x2028 || n == 0x2029 || n == 0x202F || n == 0x205F || n == 0x3000
  }

  function TrimLeft(s: string, cut: char -> bool): string {
    if s != "" && cut(s[0]) then TrimLeft(s[1..], cut) else s
  }

  function TrimRight(s: string, cut: char -> bool): string {
    if s != "" && cut(s[|s| - 1]) then TrimRight(s[..|s| - 1], cut) else s
  }

  function Trim(s: string, cut: char -> bool): string {
    TrimRight(TrimLeft(s, cut), cut)
  }

  /** Trimming from the left cuts a prefix, of characters to be cut and as long as possible. */
  lemma {:induction false} TrimLeftCuts(s: string, cut: char -> bool)
    ensures var r := TrimLeft(s, cut); |r| <= |s| && r == s[|s| - |r|..] && (r == "" || !cut(r[0]))
    ensures forall i :: 0 <= i < |s| - |TrimLeft(s, cut)| ==> cut(s[i])
  {
    if s != "" && cut(s[0]) {
      TrimLeftCuts(s[1..], cut);
      forall i | 0 <= i < |s| - |TrimLeft(s, cut)| ensures cut(s[i]) {
        assert i > 0 ==> s[i] == s[1..][i - 1];
      }
    }
  }

  lemma {:induction false} TrimRightCuts(s: string, cut: char -> bool)
    ensures var r := TrimRight(s, cut); |r| <= |s| && r == s[..|r|] && (r == "" || !cut(r[|r| - 1]))
    ensures forall i :: |TrimRight(s, cut)| <= i < |s| ==> cut(s[i])
  {
    if s != "" && cut(s[|s| - 1]) {
      TrimRightCuts(s[..|s| - 1], cut);
    }
  }
}

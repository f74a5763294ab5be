/** The attribute values the sanitizer accepts: text without control characters, and small numbers. */
module HtmlText {
  import opened Strings

  predicate IsControl(c: char) {
    c as int < 0x20 || 0x7F <= c as int < 0xA0
  }

  function WithoutControls(s: string): (r: string)
    ensures forall i :: 0 <= i < |r| ==> !IsControl(r[i])
  {
    if s == "" then "" else (if IsControl(s[0]) then "" else [s[0]]) + WithoutControls(s[1..])
  }

  function CleanText(value: string): string {
    Trim(WithoutControls(value), IsSpace)
  }

  lemma {:induction false} CleanHasNoControls(s: string)
    requires forall i :: 0 <= i < |s| ==> !IsControl(s[i])
    ensures WithoutControls(s) == s
  {
    if s != "" {
      CleanHasNoControls(s[1..]);
    }
  }

  /** Cleaning a cleaned value changes nothing. */
  lemma CleaningTwice(value: string)
    ensures CleanText(CleanText(value)) == CleanText(value)
  {
    var plain := WithoutControls(value);
    var left := TrimLeft(plain, IsSpace);
    var r := TrimRight(left, IsSpace);
    TrimLeftCuts(plain, IsSpace);
    TrimRightCuts(left, IsSpace);
    assert forall i :: 0 <= i < |r| ==> r[i] == left[i] == plain[|plain| - |left| + i];
    CleanHasNoControls(r);
  }

  function Digits(s: string): (n: nat)
    requires forall i :: 0 <= i < |s| ==> '0' <= s[i] <= '9'
  {
    if s == "" then 0 else 10 * Digits(s[..|s| - 1]) + (s[|s| - 1] as int - '0' as int)
  }

  /** A decimal number below the limit. */
  predicate IsUint(s: string, limit: nat) {
    s != "" && (forall i :: 0 <= i < |s| ==> '0' <= s[i] <= '9') && Digits(s) < limit
  }
}

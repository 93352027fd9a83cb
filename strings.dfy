/** Text helpers the service takes from Go's standard library: whitespace
    trimming, suffix handling and number formatting. Strings are sequences of
    Unicode scalar values. */
module Strings {

  /** Go's unicode.IsSpace: the Latin-1 spaces and the other characters with
      the Unicode White_Space property. */
  predicate IsSpace(c: char) {
    c == '\t' || c == '\n' || c == '\U{000B}' || c == '\U{000C}' || c == '\r' || c == ' '
    || c == '\U{0085}' || c == '\U{00A0}' || c == '\U{1680}'
    || ('\U{2000}' <= c <= '\U{200A}')
    || c == '\U{2028}' || c == '\U{2029}' || c == '\U{202F}' || c == '\U{205F}' || c == '\U{3000}'
  }

  function TrimLeadingSpace(s: string): string {
    if s != [] && IsSpace(s[0]) then TrimLeadingSpace(s[1..]) else s
  }

  function TrimTrailingSpace(s: string): string {
    if s != [] && IsSpace(s[|s| - 1]) then TrimTrailingSpace(s[..|s| - 1]) else s
  }

  /** Trimming the front removes exactly the leading run of spaces: what is
      left is a suffix that is empty or starts with a non-space. */
  lemma {:induction false} TrimLeadingSpaceSpec(s: string)
    ensures |TrimLeadingSpace(s)| <= |s| && TrimLeadingSpace(s) == s[|s| - |TrimLeadingSpace(s)|..]
    ensures TrimLeadingSpace(s) == [] || !IsSpace(TrimLeadingSpace(s)[0])
    ensures forall i :: 0 <= i < |s| - |TrimLeadingSpace(s)| ==> IsSpace(s[i])
  {
    if s != [] && IsSpace(s[0]) {
      TrimLeadingSpaceSpec(s[1..]);
      var r := TrimLeadingSpace(s);
      forall i | 0 <= i < |s| - |r| ensures IsSpace(s[i]) {
        if i > 0 {
          assert s[i] == s[1..][i - 1];
        }
      }
    }
  }

  /** Trimming the back removes exactly the trailing run of spaces. */
  lemma {:induction false} TrimTrailingSpaceSpec(s: string)
    ensures |TrimTrailingSpace(s)| <= |s| && TrimTrailingSpace(s) == s[..|TrimTrailingSpace(s)|]
    ensures TrimTrailingSpace(s) == [] || !IsSpace(TrimTrailingSpace(s)[|TrimTrailingSpace(s)| - 1])
    ensures forall i :: |TrimTrailingSpace(s)| <= i < |s| ==> IsSpace(s[i])
  {
    if s != [] && IsSpace(s[|s| - 1]) {
      TrimTrailingSpaceSpec(s[..|s| - 1]);
      var r := TrimTrailingSpace(s);
      forall i | |r| <= i < |s| ensures IsSpace(s[i]) {
        if i < |s| - 1 {
          assert s[i] == s[..|s| - 1][i];
        }
      }
    }
  }

  /** Go's strings.TrimSpace: drop every leading and trailing space. */
  function TrimSpace(s: string): string {
    TrimTrailingSpace(TrimLeadingSpace(s))
  }

  /** TrimSpace keeps the middle of s: what it drops on either side is
      space, and what it keeps neither starts nor ends with a space. */
  lemma TrimSpaceSpec(s: string)
    ensures var r := TrimSpace(s); var k := |s| - |TrimLeadingSpace(s)|;
      && 0 <= k && k + |r| <= |s| && r == s[k..k + |r|]
      && (forall i :: 0 <= i < k ==> IsSpace(s[i]))
      && (forall i :: k + |r| <= i < |s| ==> IsSpace(s[i]))
    ensures var r := TrimSpace(s); r == [] || (!IsSpace(r[0]) && !IsSpace(r[|r| - 1]))
  {
    var lead := TrimLeadingSpace(s);
    TrimLeadingSpaceSpec(s);
    TrimTrailingSpaceSpec(lead);
    var r := TrimTrailingSpace(lead);
    var k := |s| - |lead|;
    assert forall i :: k + |r| <= i < |s| ==> s[i] == lead[i - k];
    assert r != [] ==> r[0] == lead[0];
  }

  predicate EndsWith(s: string, suffix: string) {
    |suffix| <= |s| && s[|s| - |suffix|..] == suffix
  }

  /** Go's strings.TrimSuffix: remove one copy of suffix if s ends with it. */
  function TrimSuffix(s: string, suffix: string): (r: string)
    ensures EndsWith(s, suffix) ==> r + suffix == s
    ensures !EndsWith(s, suffix) ==> r == s
  {
    if EndsWith(s, suffix) then s[..|s| - |suffix|] else s
  }

  function DecimalDigit(d: nat): char
    requires d < 10
  {
    (48 + d) as char
  }

  /** Decimal rendering of a natural number, as fmt's %d prints it. */
  function NatToString(n: nat): string {
    if n < 10 then [DecimalDigit(n)] else NatToString(n / 10) + [DecimalDigit(n % 10)]
  }

  function HexDigit(d: nat): char
    requires d < 16
  {
    if d < 10 then DecimalDigit(d) else (87 + d) as char
  }

  /** The low `width` hexadecimal digits of n, most significant first. */
  function Hex(n: nat, width: nat): (s: string)
    ensures |s| == width
  {
    if width == 0 then "" else Hex(n / 16, width - 1) + [HexDigit(n % 16)]
  }
}

/** String operations shared by the browser client and the Python service:
    case folding, prefix/suffix tests, first-occurrence replacement,
    whitespace trimming and decimal rendering of integers. */
module Text {
  import opened Base

  // ---------------------------------------------------------------------
  // Case folding (JavaScript `toLowerCase`, Python `str.lower`), ASCII part.

  predicate IsUpper(c: char) {
    'A' <= c <= 'Z'
  }

  function LowerChar(c: char): (r: char)
    ensures !IsUpper(r)
    ensures IsUpper(c) ==> r as int == c as int + 32
    ensures !IsUpper(c) ==> r == c
  {
    if IsUpper(c) then (c as int + 32) as char else c
  }

  function Lower(s: string): (r: string)
    ensures |r| == |s|
    ensures forall i :: 0 <= i < |s| ==> r[i] == LowerChar(s[i])
  {
    seq(|s|, i requires 0 <= i < |s| => LowerChar(s[i]))
  }

  /** Lowercasing is idempotent and leaves no upper-case letter behind. */
  lemma LowerIdempotent(s: string)
    ensures Lower(Lower(s)) == Lower(s)
    ensures forall i :: 0 <= i < |s| ==> !IsUpper(Lower(s)[i])
  {
  }

  /** A piece of an already lower-cased string is lower-cased too. */
  lemma LowerOfLoweredPiece(s: string, a: nat, b: nat)
    requires Lower(s) == s
    requires a <= b <= |s|
    ensures Lower(s[a..b]) == s[a..b]
  {
    assert forall i :: 0 <= i < b - a ==> s[a..b][i] == s[a + i] == Lower(s)[a + i];
  }

  // ---------------------------------------------------------------------
  // Prefix and suffix tests.

  predicate StartsWith(s: string, prefix: string) {
    |prefix| <= |s| && s[..|prefix|] == prefix
  }

  predicate EndsWith(s: string, suffix: string) {
    |suffix| <= |s| && s[|s| - |suffix|..] == suffix
  }

  // ---------------------------------------------------------------------
  // First occurrence of a pattern, and `String.prototype.replace` with a
  // plain string pattern (only the first occurrence is replaced).

  predicate OccursAt(s: string, pat: string, i: nat) {
    i + |pat| <= |s| && s[i..i + |pat|] == pat
  }

  function IndexOfFrom(s: string, pat: string, from: nat): (r: Option<nat>)
    requires from <= |s|
    ensures r.Some? ==> from <= r.value && OccursAt(s, pat, r.value)
    ensures r.Some? ==> forall j :: from <= j < r.value ==> !OccursAt(s, pat, j)
    ensures r.None? ==> forall j :: from <= j <= |s| ==> !OccursAt(s, pat, j)
    decreases |s| - from
  {
    if OccursAt(s, pat, from) then Some(from)
    else if from == |s| then None
    else IndexOfFrom(s, pat, from + 1)
  }

  /** Index of the first occurrence of `pat` in `s`, if any. */
  function IndexOf(s: string, pat: string): (r: Option<nat>)
    ensures r.Some? ==> OccursAt(s, pat, r.value)
    ensures r.Some? ==> forall j :: 0 <= j < r.value ==> !OccursAt(s, pat, j)
    ensures r.None? ==> forall j :: 0 <= j <= |s| ==> !OccursAt(s, pat, j)
  {
    IndexOfFrom(s, pat, 0)
  }

  /** `s.replace(pat, repl)`: the first occurrence of `pat` is replaced, the rest
      of the string is kept; without an occurrence the string is unchanged. */
  function ReplaceFirst(s: string, pat: string, repl: string): (r: string)
    ensures IndexOf(s, pat).None? ==> r == s
    ensures IndexOf(s, pat).Some? ==>
              var i := IndexOf(s, pat).value;
              r == s[..i] + repl + s[i + |pat|..]
  {
    match IndexOf(s, pat)
    case None => s
    case Some(i) => s[..i] + repl + s[i + |pat|..]
  }

  /** Replacing a pattern the string starts with swaps exactly that prefix. */
  lemma ReplaceFirstAtStart(s: string, pat: string, repl: string)
    requires StartsWith(s, pat)
    ensures ReplaceFirst(s, pat, repl) == repl + s[|pat|..]
  {
    assert OccursAt(s, pat, 0);
  }

  // ---------------------------------------------------------------------
  // Whitespace trimming.

  /** The Unicode space separators (general category Zs) other than the
      ASCII space and the no-break space. */
  predicate IsWideSpace(c: char) {
    c == '\U{1680}' || ('\U{2000}' <= c <= '\U{200A}') || c == '\U{202F}' || c == '\U{205F}'
    || c == '\U{3000}'
  }

  /** Whitespace and line terminators removed by JavaScript `String.prototype.trim`
      (section 12.2 and 12.3 of ECMA-262): the ASCII ones, the space separators,
      the byte-order mark and the two Unicode line separators. */
  predicate IsJsSpace(c: char) {
    c == ' ' || c == '\t' || c == '\n' || c == '\r' || c == '\U{000B}' || c == '\U{000C}'
    || c == '\U{00A0}' || c == '\U{FEFF}' || c == '\U{2028}' || c == '\U{2029}'
    || IsWideSpace(c)
  }

  /** Whitespace removed by Python `str.strip()` (the characters for which
      `str.isspace` holds): the ASCII ones, the four information separators,
      NEXT LINE, the space separators and the two Unicode line separators. */
  predicate IsPySpace(c: char) {
    c == ' ' || c == '\t' || c == '\n' || c == '\r' || c == '\U{000B}' || c == '\U{000C}'
    || c == '\U{001C}' || c == '\U{001D}' || c == '\U{001E}' || c == '\U{001F}'
    || c == '\U{0085}' || c == '\U{00A0}' || c == '\U{2028}' || c == '\U{2029}'
    || IsWideSpace(c)
  }

  /** Index of the first character at or after `i` that is not whitespace
      (or `|s|` when there is none). */
  function SkipSpaces(s: string, space: char -> bool, i: nat): (n: nat)
    requires i <= |s|
    ensures i <= n <= |s|
    ensures forall k :: i <= k < n ==> space(s[k])
    ensures n == |s| || !space(s[n])
    decreases |s| - i
  {
    if i < |s| && space(s[i]) then SkipSpaces(s, space, i + 1) else i
  }

  /** Index just past the last character before `j` that is not whitespace
      (or 0 when there is none). */
  function SkipSpacesBack(s: string, space: char -> bool, j: nat): (n: nat)
    requires j <= |s|
    ensures n <= j
    ensures forall k :: n <= k < j ==> space(s[k])
    ensures n == 0 || !space(s[n - 1])
  {
    if j > 0 && space(s[j - 1]) then SkipSpacesBack(s, space, j - 1) else j
  }

  /** Where the stripped string starts inside the original. */
  function TrimOffset(s: string, space: char -> bool): nat
  {
    SkipSpaces(s, space, 0)
  }

  /** Both ends stripped: the result is the piece of `s` starting at
      `TrimOffset`, it neither starts nor ends with whitespace, and
      everything cut off on either side was whitespace. */
  function Trim(s: string, space: char -> bool): (r: string)
    ensures TrimOffset(s, space) + |r| <= |s|
    ensures r == s[TrimOffset(s, space)..TrimOffset(s, space) + |r|]
    ensures forall k :: 0 <= k < TrimOffset(s, space) ==> space(s[k])
    ensures forall k :: TrimOffset(s, space) + |r| <= k < |s| ==> space(s[k])
    ensures |r| == 0 || (!space(r[0]) && !space(r[|r| - 1]))
  {
    var a := SkipSpaces(s, space, 0);
    if a == |s| then ""
    else
      var b := SkipSpacesBack(s, space, |s|);
      s[a..b]
  }

  /** Stripping what is already stripped changes nothing. */
  lemma TrimIdempotent(s: string, space: char -> bool)
    ensures Trim(Trim(s, space), space) == Trim(s, space)
  {
    var r := Trim(s, space);
    if |r| > 0 {
      assert SkipSpaces(r, space, 0) == 0;
      assert SkipSpacesBack(r, space, |r|) == |r|;
      assert r[0..|r|] == r;
    }
  }

  /** Stripping a core that neither starts nor ends with whitespace from
      between two runs of whitespace gives the core. */
  lemma TrimSurrounded(a: string, core: string, b: string, space: char -> bool)
    requires forall k :: 0 <= k < |a| ==> space(a[k])
    requires forall k :: 0 <= k < |b| ==> space(b[k])
    requires |core| > 0 && !space(core[0]) && !space(core[|core| - 1])
    ensures Trim(a + core + b, space) == core
  {
    var s := a + core + b;
    assert forall k :: 0 <= k < |a| ==> s[k] == a[k];
    assert forall k :: |a| + |core| <= k < |s| ==> s[k] == b[k - |a| - |core|];
    assert s[|a|] == core[0] && s[|a| + |core| - 1] == core[|core| - 1];
    var i := SkipSpaces(s, space, 0);
    var j := SkipSpacesBack(s, space, |s|);
    assert i == |a|;
    assert j == |a| + |core|;
    assert s[i..j] == core;
  }

  function JsTrim(s: string): string {
    Trim(s, IsJsSpace)
  }

  function PyStrip(s: string): string {
    Trim(s, IsPySpace)
  }

  // ---------------------------------------------------------------------
  // Decimal rendering of integers (`Number.prototype.toString` on an integral value).

  function DigitChar(d: nat): (c: char)
    requires d < 10
    ensures '0' <= c <= '9'
  {
    ('0' as int + d) as char
  }

  predicate IsDigit(c: char) {
    '0' <= c <= '9'
  }

  function NatToDecimal(n: nat): (r: string)
    ensures |r| >= 1
    ensures forall i :: 0 <= i < |r| ==> IsDigit(r[i])
    ensures n < 10 ==> |r| == 1
    ensures 10 <= n < 100 ==> |r| == 2
  {
    if n < 10 then [DigitChar(n)] else NatToDecimal(n / 10) + [DigitChar(n % 10)]
  }

  function IntToDecimal(n: int): (r: string)
    ensures |r| >= 1
    ensures n >= 0 ==> r == NatToDecimal(n)
    ensures n < 0 ==> r == "-" + NatToDecimal(-n)
  {
    if n >= 0 then NatToDecimal(n) else "-" + NatToDecimal(-n)
  }

  /** Value of a string of decimal digits. */
  function DigitsValue(s: string): nat
    requires forall i :: 0 <= i < |s| ==> IsDigit(s[i])
  {
    if |s| == 0 then 0
    else
      assert IsDigit(s[|s| - 1]);
      10 * DigitsValue(s[..|s| - 1]) + (s[|s| - 1] as int - '0' as int)
  }

  /** Rendering a natural number in decimal and reading the digits back gives
      the number again. */
  lemma {:induction false} DecimalRoundTrip(n: nat)
    ensures DigitsValue(NatToDecimal(n)) == n
  {
    if n >= 10 {
      DecimalRoundTrip(n / 10);
      var s := NatToDecimal(n);
      assert s[..|s| - 1] == NatToDecimal(n / 10);
    }
  }

  /** `str.padStart(2, '0')`: strings shorter than two characters get leading
      zeros, longer ones are kept as they are. */
  function PadStart2(s: string): (r: string)
    ensures |s| >= 2 ==> r == s
    ensures |s| < 2 ==> |r| == 2 && r[2 - |s|..] == s
    ensures forall i :: 0 <= i < 2 - |s| ==> r[i] == '0'
  {
    if |s| >= 2 then s else seq(2 - |s|, _ => '0') + s
  }
}

/** String operations of the JavaScript runtime that the core relies on, written
    out: ASCII case folding, substring and prefix tests, `trim`, `split` on one
    character, `parseInt` without a radix, and the decimal text of a number. */
module Text {
  import opened Wrappers

  /** The characters `String.prototype.trim` and `parseInt` skip: ECMAScript's
      WhiteSpace and LineTerminator code points. */
  predicate IsWhitespace(c: char) {
    if c <= ' ' then c == ' ' || '\t' <= c <= '\r'
    else if c < '\U{00A0}' then false
    else
      c == '\U{00A0}' || c == '\U{1680}' || ('\U{2000}' <= c <= '\U{200A}')
      || c == '\U{2028}' || c == '\U{2029}' || c == '\U{202F}' || c == '\U{205F}'
      || c == '\U{3000}' || c == '\U{FEFF}'
  }

  /** Lower-casing restricted to ASCII letters. */
  function LowerChar(c: char): char {
    if 'A' <= c <= 'Z' then (c as int - 'A' as int + 'a' as int) as char else c
  }

  function Lower(s: string): string {
    seq(|s|, k requires 0 <= k < |s| => LowerChar(s[k]))
  }

  /** `needle` occurs in `hay` starting at position `i`. */
  predicate OccursAt(needle: string, hay: string, i: int) {
    0 <= i <= |hay| - |needle| && hay[i..i + |needle|] == needle
  }

  predicate IsSubstring(needle: string, hay: string) {
    exists i :: 0 <= i <= |hay| - |needle| && OccursAt(needle, hay, i)
  }

  /** A literal, case-insensitive (ASCII) occurrence of `needle` in `hay`. */
  predicate ContainsIgnoreCase(hay: string, needle: string) {
    IsSubstring(Lower(needle), Lower(hay))
  }

  predicate StartsWith(s: string, prefix: string) {
    |prefix| <= |s| && s[..|prefix|] == prefix
  }

  /** `s` without its leading whitespace. */
  function TrimStart(s: string): (r: string)
    ensures |r| <= |s| && r == s[|s| - |r|..]
    ensures r == [] || !IsWhitespace(r[0])
    ensures forall k :: 0 <= k < |s| - |r| ==> IsWhitespace(s[k])
    decreases |s|
  {
    if s != [] && IsWhitespace(s[0]) then TrimStart(s[1..]) else s
  }

  /** `s` without its trailing whitespace. */
  function TrimEnd(s: string): (r: string)
    ensures |r| <= |s| && r == s[..|r|]
    ensures r == [] || !IsWhitespace(r[|r| - 1])
    ensures forall k :: |r| <= k < |s| ==> IsWhitespace(s[k])
    decreases |s|
  {
    if s != [] && IsWhitespace(s[|s| - 1]) then TrimEnd(s[..|s| - 1]) else s
  }

  /** `String.prototype.trim`: the slice of `s` between its leading and trailing
      whitespace; empty exactly when `s` is all whitespace. */
  function Trim(s: string): (r: string)
    ensures |r| <= |s|
  {
    TrimEnd(TrimStart(s))
  }

  /** What `trim` leaves: no whitespace at either end, empty exactly for an
      all-whitespace string, and a slice of `s` with only whitespace around it. */
  lemma TrimSpec(s: string)
    ensures var r := Trim(s);
            && (r == [] || (!IsWhitespace(r[0]) && !IsWhitespace(r[|r| - 1])))
            && (r == [] <==> forall k :: 0 <= k < |s| ==> IsWhitespace(s[k]))
            && exists i :: OccursAt(r, s, i) && OnlyWhitespaceOutside(s, i, i + |r|)
  {
    var t := TrimStart(s);
    var r := TrimEnd(t);
    assert OccursAt(r, s, |s| - |t|) && OnlyWhitespaceOutside(s, |s| - |t|, |s| - |t| + |r|);
  }

  /** Every character of `s` before position `i` or from position `j` on is whitespace. */
  predicate OnlyWhitespaceOutside(s: string, i: int, j: int) {
    (forall k :: 0 <= k < i && k < |s| ==> IsWhitespace(s[k]))
    && (forall k :: 0 <= j <= k < |s| ==> IsWhitespace(s[k]))
  }

  /** `!s.trim()`: nothing but whitespace. */
  predicate IsBlank(s: string) {
    forall k :: 0 <= k < |s| ==> IsWhitespace(s[k])
  }

  /** A blank string is exactly one that trims to the empty string. */
  lemma BlankIffTrimsToEmpty(s: string)
    ensures IsBlank(s) <==> Trim(s) == []
  {
    TrimSpec(s);
  }

  /** The number of occurrences of `c` in `s`. */
  function Count(s: string, c: char): (n: nat)
    ensures n <= |s|
    ensures n == 0 <==> c !in s
    decreases |s|
  {
    if s == [] then 0
    else
      assert s == [s[0]] + s[1..];
      (if s[0] == c then 1 else 0) + Count(s[1..], c)
  }

  /** The pieces joined back with `sep` between them (`Array.prototype.join`). */
  function Join(pieces: seq<string>, sep: char): string
    decreases |pieces|
  {
    if pieces == [] then []
    else if |pieces| == 1 then pieces[0]
    else pieces[0] + [sep] + Join(pieces[1..], sep)
  }

  /** `s.split(sep)` for a one-character separator: one piece more than there are
      separators, no piece holds the separator, and joining restores `s`. */
  function Split(s: string, sep: char): (pieces: seq<string>)
    ensures |pieces| == Count(s, sep) + 1
    ensures forall k :: 0 <= k < |pieces| ==> sep !in pieces[k]
    ensures Join(pieces, sep) == s
    decreases |s|
  {
    if s == [] then [[]]
    else
      var rest := Split(s[1..], sep);
      assert s == [s[0]] + s[1..];
      if s[0] == sep then [[]] + rest
      else
        var pieces := [[s[0]] + rest[0]] + rest[1..];
        assert pieces[1..] == rest[1..];
        assert Join(pieces, sep) == [s[0]] + Join(rest, sep);
        pieces
  }

  /** The position of the first `c` in `s`, or `|s|` when there is none. */
  function IndexOf(s: string, c: char): (k: nat)
    ensures k <= |s|
    ensures k < |s| ==> s[k] == c
    ensures forall i :: 0 <= i < k ==> s[i] != c
    ensures k == |s| <==> c !in s
    decreases |s|
  {
    if s == [] then 0
    else if s[0] == c then 0
    else
      assert s == [s[0]] + s[1..];
      1 + IndexOf(s[1..], c)
  }

  /** The value of a digit in base 10, or in base 16 when `hex` holds. */
  function DigitValue(c: char, hex: bool): Option<nat> {
    if '0' <= c <= '9' then Some(c as int - '0' as int)
    else if hex && 'a' <= c <= 'f' then Some(c as int - 'a' as int + 10)
    else if hex && 'A' <= c <= 'F' then Some(c as int - 'A' as int + 10)
    else None
  }

  predicate AllDigits(ds: string, hex: bool) {
    forall k :: 0 <= k < |ds| ==> DigitValue(ds[k], hex).Some?
  }

  /** The longest prefix of `s` made of digits. */
  function LeadingDigits(s: string, hex: bool): (ds: string)
    ensures |ds| <= |s| && ds == s[..|ds|]
    ensures AllDigits(ds, hex)
    ensures |ds| < |s| ==> DigitValue(s[|ds|], hex).None?
    decreases |s|
  {
    if s != [] && DigitValue(s[0], hex).Some? then [s[0]] + LeadingDigits(s[1..], hex) else []
  }

  /** The number a string of digits denotes, most significant digit first. */
  function DigitsValue(ds: string, hex: bool): nat
    requires AllDigits(ds, hex)
    decreases |ds|
  {
    if ds == [] then 0
    else DigitsValue(ds[..|ds| - 1], hex) * (if hex then 16 else 10) + DigitValue(ds[|ds| - 1], hex).value
  }

  /** `parseInt(s)` with no radix: skip leading whitespace, read an optional sign,
      read base 16 after a `0x`/`0X` prefix and base 10 otherwise, stop at the first
      non-digit; no digit at all gives NaN, written None. */
  function ParseInt(s: string): Option<int> {
    var t := TrimStart(s);
    var negative := t != [] && t[0] == '-';
    match Magnitude(UnsignedPart(t))
    case None => None
    case Some(m) => Some(if negative then -(m as int) else m as int)
  }

  /** The value of the digits that open `u`: base 16 after a `0x`/`0X` prefix,
      base 10 otherwise; None when no digit follows. */
  function Magnitude(u: string): Option<nat> {
    var hex := HexPrefixed(u);
    var ds := LeadingDigits(if hex then u[2..] else u, hex);
    if ds == [] then None else Some(DigitsValue(ds, hex))
  }

  /** The text after a leading `+` or `-`. */
  function UnsignedPart(t: string): (u: string)
    ensures |u| <= |t| && u == t[|t| - |u|..]
  {
    if t != [] && (t[0] == '-' || t[0] == '+') then t[1..] else t
  }

  predicate HexPrefixed(u: string) {
    |u| >= 2 && u[0] == '0' && (u[1] == 'x' || u[1] == 'X')
  }

  /** A text without a single decimal digit parses as NaN: a hex prefix starts with `0`. */
  lemma NoDigitIsNaN(s: string)
    requires forall k :: 0 <= k < |s| ==> !('0' <= s[k] <= '9')
    ensures ParseInt(s).None?
  {
    var t := TrimStart(s);
    var u := UnsignedPart(t);
    assert u == s[|s| - |u|..];
    if u != [] {
      assert u[0] == s[|s| - |u|];
      assert !HexPrefixed(u);
      assert DigitValue(u[0], false).None?;
      assert LeadingDigits(u, false) == [];
    }
    assert Magnitude(u).None?;
  }

  /** The decimal text of a natural number, as a template literal prints it. */
  function DecimalText(n: nat): (s: string)
    ensures s != [] && AllDigits(s, false)
    ensures '0' <= s[0] <= '9'
    ensures forall k :: 0 <= k < |s| ==> '0' <= s[k] <= '9'
    decreases n
  {
    var d := ((n % 10) + '0' as int) as char;
    if n < 10 then [d] else DecimalText(n / 10) + [d]
  }

  lemma {:induction false} DecimalTextValue(n: nat)
    ensures DigitsValue(DecimalText(n), false) == n
    decreases n
  {
    var s := DecimalText(n);
    if n >= 10 {
      DecimalTextValue(n / 10);
      assert s[..|s| - 1] == DecimalText(n / 10);
    }
  }

  lemma {:induction false} DigitsAreLeading(s: string, hex: bool)
    requires AllDigits(s, hex)
    ensures LeadingDigits(s, hex) == s
    decreases |s|
  {
    if s != [] {
      DigitsAreLeading(s[1..], hex);
    }
  }

  /** Round trip: the number a page sends in its query string is the number the
      server's `parseInt` reads back. */
  lemma ParseDecimalText(n: nat)
    ensures ParseInt(DecimalText(n)) == Some(n)
  {
    var s := DecimalText(n);
    assert !IsWhitespace(s[0]);
    assert TrimStart(s) == s;
    assert UnsignedPart(s) == s;
    assert !HexPrefixed(s);
    DigitsAreLeading(s, false);
    DecimalTextValue(n);
    assert Magnitude(s) == Some(n);
  }
}

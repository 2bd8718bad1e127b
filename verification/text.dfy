/** The Python text operations the metadata interpreters apply to strings:
    `strip`, `upper`, `rsplit("/", 1)[-1]`, `"%d" % n`, `startswith` and the
    substring test of `in`. Strings are sequences of Unicode scalar values. */
module PyText {

  /** Which whitespace set a `strip()` removes: `str.strip()` uses Python's
      Unicode whitespace, `bytes.strip()` only the six ASCII blanks. */
  datatype Whitespace = StrWhitespace | BytesWhitespace

  /** Python's `str.isspace()` characters. */
  predicate IsStrSpace(c: char) {
    || c == ' '
    || ('\t' <= c <= '\r')
    || ('\U{1C}' <= c <= '\U{1F}')
    || c == '\U{85}' || c == '\U{A0}' || c == '\U{1680}'
    || ('\U{2000}' <= c <= '\U{200A}')
    || c == '\U{2028}' || c == '\U{2029}' || c == '\U{202F}'
    || c == '\U{205F}' || c == '\U{3000}'
  }

  predicate IsSpace(c: char, ws: Whitespace) {
    match ws
    case StrWhitespace => IsStrSpace(c)
    case BytesWhitespace => c == ' ' || ('\t' <= c <= '\r')
  }

  /** The number of whitespace characters `s` starts with. */
  function LeadingSpaces(s: string, ws: Whitespace): (n: nat)
    ensures n <= |s|
    ensures forall i :: 0 <= i < n ==> IsSpace(s[i], ws)
    ensures n < |s| ==> !IsSpace(s[n], ws)
  {
    if s == [] || !IsSpace(s[0], ws) then 0 else 1 + LeadingSpaces(s[1..], ws)
  }

  /** The number of whitespace characters `s` ends with. */
  function TrailingSpaces(s: string, ws: Whitespace): (n: nat)
    ensures n <= |s|
    ensures forall i :: |s| - n <= i < |s| ==> IsSpace(s[i], ws)
    ensures n < |s| ==> !IsSpace(s[|s| - 1 - n], ws)
  {
    if s == [] || !IsSpace(s[|s| - 1], ws) then 0
    else 1 + TrailingSpaces(s[..|s| - 1], ws)
  }

  /** `r` is the infix of `s` starting at `a` that is preceded and followed
      only by blanks and neither starts nor ends with one: what stripping
      `s` leaves. */
  ghost predicate StrippedInfix(s: string, a: nat, r: string, ws: Whitespace) {
    && a + |r| <= |s| && r == s[a..a + |r|]
    && (forall i :: 0 <= i < a ==> IsSpace(s[i], ws))
    && (forall i :: a + |r| <= i < |s| ==> IsSpace(s[i], ws))
    && (r != [] ==> !IsSpace(r[0], ws) && !IsSpace(r[|r| - 1], ws))
  }

  /** `s.strip()`: `s` without its leading and trailing whitespace. */
  function Strip(s: string, ws: Whitespace): (r: string)
    ensures StrippedInfix(s, LeadingSpaces(s, ws), r, ws)
  {
    var n := LeadingSpaces(s, ws);
    var rest := s[n..];
    rest[..|rest| - TrailingSpaces(rest, ws)]
  }

  /** Every ASCII blank that `bytes.strip()` removes is also one that
      `str.strip()` removes. */
  lemma BytesSpaceIsStrSpace(c: char)
    ensures IsSpace(c, BytesWhitespace) ==> IsSpace(c, StrWhitespace)
  {
  }

  /** The stripped infix of `s` is unique: it is `Strip(s, ws)`. */
  lemma StripUnique(s: string, ws: Whitespace, a: nat, r: string)
    requires StrippedInfix(s, a, r, ws)
    ensures r == Strip(s, ws)
  {
    var n := LeadingSpaces(s, ws);
    var rest := s[n..];
    if r == [] {
      assert n == |s|;
    } else {
      assert s[a] == r[0];
      assert n == a;
      var m := TrailingSpaces(rest, ws);
      assert rest[|rest| - 1 - (|s| - a - |r|)] == r[|r| - 1];
      assert m == |s| - a - |r|;
    }
  }

  /** Blanks of an infix `t` of `s`, which starts at `b`, are blanks of `s`. */
  lemma InfixSpaces(s: string, b: nat, t: string, lo: nat, hi: nat, ws: Whitespace)
    requires b + |t| <= |s| && t == s[b..b + |t|]
    requires lo <= hi <= |t|
    requires forall j :: lo <= j < hi ==> IsSpace(t[j], ws)
    ensures forall i :: b + lo <= i < b + hi ==> IsSpace(s[i], ws)
  {
    forall i | b + lo <= i < b + hi
      ensures IsSpace(s[i], ws)
    {
      assert s[i] == t[i - b];
    }
  }

  lemma SliceOfSlice(s: string, lo: nat, hi: nat, lo2: nat, hi2: nat)
    requires lo <= hi <= |s| && lo2 <= hi2 <= hi - lo
    ensures s[lo..hi][lo2..hi2] == s[lo + lo2..lo + hi2]
  {
    assert forall k :: 0 <= k < hi2 - lo2 ==> s[lo..hi][lo2..hi2][k] == s[lo + lo2 + k];
  }

  /** A run of ASCII blanks is a run of text whitespace. */
  lemma BytesSpacesAreStrSpaces(s: string, lo: nat, hi: nat)
    requires lo <= hi <= |s|
    requires forall i :: lo <= i < hi ==> IsSpace(s[i], BytesWhitespace)
    ensures forall i :: lo <= i < hi ==> IsSpace(s[i], StrWhitespace)
  {
    forall i | lo <= i < hi
      ensures IsSpace(s[i], StrWhitespace)
    {
      BytesSpaceIsStrSpace(s[i]);
    }
  }

  /** What a text strip leaves of what a bytes strip leaves of `s` is a
      text-stripped infix of `s` itself, hence its text strip. */
  lemma StrippedInfixOfInfix(s: string, b: nat, t: string, c: nat, u: string)
    requires StrippedInfix(s, b, t, BytesWhitespace)
    requires StrippedInfix(t, c, u, StrWhitespace)
    ensures u == Strip(s, StrWhitespace)
  {
    SliceOfSlice(s, b, b + |t|, c, c + |u|);
    BytesSpacesAreStrSpaces(s, 0, b);
    InfixSpaces(s, b, t, 0, c, StrWhitespace);
    InfixSpaces(s, b, t, c + |u|, |t|, StrWhitespace);
    BytesSpacesAreStrSpaces(s, b + |t|, |s|);
    StripUnique(s, StrWhitespace, b + c, u);
  }

  /** The user data is stripped as bytes and the certificate made from it is
      stripped again as text; together they strip Python's text whitespace
      from both ends once. */
  lemma StripBytesThenText(s: string)
    ensures Strip(Strip(s, BytesWhitespace), StrWhitespace) == Strip(s, StrWhitespace)
  {
    var t := Strip(s, BytesWhitespace);
    var b, c := LeadingSpaces(s, BytesWhitespace), LeadingSpaces(t, StrWhitespace);
    StrippedInfixOfInfix(s, b, t, c, Strip(t, StrWhitespace));
  }

  /** Python's `c.upper()` on ASCII letters. */
  function UpperChar(c: char): char {
    if 'a' <= c <= 'z' then (c as int - 32) as char else c
  }

  /** `s.upper()`: every ASCII lower-case letter replaced by its capital, every
      other character kept, so no lower-case ASCII letter is left. */
  function Upper(s: string): (r: string)
    ensures |r| == |s|
    ensures forall i :: 0 <= i < |s| ==> !('a' <= r[i] <= 'z')
    ensures forall i :: 0 <= i < |s| ==>
      r[i] == s[i] || ('a' <= s[i] <= 'z' && r[i] as int == s[i] as int - 32)
  {
    seq(|s|, i requires 0 <= i < |s| => UpperChar(s[i]))
  }

  /** `s.rsplit("/", 1)[-1]`: the longest suffix of `s` without a slash. It is
      all of `s`, or it is preceded by a slash. */
  function LastSegment(s: string): (r: string)
    ensures |r| <= |s| && r == s[|s| - |r|..]
    ensures '/' !in r
    ensures |r| < |s| ==> s[|s| - |r| - 1] == '/'
  {
    if s == [] || s[|s| - 1] == '/' then []
    else LastSegment(s[..|s| - 1]) + [s[|s| - 1]]
  }

  /** `needle in hay` for two strings. */
  predicate IsSubstring(needle: string, hay: string) {
    needle <= hay || (hay != [] && IsSubstring(needle, hay[1..]))
  }

  function DigitChar(d: nat): char
    requires d < 10
  {
    ('0' as int + d) as char
  }

  /** The number a string of decimal digits denotes, most significant first. */
  function DigitsValue(s: string): int
    decreases |s|
  {
    if s == [] then 0 else 10 * DigitsValue(s[..|s| - 1]) + (s[|s| - 1] as int - '0' as int)
  }

  /** `"%d" % n` for a natural number: decimal digits, most significant
      first, with no leading zero. */
  function Decimal(n: nat): (r: string)
    ensures |r| >= 1
    ensures forall i :: 0 <= i < |r| ==> '0' <= r[i] <= '9'
    ensures |r| == 1 <==> n < 10
    ensures r[0] == '0' ==> n == 0
    decreases n
  {
    if n < 10 then [DigitChar(n)] else Decimal(n / 10) + [DigitChar(n % 10)]
  }

  /** The digits `Decimal` prints denote `n`. */
  lemma {:induction false} DecimalValue(n: nat)
    ensures DigitsValue(Decimal(n)) == n
    decreases n
  {
    if n >= 10 {
      var r := Decimal(n);
      assert r[..|r| - 1] == Decimal(n / 10);
      DecimalValue(n / 10);
    }
  }

  /** Different numbers print differently. */
  lemma DecimalInjective(a: nat, b: nat)
    requires Decimal(a) == Decimal(b)
    ensures a == b
  {
    DecimalValue(a);
    DecimalValue(b);
  }
}

/** The JavaScript string primitives the front end relies on: `trim`,
    `parseInt`, `Number` on time fields, `String(n)`, `padStart` and the
    `<`/`>=` comparison of strings. */
module Text {
  import opened Base

  // ---------------------------------------------------------------- digits

  predicate IsDigit(c: char) { '0' <= c <= '9' }

  predicate AllDigits(s: string) { forall i :: 0 <= i < |s| ==> IsDigit(s[i]) }

  function DigitValue(c: char): nat
    requires IsDigit(c)
  {
    c as int - '0' as int
  }

  function DigitChar(d: nat): (c: char)
    requires d < 10
    ensures IsDigit(c) && DigitValue(c) == d
  {
    ('0' as int + d) as char
  }

  /** The value of a string of decimal digits (the empty string is 0). */
  function DecValue(s: string): nat
    requires AllDigits(s)
  {
    if s == [] then 0 else 10 * DecValue(s[..|s| - 1]) + DigitValue(s[|s| - 1])
  }

  /** `String(n)` for a non-negative integer: its decimal digits, without
      leading zeros. */
  function NatToString(n: nat): (s: string)
    ensures |s| >= 1 && AllDigits(s)
    ensures s[0] == '0' ==> n == 0
  {
    if n < 10 then [DigitChar(n)] else NatToString(n / 10) + [DigitChar(n % 10)]
  }

  /** `String(i)` for any integer. */
  function IntToString(i: int): string
  {
    if i < 0 then "-" + NatToString(-i) else NatToString(i)
  }

  lemma {:induction false} DecValueOfNatToString(n: nat)
    ensures DecValue(NatToString(n)) == n
  {
    if n >= 10 {
      var s := NatToString(n);
      assert s[..|s| - 1] == NatToString(n / 10);
      DecValueOfNatToString(n / 10);
    }
  }

  /** Distinct numbers print differently. */
  lemma NatToStringInjective(a: nat, b: nat)
    requires NatToString(a) == NatToString(b)
    ensures a == b
  {
    DecValueOfNatToString(a);
    DecValueOfNatToString(b);
  }

  // ----------------------------------------------------------- whitespace

  /** The named characters of the WhiteSpace and LineTerminator
      productions of ECMAScript, which `String.prototype.trim` and
      `parseInt` skip; `IsSpace` adds the range U+2000..U+200A. */
  const SpaceChars: set<char> := {' ', '\t', '\n', '\r', '\U{000B}', '\U{000C}', '\U{00A0}', '\U{1680}',
    '\U{2028}', '\U{2029}', '\U{202F}', '\U{205F}', '\U{3000}', '\U{FEFF}'}

  /** White space for `trim` and `parseInt`. */
  predicate IsSpace(c: char)
  {
    c in SpaceChars || '\U{2000}' <= c <= '\U{200A}'
  }

  predicate AllSpace(s: string) { forall i :: 0 <= i < |s| ==> IsSpace(s[i]) }

  function TrimStart(s: string): (r: string)
  {
    if s != [] && IsSpace(s[0]) then TrimStart(s[1..]) else s
  }

  /** `TrimStart` keeps a suffix and drops only leading white space. */
  lemma {:induction false} TrimStartSuffix(s: string)
    ensures var r := TrimStart(s);
      && |r| <= |s| && r == s[|s| - |r|..]
      && (forall i :: 0 <= i < |s| - |r| ==> IsSpace(s[i]))
      && (r != [] ==> !IsSpace(r[0]))
  {
    if s != [] && IsSpace(s[0]) {
      TrimStartSuffix(s[1..]);
    }
  }

  function TrimEnd(s: string): (r: string)
  {
    if s != [] && IsSpace(s[|s| - 1]) then TrimEnd(s[..|s| - 1]) else s
  }

  /** `TrimEnd` keeps a prefix and drops only trailing white space. */
  lemma {:induction false} TrimEndPrefix(s: string)
    ensures var r := TrimEnd(s);
      && |r| <= |s| && r == s[..|r|]
      && (forall i :: |r| <= i < |s| ==> IsSpace(s[i]))
      && (r != [] ==> !IsSpace(r[|r| - 1]))
  {
    if s != [] && IsSpace(s[|s| - 1]) {
      TrimEndPrefix(s[..|s| - 1]);
    }
  }

  /** `s.trim()`: the longest slice of `s` that neither starts nor ends
      with white space.  What the two halves keep and drop is stated by
      the lemmas beside them rather than as their postconditions, so that
      a context holding several trimmed strings stays small; its own
      contract says only that it neither grows nor keeps white space at
      either end. */
  function Trim(s: string): (r: string)
    ensures |r| <= |s|
    ensures r != [] ==> !IsSpace(r[0]) && !IsSpace(r[|r| - 1])
  {
    var t := TrimStart(s);
    TrimStartSuffix(s);
    TrimEndPrefix(t);
    var r := TrimEnd(t);
    assert r != [] ==> r[0] == t[0];
    r
  }

  /** What `trim` drops on either side is white space. */
  lemma TrimDropsSpace(s: string)
    ensures |Trim(s)| <= |TrimStart(s)| <= |s|
    ensures var i := |s| - |TrimStart(s)|;
      && (forall k :: 0 <= k < i ==> IsSpace(s[k]))
      && (forall k :: i + |Trim(s)| <= k < |s| ==> IsSpace(s[k]))
  {
    var t := TrimStart(s);
    var r := TrimEnd(t);
    TrimStartSuffix(s);
    TrimEndPrefix(t);
    var i := |s| - |t|;
    forall k | i + |r| <= k < |s|
      ensures IsSpace(s[k])
    {
      assert s[k] == t[k - i];
    }
  }

  /** A string with no white space at either end is its own trim. */
  lemma TrimOfUnpadded(s: string)
    requires s != [] ==> !IsSpace(s[0]) && !IsSpace(s[|s| - 1])
    ensures Trim(s) == s
  {
    assert TrimStart(s) == s;
    assert TrimEnd(s) == s;
  }

  lemma TrimEndKeepsFirst(t: string)
    requires t != [] && !IsSpace(t[0])
    ensures TrimEnd(t) != []
  {
    if IsSpace(t[|t| - 1]) {
      TrimEndKeepsFirst(t[..|t| - 1]);
    }
  }

  /** A string trims to "" exactly when it is all white space; that is
      what every "blank input" guard of the front end tests. */
  lemma TrimEmptyIffAllSpace(s: string)
    ensures Trim(s) == [] <==> AllSpace(s)
  {
    var t := TrimStart(s);
    TrimStartSuffix(s);
    if t == [] {
      assert s[..|s|] == s;
    } else {
      assert t[0] == s[|s| - |t|];
      TrimEndKeepsFirst(t);
    }
  }

  lemma TrimIdempotent(s: string)
    ensures Trim(Trim(s)) == Trim(s)
  {
    TrimOfUnpadded(Trim(s));
  }

  // -------------------------------------------------------------- padding

  function Repeat(c: char, n: nat): (r: string)
    ensures |r| == n && forall i :: 0 <= i < n ==> r[i] == c
  {
    if n == 0 then [] else [c] + Repeat(c, n - 1)
  }

  /** `s.padStart(n, c)`. */
  function PadStart(s: string, n: nat, c: char): (r: string)
    ensures |s| >= n ==> r == s
    ensures |s| < n ==>
      (|r| == n && r[n - |s|..] == s && forall i :: 0 <= i < n - |s| ==> r[i] == c)
  {
    if |s| >= n then s else Repeat(c, n - |s|) + s
  }

  /** `String(n).padStart(2, '0')`: exactly two digits for n < 100. */
  function TwoDigits(n: nat): (r: string)
  {
    PadStart(NatToString(n), 2, '0')
  }

  lemma TwoDigitsValue(n: nat)
    requires n < 100
    ensures |TwoDigits(n)| == 2 && AllDigits(TwoDigits(n)) && DecValue(TwoDigits(n)) == n
  {
    DecValueOfNatToString(n);
    var s := NatToString(n);
    if n < 10 {
      assert TwoDigits(n) == "0" + s;
      assert TwoDigits(n)[..1] == "0";
    } else {
      assert n / 10 < 10;
      assert s == [DigitChar(n / 10)] + [DigitChar(n % 10)];
      assert s[..1] == [DigitChar(n / 10)];
    }
  }

  // ---------------------------------------------------- parseInt, Number

  predicate IsHexDigit(c: char)
  {
    IsDigit(c) || ('a' <= c <= 'f') || ('A' <= c <= 'F')
  }

  function HexDigitValue(c: char): nat
    requires IsHexDigit(c)
  {
    if IsDigit(c) then DigitValue(c)
    else if 'a' <= c <= 'f' then c as int - 'a' as int + 10
    else c as int - 'A' as int + 10
  }

  function HexValue(s: string): nat
    requires forall i :: 0 <= i < |s| ==> IsHexDigit(s[i])
  {
    if s == [] then 0 else 16 * HexValue(s[..|s| - 1]) + HexDigitValue(s[|s| - 1])
  }

  /** The longest prefix of `s` made of decimal digits. */
  function DigitPrefix(s: string): (r: string)
    ensures |r| <= |s| && r == s[..|r|] && AllDigits(r)
    ensures |r| < |s| ==> !IsDigit(s[|r|])
  {
    if s != [] && IsDigit(s[0]) then [s[0]] + DigitPrefix(s[1..]) else []
  }

  /** The longest prefix of `s` made of hexadecimal digits. */
  function HexPrefix(s: string): (r: string)
    ensures |r| <= |s| && r == s[..|r|]
    ensures forall i :: 0 <= i < |r| ==> IsHexDigit(r[i])
  {
    if s != [] && IsHexDigit(s[0]) then [s[0]] + HexPrefix(s[1..]) else []
  }

  /** The digits `parseInt` reads after the sign: base 16 after a
      `0x`/`0X` prefix, base 10 otherwise; `None` when there are none. */
  function ParseUnsigned(u: string): Option<nat>
  {
    if |u| >= 2 && u[0] == '0' && (u[1] == 'x' || u[1] == 'X') then
      var z := HexPrefix(u[2..]);
      if z == [] then None else Some(HexValue(z))
    else
      var z := DigitPrefix(u);
      if z == [] then None else Some(DecValue(z))
  }

  /** JavaScript's `parseInt(s)` without a radix; `None` stands for `NaN`.
      Leading white space is skipped, one sign is accepted, a `0x`/`0X`
      prefix switches to base 16, and the longest run of digits that
      follows is read; text after it is ignored. Blank text is `NaN`, and
      a run of decimal digits reads as its value. */
  function ParseInt(s: string): (r: Option<int>)
    ensures TrimStart(s) == [] ==> r.None?
    ensures s != [] && AllDigits(s) ==> r == Some(DecValue(s))
  {
    DigitsParseSigned(s);
    ParseSigned(TrimStart(s))
  }

  /** A run of decimal digits has no leading white space and no sign, and
      reads as its decimal value. */
  lemma DigitsParseSigned(d: string)
    ensures d != [] && AllDigits(d) ==> TrimStart(d) == d && ParseSigned(d) == Some(DecValue(d))
  {
    if d != [] && AllDigits(d) {
      assert !IsSpace(d[0]) by { assert IsDigit(d[0]); }
      ParseUnsignedOfDigits(d);
      assert d[0] != '-' && d[0] != '+' by { assert IsDigit(d[0]); }
    }
  }

  /** `parseInt` after the leading white space: an optional sign, then the
      digits. */
  function ParseSigned(t: string): Option<int>
  {
    if t != [] && t[0] == '-' then Signed(ParseUnsigned(t[1..]), true)
    else if t != [] && t[0] == '+' then Signed(ParseUnsigned(t[1..]), false)
    else Signed(ParseUnsigned(t), false)
  }

  function Signed(v: Option<nat>, negative: bool): Option<int>
  {
    match v
    case None => None
    case Some(n) => Some(if negative then -(n as int) else n as int)
  }

  /** `parseInt(s) || 0`: `NaN` (and 0) become 0. */
  function ParseIntOrZero(s: string): int
  {
    ParseInt(s).GetOr(0)
  }

  lemma DigitPrefixOfDigits(s: string)
    requires AllDigits(s)
    ensures DigitPrefix(s) == s
  {
  }

  lemma ParseUnsignedOfDigits(d: string)
    requires d != [] && AllDigits(d)
    ensures ParseUnsigned(d) == Some(DecValue(d))
  {
    if |d| >= 2 { assert IsDigit(d[1]); }
    DigitPrefixOfDigits(d);
  }

  lemma ParseIntOfNegatedDigits(d: string)
    requires d != [] && AllDigits(d)
    ensures ParseInt("-" + d) == Some(-(DecValue(d) as int))
  {
    var s := "-" + d;
    assert s[0] == '-' && !IsSpace(s[0]);
    assert TrimStart(s) == s;
    assert s[1..] == d;
    ParseUnsignedOfDigits(d);
    assert ParseSigned(s) == Signed(ParseUnsigned(d), true);
  }

  /** Printing a number and reading it back with `parseInt` gives the
      number back. */
  lemma ParseIntOfIntToString(i: int)
    ensures ParseInt(IntToString(i)) == Some(i)
  {
    var n: nat := if i < 0 then -i else i;
    DecValueOfNatToString(n);
    if i < 0 {
      ParseIntOfNegatedDigits(NatToString(n));
    } else {
      assert ParseInt(NatToString(n)) == Some(DecValue(NatToString(n)));
    }
  }

  /** The value of a run of decimal digits; `None` when some character
      is not a digit. The empty run is worth 0. */
  function DigitsValue(t: string): (r: Option<int>)
    ensures r.Some? ==> r.value >= 0
  {
    if t == [] then Some(0)
    else if !IsDigit(t[|t| - 1]) then None
    else match DigitsValue(t[..|t| - 1])
      case Some(v) => Some(10 * v + DigitValue(t[|t| - 1]))
      case None => None
  }

  lemma {:induction false} DigitsValueOfDigits(t: string)
    requires AllDigits(t)
    ensures DigitsValue(t) == Some(DecValue(t))
  {
    if t != [] {
      DigitsValueOfDigits(t[..|t| - 1]);
    }
  }

  /** JavaScript's `Number(s)` on unsigned decimal text, which is what
      the time fields of the front end hold: white space at either end is
      ignored, the empty text is 0 and a run of decimal digits is its value.
      Any other text is `None` here; for text that is not a number that is
      JavaScript's `NaN`, while signs, fractions, exponents and `0x`
      prefixes, which `Number` reads as numbers, are not modelled. */
  function NumberOf(s: string): (r: Option<int>)
    ensures r.Some? ==> r.value >= 0
    ensures s == [] ==> r == Some(0)
  {
    if s != [] && IsSpace(s[0]) then NumberOf(s[1..]) else NumberOfEnd(s)
  }

  /** `NumberOf` once the leading white space is gone. */
  function NumberOfEnd(s: string): (r: Option<int>)
    ensures r.Some? ==> r.value >= 0
  {
    if s != [] && IsSpace(s[|s| - 1]) then NumberOfEnd(s[..|s| - 1]) else DigitsValue(s)
  }

  /** A run of digits reads as its decimal value. */
  lemma NumberOfDigits(s: string)
    requires AllDigits(s)
    ensures NumberOf(s) == Some(DecValue(s))
  {
    if s != [] {
      assert !IsSpace(s[0]) && !IsSpace(s[|s| - 1]);
    }
    DigitsValueOfDigits(s);
  }

  /** A two-digit field reads as its value. */
  lemma TwoDigitsField(n: nat)
    requires n < 100
    ensures ':' !in TwoDigits(n) && NumberOf(TwoDigits(n)) == Some(n)
  {
    TwoDigitsValue(n);
    var s := TwoDigits(n);
    assert ':' !in s by { assert forall i :: 0 <= i < |s| ==> IsDigit(s[i]); }
    NumberOfDigits(s);
  }

  // --------------------------------------------------------- splitting

  /** The text before the first `sep` (all of `s` when there is none). */
  function Before(s: string, sep: char): (r: string)
    ensures |r| <= |s| && r == s[..|r|] && sep !in r
    ensures |r| < |s| ==> s[|r|] == sep
  {
    if s == [] || s[0] == sep then [] else [s[0]] + Before(s[1..], sep)
  }

  /** Without `sep`, the text before it is all of `s`. */
  lemma {:induction false} BeforeWithoutSep(s: string, sep: char)
    ensures sep !in s ==> Before(s, sep) == s
  {
    if s != [] && sep !in s {
      BeforeWithoutSep(s[1..], sep);
    }
  }

  /** `s.split(sep)[1] ?? ""`: the text between the first and the second
      `sep`, or "" when `s` has no `sep`. */
  function SecondField(s: string, sep: char): (r: string)
    ensures sep !in r
  {
    var b := Before(s, sep);
    if |b| == |s| then "" else Before(s[|b| + 1..], sep)
  }

  lemma FieldsOfJoin(a: string, b: string, sep: char)
    requires sep !in a
    ensures Before(a + [sep] + b, sep) == a
    ensures SecondField(a + [sep] + b, sep) == Before(b, sep)
  {
    if a != [] {
      assert (a + [sep] + b)[1..] == a[1..] + [sep] + b;
      FieldsOfJoin(a[1..], b, sep);
    }
  }

  // ------------------------------------------------------- comparison

  /** JavaScript's `a <= b` on strings: lexicographic by character, so
      a prefix is never greater than the text it begins. */
  function LexLe(a: string, b: string): (r: bool)
    ensures a <= b ==> r
  {
    if a == [] then true
    else if b == [] then false
    else if a[0] != b[0] then a[0] < b[0]
    else LexLe(a[1..], b[1..])
  }
}

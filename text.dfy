/**
 * The parts of Go's `strings` and `fmt` packages that the clarity-score parser and the
 * verdict check rely on, on strings of Unicode code points: `strings.TrimSpace`,
 * `strings.Split`, `strings.SplitN(_, ":", 2)`, `strings.ToUpper`, `fmt.Sscanf(_, "%d", _)`
 * and the `%d` verb of `fmt.Sprintf`.
 */
module Text {
  import opened Wrappers
  import opened Sequences

  const MinInt64: int := -0x8000_0000_0000_0000
  const MaxInt64: int := 0x7FFF_FFFF_FFFF_FFFF

  /** The white space of `unicode.IsSpace`, which is also the set `fmt`'s scanner skips. */
  predicate IsSpace(c: char)
  {
    ('\U{9}' <= c <= '\U{D}') || c == ' ' || c == '\U{85}' || c == '\U{A0}' || c == '\U{1680}'
    || ('\U{2000}' <= c <= '\U{200A}') || c == '\U{2028}' || c == '\U{2029}'
    || c == '\U{202F}' || c == '\U{205F}' || c == '\U{3000}'
  }

  predicate IsDigit(c: char)
  {
    '0' <= c <= '9'
  }

  predicate AllDigits(s: string)
  {
    forall k :: 0 <= k < |s| ==> IsDigit(s[k])
  }

  // ---------------------------------------------------------------- trimming

  /** Neither the first nor the last character is white space. */
  predicate Trimmed(s: string)
  {
    s == [] || (!IsSpace(s[0]) && !IsSpace(s[|s| - 1]))
  }

  /** `s` without its leading white space. */
  function TrimLeft(s: string): (r: string)
    ensures |r| <= |s| && r == s[|s| - |r|..]
    ensures forall k :: 0 <= k < |s| - |r| ==> IsSpace(s[k])
    ensures r == [] || !IsSpace(r[0])
  {
    if |s| > 0 && IsSpace(s[0]) then
      var r := TrimLeft(s[1..]);
      assert s[1..][|s| - 1 - |r|..] == s[|s| - |r|..];
      r
    else
      s
  }

  /** `s` without its trailing white space. */
  function TrimRight(s: string): (r: string)
    ensures |r| <= |s| && r == s[..|r|]
    ensures forall k :: |r| <= k < |s| ==> IsSpace(s[k])
    ensures r == [] || !IsSpace(r[|r| - 1])
  {
    if |s| > 0 && IsSpace(s[|s| - 1]) then TrimRight(s[..|s| - 1]) else s
  }

  /** `strings.TrimSpace`: the longest infix of `s` that neither starts nor ends with white space. */
  function TrimSpace(s: string): (r: string)
    ensures |r| <= |s| && Trimmed(r)
    ensures r == [] <==> forall k :: 0 <= k < |s| ==> IsSpace(s[k])
  {
    var l := TrimLeft(s);
    var r := TrimRight(l);
    if r == [] then
      r
    else
      assert !IsSpace(r[0]) by {
        assert r[0] == l[0];
      }
      r
  }

  /**
   * What trimming removes: the result is the infix of `s` between a run of leading and a
   * run of trailing white space, and it starts and ends with a non-space (`TrimSpace`'s
   * own contract), so the runs are as long as they can be.
   */
  lemma TrimSpaceStrips(s: string)
    ensures exists i, j :: (0 <= i <= j <= |s| && TrimSpace(s) == s[i..j]
      && (forall k :: 0 <= k < i ==> IsSpace(s[k])) && (forall k :: j <= k < |s| ==> IsSpace(s[k])))
  {
    var i, j := TrimSpaceBounds(s);
  }

  /** The bounds of the trimmed infix: where `TrimLeft` stops and where `TrimRight` stops. */
  lemma TrimSpaceBounds(s: string) returns (i: int, j: int)
    ensures 0 <= i <= j <= |s| && TrimSpace(s) == s[i..j]
    ensures forall k :: 0 <= k < i ==> IsSpace(s[k])
    ensures forall k :: j <= k < |s| ==> IsSpace(s[k])
  {
    var l := TrimLeft(s);
    var r := TrimRight(l);
    TrimSpaceIs(s);
    i, j := InfixBounds(s, l, r);
  }

  /** `TrimSpace` is `TrimRight` after `TrimLeft`. */
  lemma TrimSpaceIs(s: string)
    ensures TrimSpace(s) == TrimRight(TrimLeft(s))
  {
  }

  /**
   * A prefix `r` of a suffix `l` of `s` is the infix between the two cut points, and what
   * the prefix dropped from `l` is what lies after the infix in `s`.
   */
  lemma InfixBounds(s: string, l: string, r: string) returns (i: int, j: int)
    requires |l| <= |s| && l == s[|s| - |l|..]
    requires |r| <= |l| && r == l[..|r|]
    requires forall k :: |r| <= k < |l| ==> IsSpace(l[k])
    ensures i == |s| - |l| && j == i + |r| && r == s[i..j]
    ensures forall k :: j <= k < |s| ==> IsSpace(s[k])
  {
    i, j := |s| - |l|, |s| - |l| + |r|;
    forall k | j <= k < |s|
      ensures IsSpace(s[k])
    {
      assert s[k] == l[k - i];
    }
  }

  /** Text that neither starts nor ends with white space is its own trimmed form. */
  lemma TrimSpaceOfTrimmed(s: string)
    requires Trimmed(s)
    ensures TrimSpace(s) == s
  {
  }

  /** Trimming adds no character. */
  lemma TrimSpaceKeepsOut(s: string, c: char)
    requires c !in s
    ensures c !in TrimSpace(s)
  {
    var l := TrimLeft(s);
    assert l == s[|s| - |l|..];
    assert TrimSpace(s) == TrimRight(l) == l[..|TrimRight(l)|];
  }

  // ---------------------------------------------------------------- splitting

  /** `strings.Split(s, sep)` for a one-character separator: the pieces between separators. */
  function Split(s: string, sep: char): (parts: seq<string>)
    ensures |parts| >= 1
    ensures forall k :: 0 <= k < |parts| ==> sep !in parts[k]
    decreases |s|
  {
    var i := FirstIndex(s, sep);
    if i < 0 then [s] else [s[..i]] + Split(s[i + 1..], sep)
  }

  /** Splitting adds no character to any piece. */
  lemma {:induction false} SplitKeepsOut(s: string, sep: char, c: char)
    requires c !in s
    ensures forall k :: 0 <= k < |Split(s, sep)| ==> c !in Split(s, sep)[k]
    decreases |s|
  {
    var i := FirstIndex(s, sep);
    if i >= 0 {
      var head, tail := s[..i], s[i + 1..];
      assert Split(s, sep) == [head] + Split(tail, sep);
      AroundIndex(s, i);
      SplitKeepsOut(tail, sep, c);
      KeepsOutCons(c, head, Split(tail, sep));
    }
  }

  /** A character missing from a piece and from every later piece is missing from all of them. */
  lemma KeepsOutCons(c: char, head: string, rest: seq<string>)
    requires c !in head
    requires forall k :: 0 <= k < |rest| ==> c !in rest[k]
    ensures forall k :: 0 <= k < |[head] + rest| ==> c !in ([head] + rest)[k]
  {
    forall k | 0 <= k < |[head] + rest|
      ensures c !in ([head] + rest)[k]
    {
      if k > 0 {
        assert ([head] + rest)[k] == rest[k - 1];
      }
    }
  }

  /** `strings.Join(parts, sep)`: the pieces with one separator between neighbours. */
  function Join(parts: seq<string>, sep: char): string
  {
    if |parts| == 0 then ""
    else if |parts| == 1 then parts[0]
    else parts[0] + [sep] + Join(parts[1..], sep)
  }

  /** Splitting loses nothing: joining the pieces again gives back the input. */
  lemma {:induction false} JoinSplit(s: string, sep: char)
    ensures Join(Split(s, sep), sep) == s
    decreases |s|
  {
    var i := FirstIndex(s, sep);
    if i < 0 {
      assert Split(s, sep) == [s];
    } else {
      var head, tail := s[..i], s[i + 1..];
      assert Split(s, sep) == [head] + Split(tail, sep);
      JoinSplit(tail, sep);
      JoinCons(head, Split(tail, sep), sep);
      AroundIndex(s, i);
    }
  }

  /** A string is the part before an index, the character there and the part after it. */
  lemma AroundIndex(s: string, i: int)
    requires 0 <= i < |s|
    ensures s == s[..i] + [s[i]] + s[i + 1..]
  {
  }

  /** Joining a piece in front of at least one more puts a separator after it. */
  lemma JoinCons(head: string, rest: seq<string>, sep: char)
    requires |rest| >= 1
    ensures Join([head] + rest, sep) == head + [sep] + Join(rest, sep)
  {
    assert ([head] + rest)[1..] == rest;
  }

  /** Splitting is the inverse of joining pieces that do not contain the separator. */
  lemma {:induction false} SplitJoin(parts: seq<string>, sep: char)
    requires |parts| >= 1
    requires forall k :: 0 <= k < |parts| ==> sep !in parts[k]
    ensures Split(Join(parts, sep), sep) == parts
  {
    if |parts| > 1 {
      var s := Join(parts, sep);
      var tail := Join(parts[1..], sep);
      assert s == parts[0] + [sep] + tail;
      assert s[..|parts[0]|] == parts[0];
      assert s[|parts[0]|] == sep;
      var i := FirstIndex(s, sep);
      assert i == |parts[0]|;
      assert s[i + 1..] == tail;
      SplitJoin(parts[1..], sep);
    }
  }

  /**
   * `strings.SplitN(s, ":", 2)` read as a pair: the text before the first ':' and the text
   * after it, or None when `s` holds no ':' (SplitN then returns one piece).
   */
  function SplitAtColon(s: string): (r: Option<(string, string)>)
    ensures r.None? <==> ':' !in s
    ensures r.Some? ==> s == r.value.0 + ":" + r.value.1 && ':' !in r.value.0
  {
    var i := FirstIndex(s, ':');
    if i < 0 then None
    else
      assert s == s[..i] + ":" + s[i + 1..];
      Some((s[..i], s[i + 1..]))
  }

  /** The first ':' is the one right after a colon-free head. */
  lemma SplitAtColonOf(head: string, tail: string)
    requires ':' !in head
    ensures SplitAtColon(head + ":" + tail) == Some((head, tail))
  {
    var s := head + ":" + tail;
    assert s[..|head|] == head;
    assert s[|head|] == ':';
    assert s[|head| + 1..] == tail;
  }

  // ---------------------------------------------------------------- case mapping

  /**
   * `unicode.ToUpper` as far as it can produce an ASCII character: the ASCII lower-case
   * letters, dotless i (U+0131, upper-cased to 'I') and long s (U+017F, upper-cased to 'S').
   * Every other character is kept; Go maps some of them to other non-ASCII characters,
   * which never turns a string into an ASCII word or out of one.
   */
  function UpperChar(c: char): (u: char)
    ensures 'a' <= c <= 'z' ==> u as int == c as int - 32
    ensures c == '\U{131}' ==> u == 'I'
    ensures c == '\U{17F}' ==> u == 'S'
  {
    if 'a' <= c <= 'z' then (c as int - 32) as char
    else if c == '\U{131}' then 'I'
    else if c == '\U{17F}' then 'S'
    else c
  }

  /** `strings.ToUpper`, character by character. */
  function ToUpper(s: string): (r: string)
    ensures |r| == |s| && forall k :: 0 <= k < |s| ==> r[k] == UpperChar(s[k])
  {
    seq(|s|, k requires 0 <= k < |s| => UpperChar(s[k]))
  }

  /** Upper-case ASCII letters and underscores only. */
  predicate UpperWord(s: string)
  {
    forall k :: 0 <= k < |s| ==> 'A' <= s[k] <= 'Z' || s[k] == '_'
  }

  /** An upper-case word is left alone by trimming and by upper-casing. */
  lemma UpperWordNormal(s: string)
    requires UpperWord(s)
    ensures ToUpper(TrimSpace(s)) == s
  {
    TrimSpaceOfTrimmed(s);
  }

  // ---------------------------------------------------------------- integers

  /** The value of a run of decimal digits. */
  function DigitsValue(d: string): nat
    requires AllDigits(d)
  {
    if d == [] then 0 else DigitsValue(d[..|d| - 1]) * 10 + (d[|d| - 1] as int - '0' as int)
  }

  /** The longest prefix of `s` made of decimal digits. */
  function LeadingDigits(s: string): (d: string)
    ensures |d| <= |s| && d == s[..|d|] && AllDigits(d)
    ensures |d| == |s| || !IsDigit(s[|d|])
  {
    if s != [] && IsDigit(s[0]) then [s[0]] + LeadingDigits(s[1..]) else []
  }

  /**
   * The input after the white space `fmt`'s scanner skips before a number, or None when
   * that white space holds a newline (Sscanf reports "unexpected newline").
   */
  function SkipBlanks(s: string): (r: Option<string>)
    ensures r.Some? ==> |r.value| <= |s| && r.value == s[|s| - |r.value|..]
    ensures r.Some? ==> r.value == [] || !IsSpace(r.value[0])
  {
    if s == [] then Some(s)
    else if s[0] == '\n' then None
    else if IsSpace(s[0]) then SkipBlanks(s[1..])
    else Some(s)
  }

  /**
   * `fmt.Sscanf(s, "%d", &v)`: skips leading white space, takes an optional sign and at
   * least one decimal digit, ignores whatever follows the digits, and fails when there is no
   * digit, when a newline comes first, or when the value does not fit in 64 bits.
   */
  function ScanInt(s: string): (r: Option<int>)
    ensures r.Some? ==> MinInt64 <= r.value <= MaxInt64
  {
    match SkipBlanks(s)
    case None => None
    case Some(t) => ScanNumber(t)
  }

  /** The optional sign and the digits of `%d`, once the blanks are skipped. */
  function ScanNumber(t: string): (r: Option<int>)
    ensures r.Some? ==> MinInt64 <= r.value <= MaxInt64
  {
    if t == [] then None
    else
      var negative := t[0] == '-';
      var unsigned := if t[0] == '-' || t[0] == '+' then t[1..] else t;
      var digits := LeadingDigits(unsigned);
      if digits == [] then None
      else
        var v: int := if negative then -(DigitsValue(digits) as int) else DigitsValue(digits);
        if MinInt64 <= v <= MaxInt64 then Some(v) else None
  }

  function DigitChar(d: nat): (c: char)
    requires d < 10
    ensures IsDigit(c) && c as int - '0' as int == d
  {
    ('0' as int + d) as char
  }

  /** The decimal digits of `n`, without leading zeros. */
  function FormatNat(n: nat): (s: string)
    ensures |s| >= 1 && AllDigits(s)
  {
    if n < 10 then [DigitChar(n)] else FormatNat(n / 10) + [DigitChar(n % 10)]
  }

  /** The `%d` verb of `fmt.Sprintf`. */
  function FormatInt(n: int): string
  {
    if n < 0 then "-" + FormatNat(-n) else FormatNat(n)
  }

  lemma {:induction false} FormatNatValue(n: nat)
    ensures DigitsValue(FormatNat(n)) == n
  {
    if n >= 10 {
      FormatNatValue(n / 10);
      var s := FormatNat(n);
      assert s[..|s| - 1] == FormatNat(n / 10);
    }
  }

  lemma LeadingDigitsOfDigits(s: string)
    requires AllDigits(s)
    ensures LeadingDigits(s) == s
  {
  }

  /** A run of digits scans as its value when that fits in 64 bits. */
  lemma ScanDigits(digits: string)
    requires digits != [] && AllDigits(digits) && DigitsValue(digits) <= MaxInt64
    ensures ScanInt(digits) == Some(DigitsValue(digits) as int)
  {
    LeadingDigitsOfDigits(digits);
    assert SkipBlanks(digits) == Some(digits);
  }

  /** A minus sign and a run of digits scan as the negated value when that fits in 64 bits. */
  lemma ScanNegatedDigits(digits: string)
    requires digits != [] && AllDigits(digits) && DigitsValue(digits) <= -MinInt64
    ensures ScanInt("-" + digits) == Some(-(DigitsValue(digits) as int))
  {
    var t := "-" + digits;
    assert SkipBlanks(t) == Some(t);
    assert t[1..] == digits;
    LeadingDigitsOfDigits(digits);
  }

  /** White space that `fmt`'s scanner skips before a number: anything but a newline. */
  predicate Blanks(b: string)
  {
    forall k :: 0 <= k < |b| ==> IsSpace(b[k]) && b[k] != '\n'
  }

  /** Skipping blanks stops at the first character that is not white space. */
  lemma {:induction false} SkipBlanksOf(blanks: string, t: string)
    requires Blanks(blanks) && (t == [] || !IsSpace(t[0]))
    ensures SkipBlanks(blanks + t) == Some(t)
  {
    if blanks == [] {
      assert blanks + t == t;
    } else {
      assert (blanks + t)[1..] == blanks[1..] + t;
      SkipBlanksOf(blanks[1..], t);
    }
  }

  /** A newline among the leading white space stops the scanner. */
  lemma {:induction false} SkipBlanksNewline(space: string, rest: string)
    requires forall k :: 0 <= k < |space| ==> IsSpace(space[k])
    requires '\n' in space
    ensures SkipBlanks(space + rest).None?
  {
    assert (space + rest)[0] == space[0];
    if space[0] != '\n' {
      assert (space + rest)[1..] == space[1..] + rest;
      assert '\n' in space[1..] by {
        var k :| 0 <= k < |space| && space[k] == '\n';
        assert space[1..][k - 1] == '\n';
      }
      SkipBlanksNewline(space[1..], rest);
    }
  }

  /** The digits at the head of `digits + rest` are `digits` when `rest` does not start with one. */
  lemma {:induction false} LeadingDigitsOfPrefix(digits: string, rest: string)
    requires AllDigits(digits) && (rest == [] || !IsDigit(rest[0]))
    ensures LeadingDigits(digits + rest) == digits
  {
    if digits == [] {
      assert digits + rest == rest;
    } else {
      assert (digits + rest)[1..] == digits[1..] + rest;
      LeadingDigitsOfPrefix(digits[1..], rest);
    }
  }

  /** `%d` refuses input whose leading white space holds a newline. */
  lemma ScanRefusesNewline(space: string, rest: string)
    requires forall k :: 0 <= k < |space| ==> IsSpace(space[k])
    requires '\n' in space
    ensures ScanInt(space + rest).None?
  {
    SkipBlanksNewline(space, rest);
  }

  /** `%d` refuses input whose first character after the blanks is no digit, no sign and no white space. */
  lemma ScanRefusesNoNumber(blanks: string, rest: string)
    requires Blanks(blanks)
    requires rest == [] || !(IsDigit(rest[0]) || IsSpace(rest[0]) || rest[0] == '+' || rest[0] == '-')
    ensures ScanInt(blanks + rest).None?
  {
    SkipBlanksOf(blanks, rest);
  }

  /** `%d` refuses a sign that no digit follows. */
  lemma ScanRefusesBareSign(blanks: string, sign: char, rest: string)
    requires Blanks(blanks) && (sign == '+' || sign == '-')
    requires rest == [] || !IsDigit(rest[0])
    ensures ScanInt(blanks + [sign] + rest).None?
  {
    var t := [sign] + rest;
    assert blanks + [sign] + rest == blanks + t;
    SkipBlanksOf(blanks, t);
    assert t[1..] == rest;
  }

  /** The signed value of a sign character and a run of digits. */
  function SignedValue(sign: char, digits: string): int
    requires AllDigits(digits)
  {
    if sign == '-' then -(DigitsValue(digits) as int) else DigitsValue(digits) as int
  }

  /**
   * `%d` reads blanks and a run of digits, ignoring what follows the digits: their value
   * when it fits in 64 bits, and a refusal when it does not.
   */
  lemma ScanUnsignedDigits(blanks: string, digits: string, rest: string)
    requires Blanks(blanks)
    requires digits != [] && AllDigits(digits) && (rest == [] || !IsDigit(rest[0]))
    ensures ScanInt(blanks + digits + rest) ==
      if DigitsValue(digits) <= MaxInt64 then Some(DigitsValue(digits) as int) else None
  {
    var t := digits + rest;
    assert blanks + digits + rest == blanks + t;
    assert t[0] == digits[0];
    SkipBlanksOf(blanks, t);
    ScanNumberUnsigned(digits, rest);
  }

  /** The digits step of `%d` on digits with no sign before them. */
  lemma ScanNumberUnsigned(digits: string, rest: string)
    requires digits != [] && AllDigits(digits) && (rest == [] || !IsDigit(rest[0]))
    ensures ScanNumber(digits + rest) ==
      if DigitsValue(digits) <= MaxInt64 then Some(DigitsValue(digits) as int) else None
  {
    var t := digits + rest;
    assert t[0] == digits[0] && IsDigit(t[0]);
    LeadingDigitsOfPrefix(digits, rest);
  }

  /** The same after a sign: the signed value when it fits in 64 bits, a refusal otherwise. */
  lemma ScanSignedDigits(blanks: string, sign: char, digits: string, rest: string)
    requires Blanks(blanks) && (sign == '+' || sign == '-')
    requires digits != [] && AllDigits(digits) && (rest == [] || !IsDigit(rest[0]))
    ensures ScanInt(blanks + [sign] + digits + rest) ==
      if MinInt64 <= SignedValue(sign, digits) <= MaxInt64 then Some(SignedValue(sign, digits)) else None
  {
    var t := [sign] + (digits + rest);
    assert blanks + [sign] + digits + rest == blanks + t;
    SkipBlanksOf(blanks, t);
    ScanNumberSigned(sign, digits, rest);
  }

  /** The sign-and-digits step of `%d` on a sign character followed by digits. */
  lemma ScanNumberSigned(sign: char, digits: string, rest: string)
    requires sign == '+' || sign == '-'
    requires digits != [] && AllDigits(digits) && (rest == [] || !IsDigit(rest[0]))
    ensures ScanNumber([sign] + (digits + rest)) ==
      if MinInt64 <= SignedValue(sign, digits) <= MaxInt64 then Some(SignedValue(sign, digits)) else None
  {
    var t := [sign] + (digits + rest);
    assert t[0] == sign && t[1..] == digits + rest;
    LeadingDigitsOfPrefix(digits, rest);
  }

  /** Scanning with `%d` reads back every 64-bit integer that `%d` formatted. */
  lemma ScanFormat(n: int)
    requires MinInt64 <= n <= MaxInt64
    ensures ScanInt(FormatInt(n)) == Some(n)
  {
    var m: nat := if n < 0 then -n else n;
    FormatNatValue(m);
    if n < 0 {
      ScanNegatedDigits(FormatNat(m));
    } else {
      ScanDigits(FormatNat(m));
    }
  }
}

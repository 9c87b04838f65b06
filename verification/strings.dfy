/** The handful of Python string operations the exercises rely on:
    `str.lower`, `str.strip`, `str.split`, `str.join`, `int(...)` on text,
    and the decimal rendering of an integer inside an f-string. */
module Strings {
  import opened Results

  // ---------------------------------------------------------------- lower()

  function LowerChar(ch: char): char
  {
    if 'A' <= ch <= 'Z' then (ch as int + 32) as char else ch
  }

  /** `s.lower()`, restricted to the ASCII letters: each character is lowered on its own. */
  function Lower(s: string): (r: string)
    ensures |r| == |s|
    ensures forall i :: 0 <= i < |s| ==> r[i] == LowerChar(s[i])
  {
    if s == [] then [] else [LowerChar(s[0])] + Lower(s[1..])
  }

  // ---------------------------------------------------------------- strip()

  /** The characters for which Python's `str.isspace()` holds; `strip()` removes exactly these. */
  predicate IsSpace(ch: char)
  {
    var c := ch as int;
    (0x09 <= c <= 0x0D) || (0x1C <= c <= 0x20) || c == 0x85 || c == 0xA0 || c == 0x1680
    || (0x2000 <= c <= 0x200A) || c == 0x2028 || c == 0x2029 || c == 0x202F || c == 0x205F
    || c == 0x3000
  }

  predicate AllSpace(s: string)
  {
    forall i :: 0 <= i < |s| ==> IsSpace(s[i])
  }

  /** The number of whitespace characters `s` starts with. */
  function LeadingSpaces(s: string): (n: nat)
    ensures n <= |s| && AllSpace(s[..n])
    ensures n == |s| || !IsSpace(s[n])
    decreases |s|
  {
    if s != [] && IsSpace(s[0]) then
      var n := 1 + LeadingSpaces(s[1..]);
      assert s[..n] == [s[0]] + s[1..][..n - 1];
      n
    else 0
  }

  /** The number of whitespace characters `s` ends with. */
  function TrailingSpaces(s: string): (n: nat)
    ensures n <= |s| && AllSpace(s[|s| - n..])
    ensures n == |s| || !IsSpace(s[|s| - n - 1])
    decreases |s|
  {
    if s != [] && IsSpace(s[|s| - 1]) then
      var t := s[..|s| - 1];
      var m := TrailingSpaces(t);
      assert s[|s| - (m + 1)..] == t[|t| - m..] + [s[|s| - 1]];
      AllSpaceSnoc(t[|t| - m..], s[|s| - 1]);
      m + 1
    else 0
  }

  lemma AllSpaceSnoc(a: string, c: char)
    requires AllSpace(a) && IsSpace(c)
    ensures AllSpace(a + [c])
  {
  }

  /** Drops leading whitespace. */
  function TrimStart(s: string): string
  {
    s[LeadingSpaces(s)..]
  }

  /** Drops trailing whitespace. */
  function TrimEnd(s: string): string
  {
    s[..|s| - TrailingSpaces(s)]
  }

  /** `s.strip()`: the result neither starts nor ends with whitespace. */
  function Strip(s: string): (r: string)
    ensures |r| <= |s|
    ensures r == [] || (!IsSpace(r[0]) && !IsSpace(r[|r| - 1]))
  {
    TrimEnd(TrimStart(s))
  }

  /** What `strip()` keeps is one contiguous piece of `s`, and what it drops on either side is whitespace. */
  lemma StripKeepsInfix(s: string)
    ensures var r, i := Strip(s), |s| - |TrimStart(s)|;
      i + |r| <= |s| && r == s[i..i + |r|] && AllSpace(s[..i]) && AllSpace(s[i + |r|..])
  {
    var i := LeadingSpaces(s);
    var t := s[i..];
    var r := t[..|t| - TrailingSpaces(t)];
    assert t[|r|..] == s[i + |r|..];
  }

  /** Text that already has no whitespace at either end comes back from `strip()` unchanged. */
  lemma StripUntrimmed(s: string)
    requires s == [] || (!IsSpace(s[0]) && !IsSpace(s[|s| - 1]))
    ensures Strip(s) == s
  {
    assert TrimStart(s) == s;
    assert TrimEnd(s) == s;
  }

  /** Stripping twice is stripping once. */
  lemma StripIdempotent(s: string)
    ensures Strip(Strip(s)) == Strip(s)
  {
    StripUntrimmed(Strip(s));
  }

  // ---------------------------------------------------------------- split() / join()

  function Occurrences(s: string, ch: char): (n: nat)
    ensures n <= |s|
  {
    if s == [] then 0 else (if s[0] == ch then 1 else 0) + Occurrences(s[1..], ch)
  }

  /** `s.split(sep)` for a one-character separator: one more piece than there are separators,
      and no piece contains the separator. */
  function Split(s: string, sep: char): (parts: seq<string>)
    ensures |parts| == Occurrences(s, sep) + 1
    ensures forall i :: 0 <= i < |parts| ==> sep !in parts[i]
    decreases |s|
  {
    if s == [] then [[]]
    else
      var rest := Split(s[1..], sep);
      if s[0] == sep then [[]] + rest else [[s[0]] + rest[0]] + rest[1..]
  }

  /** `sep.join(parts)`. */
  function Join(parts: seq<string>, sep: string): string
  {
    if |parts| == 0 then []
    else if |parts| == 1 then parts[0]
    else parts[0] + sep + Join(parts[1..], sep)
  }

  lemma JoinThree(a: string, b: string, c: string, sep: string)
    ensures Join([a, b, c], sep) == a + sep + b + sep + c
  {
    assert [a, b, c][1..] == [b, c];
    assert [b, c][1..] == [c];
    assert Join([b, c], sep) == b + sep + c;
    assert Join([a, b, c], sep) == a + sep + (b + sep + c);
  }

  lemma JoinFour(a: string, b: string, c: string, d: string, sep: string)
    ensures Join([a, b, c, d], sep) == a + sep + b + sep + c + sep + d
  {
    assert [a, b, c, d][1..] == [b, c, d];
    JoinThree(b, c, d, sep);
    assert Join([a, b, c, d], sep) == a + sep + (b + sep + c + sep + d);
  }

  /** A character found neither in the parts nor in the separator is not in their join. */
  lemma {:induction false} JoinAvoids(parts: seq<string>, sep: string, ch: char)
    requires ch !in sep
    requires forall i :: 0 <= i < |parts| ==> ch !in parts[i]
    ensures ch !in Join(parts, sep)
    decreases |parts|
  {
    if |parts| > 1 {
      JoinAvoids(parts[1..], sep, ch);
    }
  }

  /** Joining the pieces of a split with the same separator gives back the original text. */
  lemma {:induction false} JoinSplit(s: string, sep: char)
    ensures Join(Split(s, sep), [sep]) == s
    decreases |s|
  {
    if s != [] {
      var rest := Split(s[1..], sep);
      JoinSplit(s[1..], sep);
      if s[0] == sep {
        assert Split(s, sep) == [[]] + rest;
        assert ([[]] + rest)[1..] == rest;
      } else {
        var parts := [[s[0]] + rest[0]] + rest[1..];
        assert Split(s, sep) == parts;
        if |rest| == 1 {
          assert Join(parts, [sep]) == [s[0]] + rest[0];
        } else {
          assert parts[1..] == rest[1..];
          assert Join(rest, [sep]) == rest[0] + [sep] + Join(rest[1..], [sep]);
        }
      }
    }
  }

  /** Splitting text that starts with a separator-free piece `a` keeps `a` at the front of the first piece. */
  lemma {:induction false} SplitAfterPiece(a: string, tail: string, sep: char)
    requires sep !in a
    ensures Split(a + tail, sep) == [a + Split(tail, sep)[0]] + Split(tail, sep)[1..]
    decreases |a|
  {
    if a != [] {
      SplitAfterPiece(a[1..], tail, sep);
      assert (a + tail)[1..] == a[1..] + tail;
      assert [a[0]] + (a[1..] + Split(tail, sep)[0]) == a + Split(tail, sep)[0];
    } else {
      var pieces := Split(tail, sep);
      assert a + tail == tail;
      assert a + pieces[0] == pieces[0];
      assert [pieces[0]] + pieces[1..] == pieces;
    }
  }

  /** Splitting the join of separator-free pieces gives back exactly those pieces. */
  lemma {:induction false} SplitJoin(parts: seq<string>, sep: char)
    requires |parts| >= 1
    requires forall i :: 0 <= i < |parts| ==> sep !in parts[i]
    ensures Split(Join(parts, [sep]), sep) == parts
    decreases |parts|
  {
    if |parts| == 1 {
      SplitAfterPiece(parts[0], [], sep);
      assert parts[0] + [] == parts[0];
    } else {
      var rest := Join(parts[1..], [sep]);
      SplitJoin(parts[1..], sep);
      assert Join(parts, [sep]) == parts[0] + ([sep] + rest);
      SplitAfterPiece(parts[0], [sep] + rest, sep);
      assert ([sep] + rest)[1..] == rest;
      assert Split([sep] + rest, sep) == [[]] + parts[1..];
      assert parts[0] + [] == parts[0];
      assert ([[]] + parts[1..])[1..] == parts[1..];
      assert [parts[0]] + parts[1..] == parts;
    }
  }

  // ---------------------------------------------------------------- digits, int(), str()

  predicate IsDigit(ch: char)
  {
    '0' <= ch <= '9'
  }

  predicate AllDigits(s: string)
  {
    forall i :: 0 <= i < |s| ==> IsDigit(s[i])
  }

  function DigitValue(ch: char): nat
    requires IsDigit(ch)
  {
    ch as int - '0' as int
  }

  function DigitChar(d: nat): char
    requires d < 10
  {
    (d + '0' as int) as char
  }

  /** The number a string of decimal digits denotes (leading zeros allowed). */
  function DigitsValue(s: string): nat
    requires AllDigits(s)
    decreases |s|
  {
    if s == [] then 0 else 10 * DigitsValue(s[..|s| - 1]) + DigitValue(s[|s| - 1])
  }

  /** `str(n)` for a natural number: a non-empty run of decimal digits that denotes `n`, with no
      leading zero except in "0" itself. */
  function ShowNat(n: nat): (s: string)
    ensures s != [] && AllDigits(s) && DigitsValue(s) == n
    ensures |s| == 1 || s[0] != '0'
    decreases n
  {
    if n < 10 then
      [DigitChar(n)]
    else
      var prefix := ShowNat(n / 10);
      var s := prefix + [DigitChar(n % 10)];
      assert s[..|s| - 1] == prefix;
      assert s[0] == prefix[0];
      s
  }

  function Pow10(k: nat): nat
  {
    if k == 0 then 1 else 10 * Pow10(k - 1)
  }

  /** A number below `10^k` is written with at most `k` digits. */
  lemma {:induction false} ShowNatWithin(n: nat, k: nat)
    requires 0 < k && n < Pow10(k)
    ensures |ShowNat(n)| <= k
    decreases k
  {
    if n >= 10 {
      assert Pow10(1) == 10;
      assert k > 1;
      assert n / 10 < Pow10(k - 1);
      ShowNatWithin(n / 10, k - 1);
    }
  }

  /** The ASCII separators U+001C to U+001F: `isspace()` holds for them, but `int()` does not skip them. */
  predicate IsSeparator(ch: char)
  {
    0x1C <= ch as int <= 0x1F
  }

  predicate NoSeparator(s: string)
  {
    forall i :: 0 <= i < |s| ==> !IsSeparator(s[i])
  }

  /** CPython's default limit on the digits `int()` converts from decimal text and `str()` writes
      (`sys.int_info.default_max_str_digits`); leading zeros count towards it. */
  const MaxStrDigits: nat := 4300

  /** What `int()` accepts once its whitespace is skipped: an optional sign, then one or more ASCII
      digits, at most `MaxStrDigits` of them (more raise ValueError). */
  function ParseSigned(t: string): Option<int>
  {
    if t != [] && (t[0] == '+' || t[0] == '-') then
      if |t| > 1 && AllDigits(t[1..]) && |t| - 1 <= MaxStrDigits then
        var magnitude: int := DigitsValue(t[1..]);
        Some(if t[0] == '-' then -magnitude else magnitude)
      else None
    else if t != [] && AllDigits(t) && |t| <= MaxStrDigits then Some(DigitsValue(t))
    else None
  }

  /** `int(s)` for base-ten text: whitespace around a signed run of digits. `int()` skips the
      `isspace()` characters other than the separators; a separator among the whitespace that
      `strip()` would drop stops that skipping at a character that is neither sign nor digit,
      so the text is then rejected. */
  function ParseInt(s: string): (r: Option<int>)
    ensures r.Some? ==> var t := Strip(s);
      && t != [] && AllDigits(t[1..]) && (IsDigit(t[0]) || t[0] == '+' || t[0] == '-')
    ensures r.Some? && r.value < 0 ==> Strip(s)[0] == '-'
    ensures r.Some? ==> var t := Strip(s); (if IsDigit(t[0]) then |t| else |t| - 1) <= MaxStrDigits
  {
    var t := TrimStart(s);
    var r := TrimEnd(t);
    if NoSeparator(s[..|s| - |t|]) && NoSeparator(t[|r|..]) then ParseSigned(r) else None
  }

  function Zeros(k: nat): string
  {
    seq(k, _ => '0')
  }

  /** Left-pads with '0' up to `width` characters, as the fixed-width fields of an ISO date. */
  function PadZeros(s: string, width: nat): (r: string)
    ensures |r| >= width && |r| >= |s|
  {
    if |s| >= width then s else Zeros(width - |s|) + s
  }

  lemma {:induction false} ZerosDenoteZero(k: nat)
    ensures AllDigits(Zeros(k)) && DigitsValue(Zeros(k)) == 0
  {
    if k > 0 {
      assert Zeros(k)[..k - 1] == Zeros(k - 1);
      ZerosDenoteZero(k - 1);
    }
  }

  /** Leading zeros do not change the number a digit string denotes. */
  lemma {:induction false} LeadingZerosIgnored(k: nat, s: string)
    requires AllDigits(s)
    ensures AllDigits(Zeros(k) + s) && DigitsValue(Zeros(k) + s) == DigitsValue(s)
    decreases |s|
  {
    var z := Zeros(k) + s;
    if s == [] {
      assert z == Zeros(k);
      ZerosDenoteZero(k);
    } else {
      LeadingZerosIgnored(k, s[..|s| - 1]);
      assert z[..|z| - 1] == Zeros(k) + s[..|s| - 1];
    }
  }

  /** A non-empty run of digits has no whitespace and no sign to skip, so `int()` reads its value,
      unless it is longer than the digit limit. */
  lemma ParseDigits(t: string)
    requires t != [] && AllDigits(t)
    ensures ParseInt(t) == if |t| <= MaxStrDigits then Some(DigitsValue(t)) else None
  {
    DigitsUnsigned(t);
    assert TrimStart(t) == t;
    assert TrimEnd(t) == t;
  }

  /** A non-empty run of digits neither starts nor ends with whitespace and has no sign. */
  lemma DigitsUnsigned(t: string)
    requires t != [] && AllDigits(t)
    ensures !IsSpace(t[0]) && !IsSpace(t[|t| - 1]) && t[0] != '+' && t[0] != '-'
  {
    assert IsDigit(t[0]) && IsDigit(t[|t| - 1]);
  }

  /** A separator in front of a number is whitespace to `strip()` but makes `int()` fail. */
  lemma SeparatorBefore(t: string, sep: char)
    requires t != [] && AllDigits(t) && IsSeparator(sep)
    ensures IsSpace(sep) && Strip([sep] + t) == t && ParseInt([sep] + t) == None
  {
    var a := [sep] + t;
    DigitsUnsigned(t);
    assert TrimStart(t) == t;
    assert TrimStart(a) == t;
    assert a[..|a| - |t|] == [sep];
  }

  /** A separator behind a number is whitespace to `strip()` but makes `int()` fail. */
  lemma SeparatorAfter(t: string, sep: char)
    requires t != [] && AllDigits(t) && IsSeparator(sep)
    ensures IsSpace(sep) && Strip(t + [sep]) == t && ParseInt(t + [sep]) == None
  {
    var b := t + [sep];
    DigitsUnsigned(t);
    assert b[0] == t[0];
    assert TrimStart(b) == b;
    assert TrimEnd(t) == t;
    assert TrimEnd(b) == t by { assert b[..|b| - 1] == t; }
    assert b[|t|..] == [sep];
  }

  /** Zero padding keeps a rendering all digits and keeps its value. */
  lemma PaddedDigits(n: nat, width: nat)
    ensures var t := PadZeros(ShowNat(n), width); t != [] && AllDigits(t) && DigitsValue(t) == n
  {
    var digits := ShowNat(n);
    if |digits| < width {
      LeadingZerosIgnored(width - |digits|, digits);
      assert PadZeros(digits, width) == Zeros(width - |digits|) + digits;
    } else {
      assert PadZeros(digits, width) == digits;
    }
  }

  /** `int()` reads back what `str()` writes, also after zero padding, as long as the padded text
      stays within the digit limit; past it, `int()` fails. */
  lemma ParseIntPadded(n: nat, width: nat)
    ensures var t := PadZeros(ShowNat(n), width);
      ParseInt(t) == if |t| <= MaxStrDigits then Some(n) else None
  {
    PaddedDigits(n, width);
    ParseDigits(PadZeros(ShowNat(n), width));
  }
}

/**
 * String operations of the JavaScript and Python standard libraries that the
 * modelled code relies on: trim, ASCII case mapping, substring search,
 * single-character split and join, digit filtering and decimal rendering.
 * Strings are sequences of characters.
 */
module Text {
  import opened Wrappers

  /** The characters JavaScript's String.prototype.trim removes. */
  predicate IsSpace(c: char)
  {
    c == ' ' || c == '\t' || c == '\n' || c == '\r' || c == '\U{000B}' || c == '\U{000C}'
    || c == '\U{00A0}' || c == '\U{1680}' || ('\U{2000}' <= c <= '\U{200A}')
    || c == '\U{2028}' || c == '\U{2029}' || c == '\U{202F}' || c == '\U{205F}'
    || c == '\U{3000}' || c == '\U{FEFF}'
  }

  predicate IsBlank(s: string)
  {
    forall i :: 0 <= i < |s| ==> IsSpace(s[i])
  }

  /** The number of whitespace characters s starts with. */
  function LeadingSpaces(s: string): (n: nat)
    ensures n <= |s|
    ensures forall i :: 0 <= i < n ==> IsSpace(s[i])
    ensures n < |s| ==> !IsSpace(s[n])
  {
    if |s| > 0 && IsSpace(s[0]) then 1 + LeadingSpaces(s[1..]) else 0
  }

  /** The number of whitespace characters s ends with. */
  function TrailingSpaces(s: string): (n: nat)
    ensures n <= |s|
    ensures forall i :: |s| - n <= i < |s| ==> IsSpace(s[i])
    ensures n < |s| ==> !IsSpace(s[|s| - n - 1])
  {
    if |s| > 0 && IsSpace(s[|s| - 1]) then 1 + TrailingSpaces(s[..|s| - 1]) else 0
  }

  /** Drops leading whitespace. */
  function TrimStart(s: string): string
  {
    s[LeadingSpaces(s)..]
  }

  /** Drops trailing whitespace. */
  function TrimEnd(s: string): string
  {
    s[..|s| - TrailingSpaces(s)]
  }

  /** JavaScript's trim: a contiguous slice with no whitespace at either end. */
  function Trim(s: string): (r: string)
    ensures |r| <= |s|
    ensures r == [] || (!IsSpace(r[0]) && !IsSpace(r[|r| - 1]))
    ensures r == [] <==> IsBlank(s)
  {
    TrimEnd(TrimStart(s))
  }

  /**
   * Trim removes only whitespace, and only at the ends: the input is the
   * result with a blank prefix and a blank suffix around it.
   */
  lemma TrimSlice(s: string)
    ensures exists pre, post :: s == pre + Trim(s) + post && IsBlank(pre) && IsBlank(post)
  {
    var k := LeadingSpaces(s);
    var t := s[k..];
    var n := TrailingSpaces(t);
    assert Trim(s) == t[..|t| - n];
    assert s == s[..k] + Trim(s) + t[|t| - n..];
    assert IsBlank(s[..k]) && IsBlank(t[|t| - n..]);
  }

  lemma TrimIdempotent(s: string)
    ensures Trim(Trim(s)) == Trim(s)
  {
    var t := Trim(s);
    if t != [] {
      assert TrimStart(t) == t;
      assert TrimEnd(t) == t;
    }
  }

  lemma TrimNoSpaceEnds(s: string)
    requires s == [] || (!IsSpace(s[0]) && !IsSpace(s[|s| - 1]))
    ensures Trim(s) == s
  {
  }

  predicate IsUpperAscii(c: char) { 'A' <= c <= 'Z' }
  predicate IsLowerAscii(c: char) { 'a' <= c <= 'z' }
  predicate IsDigit(c: char) { '0' <= c <= '9' }

  function LowerChar(c: char): char
  {
    if IsUpperAscii(c) then (c as int + 32) as char else c
  }

  function UpperChar(c: char): char
  {
    if IsLowerAscii(c) then (c as int - 32) as char else c
  }

  /** toLowerCase restricted to ASCII letters; other characters are kept. */
  function Lower(s: string): (r: string)
    ensures |r| == |s|
    ensures forall i :: 0 <= i < |s| ==> r[i] == LowerChar(s[i])
  {
    if s == [] then [] else [LowerChar(s[0])] + Lower(s[1..])
  }

  /** toUpperCase restricted to ASCII letters; other characters are kept. */
  function Upper(s: string): (r: string)
    ensures |r| == |s|
    ensures forall i :: 0 <= i < |s| ==> r[i] == UpperChar(s[i])
  {
    if s == [] then [] else [UpperChar(s[0])] + Upper(s[1..])
  }

  lemma LowerAppend(a: string, b: string)
    ensures Lower(a + b) == Lower(a) + Lower(b)
  {
    var l, r := Lower(a + b), Lower(a) + Lower(b);
    forall i | 0 <= i < |a + b|
      ensures l[i] == r[i]
    {
      if i < |a| {
        assert (a + b)[i] == a[i];
      } else {
        assert (a + b)[i] == b[i - |a|];
      }
    }
  }

  /** pat occurs in s starting at index i. */
  predicate OccursAt(s: string, pat: string, i: int)
  {
    0 <= i && i + |pat| <= |s| && s[i..i + |pat|] == pat
  }

  /** includes */
  predicate Contains(s: string, pat: string)
  {
    exists i :: 0 <= i <= |s| - |pat| && OccursAt(s, pat, i)
  }

  predicate StartsWith(s: string, pre: string)
  {
    |pre| <= |s| && s[..|pre|] == pre
  }

  predicate EndsWith(s: string, suf: string)
  {
    |suf| <= |s| && s[|s| - |suf|..] == suf
  }

  /** Every character of a contained pattern occurs in the text. */
  lemma ContainsChars(s: string, pat: string)
    requires Contains(s, pat)
    ensures forall k :: 0 <= k < |pat| ==> pat[k] in s
  {
    var i :| 0 <= i <= |s| - |pat| && OccursAt(s, pat, i);
    forall k | 0 <= k < |pat|
      ensures pat[k] in s
    {
      assert s[i + k] == pat[k];
    }
  }

  /**
   * Python's str.find(pat, start) and JavaScript's indexOf(pat, start) for
   * start <= |s|: the first occurrence at or after `from`, or -1.
   */
  function Find(s: string, pat: string, from: nat): (r: int)
    ensures r == -1 || (from <= r && OccursAt(s, pat, r))
    ensures r == -1 ==> forall i :: from <= i ==> !OccursAt(s, pat, i)
    ensures r >= 0 ==> forall i :: from <= i < r ==> !OccursAt(s, pat, i)
    decreases |s| - from
  {
    if from + |pat| > |s| then -1
    else if s[from..from + |pat|] == pat then from
    else Find(s, pat, from + 1)
  }

  lemma FindContains(s: string, pat: string)
    ensures Find(s, pat, 0) >= 0 <==> Contains(s, pat)
  {
    var r := Find(s, pat, 0);
    if r >= 0 {
      assert OccursAt(s, pat, r);
    }
  }

  /** Number of occurrences of the character c in s. */
  function CountChar(s: string, c: char): (n: nat)
    ensures n <= |s|
    ensures n == 0 <==> c !in s
  {
    if s == [] then 0 else (if s[0] == c then 1 else 0) + CountChar(s[1..], c)
  }

  lemma CountCharAppend(a: string, b: string, c: char)
    ensures CountChar(a + b, c) == CountChar(a, c) + CountChar(b, c)
  {
    if a == [] {
      assert a + b == b;
    } else {
      assert (a + b)[1..] == a[1..] + b;
      CountCharAppend(a[1..], b, c);
    }
  }

  /** Array.prototype.join with a separator. */
  function Join(parts: seq<string>, sep: string): (r: string)
    ensures parts == [] ==> r == []
    ensures |parts| == 1 ==> r == parts[0]
  {
    if |parts| == 0 then []
    else if |parts| == 1 then parts[0]
    else parts[0] + sep + Join(parts[1..], sep)
  }

  /** JavaScript's split on a one-character separator. */
  function Split(s: string, sep: char): (r: seq<string>)
    ensures |r| == CountChar(s, sep) + 1
    ensures forall k :: 0 <= k < |r| ==> sep !in r[k]
    ensures Join(r, [sep]) == s
  {
    if |s| == 0 then [[]]
    else
      var rest := Split(s[1..], sep);
      if s[0] == sep then
        [[]] + rest
      else
        JoinConsFirst(s[0], rest, [sep]);
        [[s[0]] + rest[0]] + rest[1..]
  }

  lemma JoinConsFirst(c: char, parts: seq<string>, sep: string)
    requires |parts| >= 1
    ensures Join([[c] + parts[0]] + parts[1..], sep) == [c] + Join(parts, sep)
  {
    var q := [[c] + parts[0]] + parts[1..];
    if |parts| > 1 {
      assert q[1..] == parts[1..];
    }
  }

  /** Splitting a join of separator-free parts gives the parts back. */
  lemma {:induction false} SplitJoin(parts: seq<string>, sep: char)
    requires |parts| >= 1
    requires forall k :: 0 <= k < |parts| ==> sep !in parts[k]
    ensures Split(Join(parts, [sep]), sep) == parts
    decreases |parts|, |parts[0]|
  {
    var s := Join(parts, [sep]);
    if |parts[0]| == 0 {
      if |parts| == 1 {
        assert s == [];
      } else {
        assert s == [sep] + Join(parts[1..], [sep]);
        assert s[1..] == Join(parts[1..], [sep]);
        SplitJoin(parts[1..], sep);
        assert parts == [[]] + parts[1..];
      }
    } else {
      var c := parts[0][0];
      var tail := [parts[0][1..]] + parts[1..];
      assert tail[1..] == parts[1..];
      JoinConsFirst(c, tail, [sep]);
      assert [c] + tail[0] == parts[0];
      assert [[c] + tail[0]] + tail[1..] == parts;
      assert s == [c] + Join(tail, [sep]);
      assert s[1..] == Join(tail, [sep]);
      assert sep !in tail[0];
      assert forall k :: 0 <= k < |tail| ==> sep !in tail[k];
      SplitJoin(tail, sep);
      assert s[0] == c && c != sep;
    }
  }

  /** Keeps the characters satisfying IsDigit, in order (replace(/\D/g, '')). */
  function Digits(s: string): (r: string)
    ensures |r| <= |s|
    ensures forall i :: 0 <= i < |r| ==> IsDigit(r[i])
    ensures (forall i :: 0 <= i < |s| ==> IsDigit(s[i])) ==> r == s
  {
    if s == [] then []
    else if IsDigit(s[0]) then [s[0]] + Digits(s[1..])
    else Digits(s[1..])
  }

  /** Digits distributes over concatenation. */
  lemma {:induction false} DigitsAppend(a: string, b: string)
    ensures Digits(a + b) == Digits(a) + Digits(b)
    decreases |a|
  {
    if a == [] {
      assert a + b == b;
    } else {
      assert (a + b)[0] == a[0] && (a + b)[1..] == a[1..] + b;
      DigitsAppend(a[1..], b);
      if IsDigit(a[0]) {
        assert Digits(a + b) == [a[0]] + Digits(a[1..] + b);
      } else {
        assert Digits(a + b) == Digits(a[1..] + b);
      }
    }
  }

  /** One character is kept exactly when it is a digit. */
  lemma DigitsSingle(c: char)
    ensures Digits([c]) == if IsDigit(c) then [c] else []
  {
    assert [c][1..] == [];
  }

  lemma DigitsIdempotent(s: string)
    ensures Digits(Digits(s)) == Digits(s)
  {
  }

  function DigitChar(d: nat): char
    requires d < 10
  {
    ('0' as int + d) as char
  }

  /** Decimal rendering of a natural number, as template literals do. */
  function NatToString(n: nat): (r: string)
    ensures |r| >= 1
    ensures forall i :: 0 <= i < |r| ==> IsDigit(r[i])
    ensures n < 10 ==> |r| == 1
    ensures 10 <= n < 100 ==> |r| == 2
  {
    if n < 10 then [DigitChar(n)] else NatToString(n / 10) + [DigitChar(n % 10)]
  }

  /** Decimal rendering of an integer, with a leading '-' when negative. */
  function IntToString(n: int): (r: string)
    ensures |r| >= 1
    ensures n >= 0 ==> r == NatToString(n)
    ensures n < 0 ==> r == "-" + NatToString(-n)
  {
    if n >= 0 then NatToString(n) else "-" + NatToString(-n)
  }

  /** String(n).padStart(2, '0') for n >= 0. */
  function Pad2(n: nat): (r: string)
    ensures n < 100 ==> |r| == 2
    ensures n >= 10 ==> r == NatToString(n)
  {
    if n < 10 then "0" + NatToString(n) else NatToString(n)
  }

  /** A number below 100 padded to two digits reads back as itself. */
  lemma {:induction false} Pad2Value(n: nat)
    requires n < 100
    ensures |Pad2(n)| == 2
    ensures forall i :: 0 <= i < 2 ==> IsDigit(Pad2(n)[i])
    ensures DigitsValue(Pad2(n)) == n
  {
    DigitsValueOfNat(n);
    if n < 10 {
      var p := Pad2(n);
      assert p[..1] == "0";
      assert DigitsValue(p[..1][..0]) == 0;
    }
  }

  /** The longest prefix of s made of decimal digits. */
  function DigitPrefix(s: string): (r: string)
    ensures |r| <= |s| && r == s[..|r|]
    ensures forall i :: 0 <= i < |r| ==> IsDigit(r[i])
    ensures |r| < |s| ==> !IsDigit(s[|r|])
  {
    if s != [] && IsDigit(s[0]) then [s[0]] + DigitPrefix(s[1..]) else []
  }

  function DigitValue(c: char): nat
    requires IsDigit(c)
  {
    c as int - '0' as int
  }

  /** The number a string of decimal digits denotes. */
  function DigitsValue(d: string): nat
    requires forall i :: 0 <= i < |d| ==> IsDigit(d[i])
  {
    if d == [] then 0 else DigitsValue(d[..|d| - 1]) * 10 + DigitValue(d[|d| - 1])
  }

  /**
   * parseInt(s, 10): leading whitespace is skipped, one optional sign is read,
   * then the longest run of digits; None stands for NaN (no digit at all).
   */
  function ParseInt(s: string): (r: Option<int>)
    ensures r.None? <==> DigitPrefix(Unsigned(TrimStart(s))) == []
  {
    var t := TrimStart(s);
    var d := DigitPrefix(Unsigned(t));
    var v: int := DigitsValue(d);
    if d == [] then None
    else if t[0] == '-' then Some(-v)
    else Some(v)
  }

  /** The text after one optional leading sign. */
  function Unsigned(t: string): string
  {
    if t != [] && (t[0] == '-' || t[0] == '+') then t[1..] else t
  }

  lemma {:induction false} DigitsValueOfNat(n: nat)
    ensures DigitsValue(NatToString(n)) == n
  {
    if n >= 10 {
      var r := NatToString(n);
      DigitsValueOfNat(n / 10);
      assert r[..|r| - 1] == NatToString(n / 10);
    }
  }

  lemma DigitPrefixAllDigits(d: string)
    requires forall i :: 0 <= i < |d| ==> IsDigit(d[i])
    ensures DigitPrefix(d) == d
  {
  }

  /** parseInt reads back every integer that String(n) renders. */
  lemma ParseIntRoundTrip(n: int)
    ensures ParseInt(IntToString(n)) == Some(n)
  {
    var m: nat := if n >= 0 then n else -n;
    var d := NatToString(m);
    var s := if n >= 0 then d else "-" + d;
    assert s == IntToString(n);
    assert TrimStart(s) == s by {
      assert !IsSpace(s[0]);
    }
    assert Unsigned(s) == d by {
      if n >= 0 {
        assert IsDigit(d[0]);
      } else {
        assert s[0] == '-' && s[1..] == d;
      }
    }
    assert DigitPrefix(d) == d by {
      DigitPrefixAllDigits(d);
    }
    assert DigitsValue(d) == m by {
      DigitsValueOfNat(m);
    }
  }

  /**
   * A string's `.length` in JavaScript: the number of UTF-16 code units, two
   * for a character beyond the basic plane (an emoji such as U+1F35C).
   */
  function Utf16Length(s: string): (r: nat)
    ensures |s| <= r <= 2 * |s|
    ensures r == 0 <==> s == []
    ensures (forall i :: 0 <= i < |s| ==> s[i] as int <= 0xFFFF) ==> r == |s|
  {
    if s == [] then 0
    else Utf16Length(s[..|s| - 1]) + (if s[|s| - 1] as int <= 0xFFFF then 1 else 2)
  }

  predicate IsHexDigit(c: char)
  {
    IsDigit(c) || 'a' <= c <= 'f' || 'A' <= c <= 'F'
  }

  function HexDigitValue(c: char): (v: nat)
    requires IsHexDigit(c)
    ensures v < 16
  {
    if IsDigit(c) then DigitValue(c)
    else if 'a' <= c <= 'f' then c as int - 'a' as int + 10
    else c as int - 'A' as int + 10
  }

  /** The longest prefix of s made of hexadecimal digits. */
  function HexPrefix(s: string): (r: string)
    ensures |r| <= |s| && r == s[..|r|]
    ensures forall i :: 0 <= i < |r| ==> IsHexDigit(r[i])
    ensures |r| < |s| ==> !IsHexDigit(s[|r|])
  {
    if s != [] && IsHexDigit(s[0]) then [s[0]] + HexPrefix(s[1..]) else []
  }

  /** The number a string of hexadecimal digits denotes. */
  function HexValue(h: string): nat
    requires forall i :: 0 <= i < |h| ==> IsHexDigit(h[i])
  {
    if h == [] then 0 else HexValue(h[..|h| - 1]) * 16 + HexDigitValue(h[|h| - 1])
  }

  /** After the sign, `0x` or `0X` switches parseInt without a radix to base 16. */
  predicate HexPrefixed(u: string)
  {
    |u| >= 2 && u[0] == '0' && (u[1] == 'x' || u[1] == 'X')
  }

  /**
   * parseInt(s) with no radix: as ParseInt, except that a `0x` or `0X` after
   * the optional sign makes the digits that follow hexadecimal. No hex digit
   * after the prefix is NaN (None), so "0x" alone is NaN and not 0.
   */
  function ParseIntNoRadix(s: string): (r: Option<int>)
    ensures !HexPrefixed(Unsigned(TrimStart(s))) ==> r == ParseInt(s)
    ensures HexPrefixed(Unsigned(TrimStart(s))) ==>
              (r.None? <==> HexPrefix(Unsigned(TrimStart(s))[2..]) == [])
    ensures r.Some? && HexPrefixed(Unsigned(TrimStart(s))) ==>
              var v: int := HexValue(HexPrefix(Unsigned(TrimStart(s))[2..]));
              r.value == if TrimStart(s)[0] == '-' then -v else v
  {
    var t := TrimStart(s);
    var u := Unsigned(t);
    if HexPrefixed(u) then
      var h := HexPrefix(u[2..]);
      var v: int := HexValue(h);
      if h == [] then None
      else if t[0] == '-' then Some(-v)
      else Some(v)
    else ParseInt(s)
  }

  /** Decimal text is never read as hexadecimal, so it reads back the same with or without a radix. */
  lemma ParseIntNoRadixRoundTrip(n: int)
    ensures ParseIntNoRadix(IntToString(n)) == Some(n)
  {
    var m: nat := if n >= 0 then n else -n;
    var d := NatToString(m);
    var s := IntToString(n);
    ParseIntRoundTrip(n);
    assert TrimStart(s) == s by {
      assert !IsSpace(s[0]);
    }
    assert Unsigned(s) == d by {
      if n >= 0 {
        assert IsDigit(d[0]);
      } else {
        assert s[0] == '-' && s[1..] == d;
      }
    }
    assert !HexPrefixed(d) by {
      if |d| >= 2 {
        assert IsDigit(d[1]);
      }
    }
  }

  /** With no radix, "0x1A" is 26. */
  lemma ParseIntNoRadixHex()
    ensures ParseIntNoRadix("0x1A") == Some(26)
  {
    assert TrimStart("0x1A") == "0x1A" && Unsigned("0x1A") == "0x1A" && "0x1A"[2..] == "1A";
    HexDigitsOneA();
  }

  /** With no radix, "-0x1a" is -26: the sign comes before the prefix. */
  lemma ParseIntNoRadixNegativeHex()
    ensures ParseIntNoRadix("-0x1a") == Some(-26)
  {
    SignedHexText();
    HexDigitsOneA();
  }

  lemma SignedHexText()
    ensures TrimStart("-0x1a") == "-0x1a" && Unsigned("-0x1a") == "0x1a" && "0x1a"[2..] == "1a"
  {
  }

  /** The hexadecimal digits "1A" and "1a" are both 26. */
  lemma HexDigitsOneA()
    ensures HexPrefix("1A") == "1A" && HexValue("1A") == 26
    ensures HexPrefix("1a") == "1a" && HexValue("1a") == 26
  {
    assert "1A"[..1] == "1" && "1a"[..1] == "1" && "1"[..0] == [];
  }

  /** With no radix, "0x" and "0xg" are NaN. */
  lemma ParseIntNoRadixNaN()
    ensures ParseIntNoRadix("0x") == None
    ensures ParseIntNoRadix("0xg") == None
  {
    assert TrimStart("0x") == "0x" && Unsigned("0x") == "0x" && "0x"[2..] == [];
    assert TrimStart("0xg") == "0xg" && Unsigned("0xg") == "0xg" && "0xg"[2..] == "g";
  }

  /** With radix 10 the same text "0x1A" reads as 0: only the leading zero is a digit. */
  lemma ParseIntDecimalStopsAtX()
    ensures ParseInt("0x1A") == Some(0)
  {
    assert TrimStart("0x1A") == "0x1A" && Unsigned("0x1A") == "0x1A";
    assert DigitPrefix("0x1A") == "0" && "0"[..0] == [];
  }

  /** `a || b` on strings: the empty string is falsy. */
  function OrElse(a: string, b: string): string
  {
    if a != [] then a else b
  }

  /** `o || d` for a string that may be null or undefined (None). */
  function OptOrElse(o: Option<string>, d: string): string
  {
    if o.Some? && o.value != [] then o.value else d
  }

  /** `slice(0, n)` on a string or an array. */
  function Take<T>(s: seq<T>, n: nat): (r: seq<T>)
    ensures |r| == (if |s| < n then |s| else n)
    ensures r == s[..|r|]
  {
    if |s| < n then s else s[..n]
  }
}

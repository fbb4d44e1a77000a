/** The JavaScript string operations the core uses: `toLowerCase` (ASCII letters only),
    `includes`, `indexOf`, `split`, `parseInt`, `Number.prototype.toString` on naturals and
    `padStart(2, '0')`. Strings are sequences of Unicode scalar values. */
module Text {
  import opened Wrappers

  /** ASCII case folding: 'A'..'Z' become 'a'..'z', every other character is kept. */
  function LowerChar(c: char): (r: char)
    ensures 'A' <= c <= 'Z' ==> r as int == c as int + 32
    ensures !('A' <= c <= 'Z') ==> r == c
    ensures !('A' <= r <= 'Z')
  {
    if 'A' <= c <= 'Z' then (c as int + 32) as char else c
  }

  /** `s.toLowerCase()`, restricted to ASCII letters. */
  function Lower(s: string): (r: string)
    ensures |r| == |s|
    ensures forall i :: 0 <= i < |s| ==> r[i] == LowerChar(s[i])
  {
    seq(|s|, i requires 0 <= i < |s| => LowerChar(s[i]))
  }

  /** `s.includes(t)`: `t` occurs in `s` as a contiguous block (the empty string always does). */
  predicate Includes(s: string, t: string) {
    exists i | 0 <= i <= |s| :: OccursAt(s, t, i)
  }

  /** `s.toLowerCase().includes(t.toLowerCase())`. */
  predicate IncludesIgnoreCase(s: string, t: string) {
    Includes(Lower(s), Lower(t))
  }

  /** `list.some(x => x.toLowerCase().includes(t.toLowerCase()))`. */
  predicate AnyIncludesIgnoreCase(list: seq<string>, t: string) {
    exists i :: 0 <= i < |list| && IncludesIgnoreCase(list[i], t)
  }

  /** Whether `pat` occurs in `s` at position `i`. */
  predicate OccursAt(s: string, pat: string, i: int) {
    0 <= i && i + |pat| <= |s| && s[i..i + |pat|] == pat
  }

  /** `s.indexOf(pat)`, with -1 rendered as None. */
  function IndexOf(s: string, pat: string): (r: Option<nat>)
    ensures r.Some? ==> OccursAt(s, pat, r.value)
    ensures r.Some? ==> forall j :: 0 <= j < r.value ==> !OccursAt(s, pat, j)
    ensures r.None? <==> forall j :: 0 <= j <= |s| ==> !OccursAt(s, pat, j)
    decreases |s|
  {
    if |s| < |pat| then None
    else if s[..|pat|] == pat then Some(0)
    else
      match IndexOf(s[1..], pat)
      case None =>
        assert forall j :: 1 <= j <= |s| ==> (OccursAt(s, pat, j) <==> OccursAt(s[1..], pat, j - 1));
        None
      case Some(i) =>
        assert forall j :: 1 <= j <= |s| ==> (OccursAt(s, pat, j) <==> OccursAt(s[1..], pat, j - 1));
        Some(i + 1)
  }

  /** `indexOf` finds an occurrence exactly when `includes` holds. */
  lemma IndexOfIncludes(s: string, pat: string)
    ensures IndexOf(s, pat).Some? <==> Includes(s, pat)
  {
    if IndexOf(s, pat).Some? {
      assert OccursAt(s, pat, IndexOf(s, pat).value);
    }
  }

  /** `s.split(sep)` for a non-empty separator: the pieces between successive
      non-overlapping occurrences, scanning from the left. */
  function Split(s: string, sep: string): (r: seq<string>)
    requires |sep| > 0
    ensures |r| >= 1
    decreases |s|
  {
    match IndexOf(s, sep)
    case None => [s]
    case Some(i) => [s[..i]] + Split(s[i + |sep|..], sep)
  }

  /** `parts.join(sep)`. */
  function Join(parts: seq<string>, sep: string): string
    decreases |parts|
  {
    if |parts| == 0 then ""
    else if |parts| == 1 then parts[0]
    else parts[0] + sep + Join(parts[1..], sep)
  }

  /** Joining the pieces of a split with the same separator gives back the string. */
  lemma {:induction false} JoinSplit(s: string, sep: string)
    requires |sep| > 0
    ensures Join(Split(s, sep), sep) == s
    decreases |s|
  {
    var found := IndexOf(s, sep);
    var pieces := Split(s, sep);
    if found.None? {
      assert pieces == [s];
    } else {
      var i := found.value;
      var head, rest := s[..i], s[i + |sep|..];
      var parts := Split(rest, sep);
      SplitAtFirst(s, sep, i);
      JoinSplit(rest, sep);
      assert pieces == [head] + parts;
      assert pieces[0] == head && pieces[1..] == parts && |pieces| >= 2;
      assert Join(pieces, sep) == head + sep + Join(parts, sep);
      assert s[i..i + |sep|] == sep;
      assert s == head + s[i..i + |sep|] + rest;
    }
  }

  /** The text before the first occurrence of `pat` does not contain it. */
  lemma PrefixBeforeFirst(s: string, pat: string, i: nat)
    requires |pat| > 0 && i <= |s|
    requires forall j :: 0 <= j < i ==> !OccursAt(s, pat, j)
    ensures !Includes(s[..i], pat)
  {
    var head := s[..i];
    forall j | 0 <= j <= |head| ensures !OccursAt(head, pat, j) {
      if OccursAt(head, pat, j) {
        assert s[j..j + |pat|] == head[j..j + |pat|];
        assert OccursAt(s, pat, j);
      }
    }
  }

  /** No piece of a split contains the separator. */
  lemma {:induction false} SplitPiecesFree(s: string, sep: string)
    requires |sep| > 0
    ensures forall k :: 0 <= k < |Split(s, sep)| ==> !Includes(Split(s, sep)[k], sep)
    decreases |s|
  {
    var found := IndexOf(s, sep);
    var pieces := Split(s, sep);
    if found.None? {
      assert pieces == [s];
      assert !Includes(s, sep);
    } else {
      var i := found.value;
      var rest := s[i + |sep|..];
      var parts := Split(rest, sep);
      assert pieces == [s[..i]] + parts;
      SplitPiecesFree(rest, sep);
      PrefixBeforeFirst(s, sep, i);
      forall k | 0 <= k < |pieces| ensures !Includes(pieces[k], sep) {
        if k > 0 {
          assert pieces[k] == parts[k - 1];
        }
      }
    }
  }

  /** Splitting at a first occurrence: the text before it, then the pieces of the rest. */
  lemma SplitAtFirst(s: string, sep: string, i: nat)
    requires |sep| > 0 && IndexOf(s, sep) == Some(i)
    ensures Split(s, sep) == [s[..i]] + Split(s[i + |sep|..], sep)
  {
  }

  /** A string without the separator splits into itself alone. */
  lemma SplitWithout(s: string, sep: string)
    requires |sep| > 0 && !Includes(s, sep)
    ensures Split(s, sep) == [s]
  {
    assert IndexOf(s, sep).None?;
  }

  /** A string without `c` splits on `c` into itself alone. */
  lemma SplitAbsent(s: string, c: char)
    requires c !in s
    ensures Split(s, [c]) == [s]
  {
    forall j | 0 <= j <= |s| ensures !OccursAt(s, [c], j) {
      if j < |s| {
        assert s[j] in s;
        assert s[j..j + 1] == [s[j]];
      }
    }
  }

  /** `a + [c] + b` with `c` in neither part splits on `c` into exactly `a` and `b`. */
  lemma SplitAroundOne(a: string, b: string, c: char)
    requires c !in a && c !in b
    ensures Split(a + [c] + b, [c]) == [a, b]
  {
    var s := a + [c] + b;
    assert OccursAt(s, [c], |a|) by { assert s[|a|..|a| + 1] == [c]; }
    forall j | 0 <= j < |a| ensures !OccursAt(s, [c], j) {
      assert s[j] == a[j] && a[j] in a;
      assert s[j..j + 1] == [s[j]];
    }
    assert IndexOf(s, [c]) == Some(|a|);
    assert s[..|a|] == a;
    assert s[|a| + 1..] == b;
    SplitAbsent(b, c);
  }

  /** The first piece of `a + b` split on `c`, when `a` has no `c` and `b` is empty or
      starts with `c`, is `a`. */
  lemma SplitFirstPiece(a: string, b: string, c: char)
    requires c !in a && (b == [] || b[0] == c)
    ensures Split(a + b, [c])[0] == a
  {
    if b == [] {
      assert a + b == a;
      SplitAbsent(a, c);
    } else {
      var rest := b[1..];
      assert b == [c] + rest;
      assert a + b == a + [c] + rest;
      SplitAfterPiece(a, rest, c);
      assert Split(a + b, [c]) == [a] + Split(rest, [c]);
    }
  }

  /** `s.startsWith(p)`. */
  predicate StartsWith(s: string, p: string) {
    |p| <= |s| && s[..|p|] == p
  }

  /** The first occurrence of `c` in `a + [c] + b` is right after `a` when `a` has none. */
  lemma FirstAfter(a: string, b: string, c: char)
    requires c !in a
    ensures IndexOf(a + [c] + b, [c]) == Some(|a|)
  {
    var p := a + [c];
    assert OccursAt(p, [c], |a|) by { assert p[|a|..|a| + 1] == [c]; }
    forall j | 0 <= j < |a| ensures !OccursAt(p, [c], j) {
      assert p[j] == a[j] && a[j] in a;
      assert p[j..j + 1] == [p[j]];
    }
    IndexOfInPrefix(p, b, [c], |a|);
  }

  /** Splitting `a c b` on `c`, when `a` has no `c`: `a`, then the pieces of `b`. */
  lemma SplitAfterPiece(a: string, b: string, c: char)
    requires c !in a
    ensures Split(a + [c] + b, [c]) == [a] + Split(b, [c])
  {
    var s := a + [c] + b;
    FirstAfter(a, b, c);
    SplitAtFirst(s, [c], |a|);
    assert s[..|a|] == a;
    assert s[|a| + 1..] == b;
  }

  /** Splitting `c word c rest` on `c`: an empty piece, `word`, then the pieces of `rest`. */
  lemma SplitAfterWord(word: string, rest: string, c: char)
    requires c !in word
    ensures Split([c] + word + [c] + rest, [c]) == ["", word] + Split(rest, [c])
  {
    var tail := word + [c] + rest;
    assert [c] + word + [c] + rest == [] + [c] + tail;
    SplitAfterPiece([], tail, c);
    SplitAfterPiece(word, rest, c);
  }

  // ---------------------------------------------------------------------------------
  // Numbers as text

  predicate IsDecimalDigit(c: char) {
    '0' <= c <= '9'
  }

  /** The white space `parseInt` skips before the number starts. */
  predicate IsJsWhitespace(c: char) {
    c in {'\t', '\n', '\U{000B}', '\U{000C}', '\r', ' ', '\U{00A0}', '\U{1680}',
          '\U{2000}', '\U{2001}', '\U{2002}', '\U{2003}', '\U{2004}', '\U{2005}', '\U{2006}',
          '\U{2007}', '\U{2008}', '\U{2009}', '\U{200A}', '\U{2028}', '\U{2029}', '\U{202F}',
          '\U{205F}', '\U{3000}', '\U{FEFF}'}
  }

  /** Drops the leading white space. */
  function TrimStart(s: string): (r: string)
    ensures |r| <= |s| && r == s[|s| - |r|..]
    ensures r == [] || !IsJsWhitespace(r[0])
    ensures s == [] || !IsJsWhitespace(s[0]) ==> r == s
    decreases |s|
  {
    if s != [] && IsJsWhitespace(s[0]) then TrimStart(s[1..]) else s
  }

  /** The value of a character as a digit in radix up to 36 ('a'/'A' is ten). */
  function DigitValue(c: char): (r: Option<nat>)
    ensures r.Some? ==> r.value < 36
    ensures IsDecimalDigit(c) ==> r == Some(c as int - '0' as int)
  {
    if '0' <= c <= '9' then Some(c as int - '0' as int)
    else if 'a' <= c <= 'z' then Some(c as int - 'a' as int + 10)
    else if 'A' <= c <= 'Z' then Some(c as int - 'A' as int + 10)
    else None
  }

  predicate IsDigitIn(c: char, radix: nat) {
    DigitValue(c).Some? && DigitValue(c).value < radix
  }

  /** The longest prefix of `s` made of digits of the radix. */
  function LeadingDigits(s: string, radix: nat): (r: string)
    ensures |r| <= |s| && r == s[..|r|]
    ensures forall i :: 0 <= i < |r| ==> IsDigitIn(r[i], radix)
    ensures |r| < |s| ==> !IsDigitIn(s[|r|], radix)
    decreases |s|
  {
    if s != [] && IsDigitIn(s[0], radix) then [s[0]] + LeadingDigits(s[1..], radix) else []
  }

  /** The number written by a string of digits, most significant first. */
  function ValueOf(ds: string, radix: nat): nat
    requires radix == 10 || radix == 16
    requires forall i :: 0 <= i < |ds| ==> IsDigitIn(ds[i], radix)
    decreases |ds|
  {
    if ds == [] then 0
    else
      var last := ds[|ds| - 1];
      assert IsDigitIn(last, radix);
      var high := ValueOf(ds[..|ds| - 1], radix);
      (if radix == 16 then high * 16 else high * 10) + DigitValue(last).value
  }

  /** The text after one optional leading sign. */
  function Unsigned(t: string): (r: string)
    ensures r == t || (t != [] && t[0] in "+-" && r == t[1..])
  {
    if t != [] && (t[0] == '-' || t[0] == '+') then t[1..] else t
  }

  /** Whether the number is written in hexadecimal: "0x" or "0X". */
  predicate HasHexPrefix(u: string) {
    |u| >= 2 && u[0] == '0' && (u[1] == 'x' || u[1] == 'X')
  }

  /** The digits `parseInt` reads, and in which radix. */
  function NumberDigits(s: string): (r: (string, nat))
    ensures r.1 == 10 || r.1 == 16
  {
    var u := Unsigned(TrimStart(s));
    if HasHexPrefix(u) then (LeadingDigits(u[2..], 16), 16) else (LeadingDigits(u, 10), 10)
  }

  /** `parseInt(s)` without a radix argument: leading white space is skipped, one sign is
      read, "0x"/"0X" switches to hexadecimal, and the longest run of digits is read; with no
      digit at all the result is NaN, here None. */
  function ParseInt(s: string): (r: Option<int>)
  {
    var t := TrimStart(s);
    var (ds, radix) := NumberDigits(s);
    if ds == [] then None
    else
      var v: int := ValueOf(ds, radix);
      Some(if t[0] == '-' then -v else v)
  }

  /** The decimal digit character of `d`. */
  function DigitChar(d: nat): (c: char)
    requires d < 10
    ensures IsDecimalDigit(c) && DigitValue(c) == Some(d)
  {
    ('0' as int + d) as char
  }

  /** `n.toString()` for a natural number: decimal digits without leading zeros. */
  function NatToString(n: nat): (r: string)
    ensures |r| >= 1
    ensures forall i :: 0 <= i < |r| ==> IsDecimalDigit(r[i])
    ensures |r| > 1 ==> r[0] != '0'
    ensures n < 10 <==> |r| == 1
  {
    if n < 10 then [DigitChar(n)] else NatToString(n / 10) + [DigitChar(n % 10)]
  }

  /** `s.padStart(2, '0')`. */
  function PadStart2(s: string): (r: string)
    ensures |s| >= 2 ==> r == s
    ensures |s| < 2 ==> |r| == 2 && r[2 - |s|..] == s
    ensures forall i :: 0 <= i < 2 - |s| ==> r[i] == '0'
  {
    if |s| >= 2 then s else if |s| == 1 then "0" + s else "00"
  }

  /** Printing a natural and reading it back with the decimal reader gives the number. */
  lemma {:induction false} ValueOfNatToString(n: nat)
    ensures ValueOf(NatToString(n), 10) == n
    decreases n
  {
    var r := NatToString(n);
    if n >= 10 {
      ValueOfNatToString(n / 10);
      assert r[..|r| - 1] == NatToString(n / 10);
    }
  }

  /** A leading '0' does not change the value of a digit string. */
  lemma {:induction false} ValueOfLeadingZero(ds: string)
    requires forall i :: 0 <= i < |ds| ==> IsDecimalDigit(ds[i])
    ensures ValueOf("0" + ds, 10) == ValueOf(ds, 10)
    decreases |ds|
  {
    if ds != [] {
      var pre := ds[..|ds| - 1];
      ValueOfLeadingZero(pre);
      assert ("0" + ds)[..|"0" + ds| - 1] == "0" + pre;
    }
  }

  /** `LeadingDigits` of a string of digits is the whole string. */
  lemma {:induction false} LeadingDigitsAll(ds: string)
    requires forall i :: 0 <= i < |ds| ==> IsDecimalDigit(ds[i])
    ensures LeadingDigits(ds, 10) == ds
    decreases |ds|
  {
    if ds != [] {
      LeadingDigitsAll(ds[1..]);
    }
  }

  /** A string of digits has no leading blank, no sign and no "0x" prefix. */
  lemma DigitsUntrimmed(ds: string)
    requires |ds| >= 1
    requires forall i :: 0 <= i < |ds| ==> IsDecimalDigit(ds[i])
    ensures TrimStart(ds) == ds && Unsigned(ds) == ds && !HasHexPrefix(ds)
  {
    var c := ds[0];
    assert IsDecimalDigit(c);
    DigitNotBlank(c);
    assert c != '-' && c != '+';
    if |ds| >= 2 {
      assert IsDecimalDigit(ds[1]);
    }
  }

  lemma DigitNotBlank(c: char)
    requires IsDecimalDigit(c)
    ensures !IsJsWhitespace(c)
  {
  }

  /** The digits `parseInt` reads from a string of decimal digits are all of them. */
  lemma NumberDigitsOfDigits(ds: string)
    requires |ds| >= 1
    requires forall i :: 0 <= i < |ds| ==> IsDecimalDigit(ds[i])
    ensures NumberDigits(ds) == (ds, 10)
  {
    DigitsUntrimmed(ds);
    LeadingDigitsAll(ds);
  }

  /** `parseInt` reads back any non-empty string of decimal digits as its value, in
      particular the decimal form of a natural number, with or without a padding zero. */
  lemma ParseIntDigits(ds: string)
    requires |ds| >= 1
    requires forall i :: 0 <= i < |ds| ==> IsDecimalDigit(ds[i])
    ensures ParseInt(ds) == Some(ValueOf(ds, 10))
  {
    DigitsUntrimmed(ds);
    NumberDigitsOfDigits(ds);
    assert ds[0] != '-';
  }

  lemma ParseIntNatToString(n: nat)
    ensures ParseInt(NatToString(n)) == Some(n)
  {
    ParseIntDigits(NatToString(n));
    ValueOfNatToString(n);
  }

  /** The same holds after padding to two characters with '0'. */
  lemma ParseIntPadded(n: nat)
    ensures ParseInt(PadStart2(NatToString(n))) == Some(n)
  {
    var s := NatToString(n);
    ValueOfNatToString(n);
    if |s| < 2 {
      var p := "0" + s;
      assert PadStart2(s) == p;
      assert forall i :: 0 <= i < |p| ==> IsDecimalDigit(p[i]);
      ValueOfLeadingZero(s);
      ParseIntDigits(p);
    } else {
      ParseIntDigits(s);
    }
  }

  /** `Math.round(x)`: the nearest integer, halves rounded up. */
  function RoundHalfUp(x: real): (r: int)
    ensures r as real - 0.5 <= x < r as real + 0.5
  {
    (x + 0.5).Floor
  }

  /** The integer in the half-open interval around `x` is unique. */
  lemma RoundHalfUpUnique(x: real, k: int)
    requires k as real - 0.5 <= x < k as real + 0.5
    ensures RoundHalfUp(x) == k
  {
  }

  lemma CastMul(a: int, b: int)
    ensures (a * b) as real == a as real * b as real
  {
  }

  /** A product with a positive factor has the sign of the other factor. */
  lemma SignOfProduct(y: real, d: real)
    requires d > 0.0
    ensures y * d >= 0.0 <==> y >= 0.0
    ensures y * d > 0.0 <==> y > 0.0
  {
  }

  /** The first occurrence inside a prefix stays the first occurrence after appending. */
  lemma IndexOfInPrefix(p: string, t: string, pat: string, i: nat)
    requires OccursAt(p, pat, i)
    requires forall j :: 0 <= j < i ==> !OccursAt(p, pat, j)
    ensures IndexOf(p + t, pat) == Some(i)
  {
    assert (p + t)[i..i + |pat|] == p[i..i + |pat|];
    assert OccursAt(p + t, pat, i);
    forall j | 0 <= j < i ensures !OccursAt(p + t, pat, j) {
      assert (p + t)[j..j + |pat|] == p[j..j + |pat|];
      assert !OccursAt(p, pat, j);
    }
  }

  /** A string without `c` contains no pattern with `c` in it. */
  lemma NoOccurrenceWithout(s: string, pat: string, c: char)
    requires c in pat && c !in s
    ensures !Includes(s, pat)
  {
    var k :| 0 <= k < |pat| && pat[k] == c;
    forall j | 0 <= j <= |s| ensures !OccursAt(s, pat, j) {
      if j + |pat| <= |s| {
        assert s[j..j + |pat|][k] == s[j + k];
        assert s[j + k] in s;
      }
    }
  }

}

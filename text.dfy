/** String operations of Rust's standard library that the parsers and the renderer use,
    over ASCII text: one `char` per byte, so a length in characters is a length in bytes. */
module Text {
  import opened Wrappers

  /** `char::is_whitespace`, restricted to ASCII. */
  predicate IsSpace(c: char) {
    c == ' ' || c == '\t' || c == '\n' || c == '\r' || c == '\U{000B}' || c == '\U{000C}'
  }

  predicate StartsWith(s: string, prefix: string) {
    |prefix| <= |s| && s[..|prefix|] == prefix
  }

  /** `str::contains` for a string pattern. */
  predicate Contains(s: string, sub: string)
    decreases |s|
  {
    StartsWith(s, sub) || (s != [] && Contains(s[1..], sub))
  }

  /** Saturating subtraction on unsigned integers. */
  function SatSub(a: nat, b: nat): (r: nat)
    ensures r <= a
    ensures b <= a ==> r + b == a
    ensures a < b ==> r == 0
  {
    if b <= a then a - b else 0
  }

  function Max(a: nat, b: nat): (r: nat)
    ensures a <= r && b <= r && (r == a || r == b)
  {
    if a < b then b else a
  }

  function Repeat(c: char, n: nat): (r: string)
    ensures |r| == n && forall i :: 0 <= i < n ==> r[i] == c
  {
    seq(n, _ => c)
  }

  function Spaces(n: nat): (r: string)
    ensures |r| == n && forall i :: 0 <= i < n ==> r[i] == ' '
  {
    Repeat(' ', n)
  }

  /** Rust's left-aligned width format on a string: left-aligned, filled with spaces to width `w`, never cut. */
  function PadRight(s: string, w: nat): (r: string)
    ensures |r| == Max(|s|, w)
    ensures r[..|s|] == s
    ensures forall i :: |s| <= i < |r| ==> r[i] == ' '
  {
    s + Spaces(SatSub(w, |s|))
  }

  /** Rust's centred width format on a string: centred, the odd fill space on the right, never cut. */
  function Center(s: string, w: nat): (r: string)
    ensures |r| == Max(|s|, w)
    ensures |s| <= w ==> r == Spaces((w - |s|) / 2) + s + Spaces(w - |s| - (w - |s|) / 2)
  {
    if w <= |s| then s
    else Spaces((w - |s|) / 2) + s + Spaces(w - |s| - (w - |s|) / 2)
  }

  /** Index of the first `c` in `s`, or `|s|` when there is none. */
  function IndexOf(s: string, c: char): (i: nat)
    ensures i <= |s|
    ensures i < |s| ==> s[i] == c
    ensures forall j :: 0 <= j < i ==> s[j] != c
  {
    if s == [] then 0 else if s[0] == c then 0 else 1 + IndexOf(s[1..], c)
  }

  /** `str::split_once(c)`: the text before and after the first `c`. */
  function SplitOnce(s: string, c: char): (r: Option<(string, string)>)
    ensures r.None? <==> c !in s
    ensures r.Some? ==> s == r.value.0 + [c] + r.value.1 && c !in r.value.0
  {
    var i := IndexOf(s, c);
    if i == |s| then None
    else
      assert s == s[..i] + [c] + s[i + 1..];
      Some((s[..i], s[i + 1..]))
  }

  /** `str::split(c)`: the pieces between occurrences of `c`; there is always at least one. */
  function SplitOn(s: string, c: char): (r: seq<string>)
    ensures |r| >= 1
    ensures forall k :: 0 <= k < |r| ==> c !in r[k]
    decreases |s|
  {
    var i := IndexOf(s, c);
    if i == |s| then [s] else [s[..i]] + SplitOn(s[i + 1..], c)
  }

  /** Position i starts the text after the last `c` in `s` (all of `s` when it has none). */
  predicate AfterLast(s: string, c: char, i: int) {
    0 <= i <= |s| && (i == 0 || s[i - 1] == c) && forall m :: i <= m < |s| ==> s[m] != c
  }

  /** Where the text after the last `c` starts: 0 when `s` has no `c`. */
  function LastStart(s: string, c: char): (i: nat)
    ensures AfterLast(s, c, i)
    decreases |s|
  {
    if s == [] then 0
    else if s[|s| - 1] == c then |s|
    else
      var i := LastStart(s[..|s| - 1], c);
      assert forall m :: i <= m < |s| - 1 ==> s[m] == s[..|s| - 1][m];
      i
  }

  /** Only one position starts the text after the last `c`. */
  lemma {:induction false} AfterLastUnique(s: string, c: char, i: int, k: int)
    requires AfterLast(s, c, i) && AfterLast(s, c, k)
    ensures i == k
  {
  }

  /** Past an occurrence of `c`, the text after the last `c` starts where it starts in the rest. */
  lemma {:induction false} LastStartShift(s: string, c: char, j: nat)
    requires j < |s| && s[j] == c
    ensures LastStart(s, c) == j + 1 + LastStart(s[j + 1..], c)
  {
    var rest := s[j + 1..];
    var i' := LastStart(rest, c);
    var i := j + 1 + i';
    forall m | i <= m < |s|
      ensures s[m] != c
    {
      assert s[m] == rest[m - j - 1];
    }
    assert s[i - 1] == c by {
      if i' > 0 {
        assert s[i - 1] == rest[i' - 1];
      }
    }
    AfterLastUnique(s, c, i, LastStart(s, c));
  }

  /** The last piece of `str::split(c)` is the text after the last `c`, or all of `s`. */
  lemma {:induction false} SplitOnLast(s: string, c: char)
    ensures SplitOn(s, c)[|SplitOn(s, c)| - 1] == s[LastStart(s, c)..]
    decreases |s|
  {
    var j := IndexOf(s, c);
    if j == |s| {
      assert AfterLast(s, c, 0);
      AfterLastUnique(s, c, 0, LastStart(s, c));
    } else {
      var rest := s[j + 1..];
      var parts := SplitOn(rest, c);
      assert SplitOn(s, c) == [s[..j]] + parts;
      assert SplitOn(s, c)[|SplitOn(s, c)| - 1] == parts[|parts| - 1];
      SplitOnLast(rest, c);
      LastStartShift(s, c, j);
      SliceOfSuffix(s, j + 1, LastStart(rest, c));
    }
  }

  lemma SliceOfSuffix(s: string, j: nat, k: nat)
    requires j <= |s| && k <= |s| - j
    ensures s[j..][k..] == s[j + k..]
  {
  }

  /** `parts.join(sep)`. */
  function Join(parts: seq<string>, sep: string): string {
    if |parts| == 0 then []
    else if |parts| == 1 then parts[0]
    else parts[0] + sep + Join(parts[1..], sep)
  }

  /** Splitting a joined list on its one-character separator gives the list back,
      provided no part contains the separator. */
  lemma {:induction false} SplitJoin(parts: seq<string>, c: char)
    requires |parts| >= 1
    requires forall k :: 0 <= k < |parts| ==> c !in parts[k]
    ensures SplitOn(Join(parts, [c]), c) == parts
    decreases |parts|
  {
    if |parts| > 1 {
      var rest := Join(parts[1..], [c]);
      var s := parts[0] + [c] + rest;
      assert IndexOf(s, c) == |parts[0]| by {
        assert s[|parts[0]|] == c;
        assert forall j :: 0 <= j < |parts[0]| ==> s[j] == parts[0][j];
      }
      assert s[..|parts[0]|] == parts[0];
      assert s[|parts[0]| + 1..] == rest;
      SplitJoin(parts[1..], c);
    }
  }

  /** `str::lines()`: split at "\n", drop a "\r" before it, no final empty line. */
  function Lines(s: string): (r: seq<string>)
    ensures forall k :: 0 <= k < |r| ==> '\n' !in r[k]
    ensures |r| <= |s|
    decreases |s|
  {
    var i := IndexOf(s, '\n');
    if s == [] then []
    else if i == |s| then [s]
    else [DropCr(s[..i])] + Lines(s[i + 1..])
  }

  function DropCr(line: string): (r: string)
    ensures |r| <= |line| && r == line[..|r|]
  {
    if line != [] && line[|line| - 1] == '\r' then line[..|line| - 1] else line
  }

  /** `lines().skip(1)`. */
  function SkipFirst<T>(xs: seq<T>): (r: seq<T>)
    ensures xs != [] ==> r == xs[1..]
    ensures xs == [] ==> r == []
  {
    if xs == [] then [] else xs[1..]
  }

  /** Length of the run of non-whitespace characters that starts `s`. */
  function WordLength(s: string): (n: nat)
    ensures n <= |s|
    ensures forall j :: 0 <= j < n ==> !IsSpace(s[j])
    ensures n < |s| ==> IsSpace(s[n])
  {
    if s == [] || IsSpace(s[0]) then 0 else 1 + WordLength(s[1..])
  }

  /** `str::split_whitespace()`: the maximal runs of non-whitespace characters. */
  function SplitWhitespace(s: string): (r: seq<string>)
    ensures forall k :: 0 <= k < |r| ==> r[k] != [] && forall j :: 0 <= j < |r[k]| ==> !IsSpace(r[k][j])
    ensures |r| <= |s|
    decreases |s|
  {
    if s == [] then []
    else if IsSpace(s[0]) then SplitWhitespace(s[1..])
    else
      var n := WordLength(s);
      [s[..n]] + SplitWhitespace(s[n..])
  }

  function TrimStart(s: string): (r: string)
    ensures |r| <= |s| && r == s[|s| - |r|..]
    ensures r != [] ==> !IsSpace(r[0])
    decreases |s|
  {
    if s != [] && IsSpace(s[0]) then TrimStart(s[1..]) else s
  }

  function TrimEnd(s: string): (r: string)
    ensures |r| <= |s| && r == s[..|r|]
    ensures r != [] ==> !IsSpace(r[|r| - 1])
    ensures forall j :: |r| <= j < |s| ==> IsSpace(s[j])
    decreases |s|
  {
    if s != [] && IsSpace(s[|s| - 1]) then TrimEnd(s[..|s| - 1]) else s
  }

  /** Trimming the end of a string that ends in a non-space, followed by spaces, gives the string back. */
  lemma TrimEndPadding(a: string, n: nat)
    requires a == [] || !IsSpace(a[|a| - 1])
    ensures TrimEnd(a + Spaces(n)) == a
  {
    var s := a + Spaces(n);
    assert s[..|a|] == a;
  }

  /** `str::trim()`. */
  function Trim(s: string): (r: string)
    ensures |r| <= |s|
    ensures r != [] ==> !IsSpace(r[0]) && !IsSpace(r[|r| - 1])
  {
    TrimEnd(TrimStart(s))
  }

  /** `str::trim_start_matches(c)`. */
  function TrimStartMatches(s: string, c: char): (r: string)
    ensures |r| <= |s| && r == s[|s| - |r|..]
    ensures r != [] ==> r[0] != c
    ensures forall j :: 0 <= j < |s| - |r| ==> s[j] == c
    decreases |s|
  {
    if s != [] && s[0] == c then TrimStartMatches(s[1..], c) else s
  }

  /** `str::trim_end_matches(c)`. */
  function TrimEndMatches(s: string, c: char): (r: string)
    ensures |r| <= |s| && r == s[..|r|]
    ensures r != [] ==> r[|r| - 1] != c
    ensures forall j :: |r| <= j < |s| ==> s[j] == c
    decreases |s|
  {
    if s != [] && s[|s| - 1] == c then TrimEndMatches(s[..|s| - 1], c) else s
  }

  /** `str::trim_matches(c)`. */
  function TrimMatches(s: string, c: char): (r: string)
    ensures r != [] ==> r[0] != c && r[|r| - 1] != c
  {
    TrimEndMatches(TrimStartMatches(s, c), c)
  }

  /** `str::replace(c, "")`: every `c` removed, the rest kept in order. */
  function RemoveChar(s: string, c: char): (r: string)
    ensures c !in r
    ensures c !in s ==> r == s
    ensures |r| <= |s|
    ensures forall x :: x in r ==> x in s
  {
    if s == [] then []
    else (if s[0] == c then [] else [s[0]]) + RemoveChar(s[1..], c)
  }

  function LowerChar(c: char): char {
    if 'A' <= c <= 'Z' then (c as int - 'A' as int + 'a' as int) as char else c
  }

  function UpperChar(c: char): char {
    if 'a' <= c <= 'z' then (c as int - 'a' as int + 'A' as int) as char else c
  }

  /** `str::to_lowercase()` on ASCII. */
  function ToLower(s: string): (r: string)
    ensures |r| == |s| && forall i :: 0 <= i < |s| ==> r[i] == LowerChar(s[i])
  {
    seq(|s|, i requires 0 <= i < |s| => LowerChar(s[i]))
  }

  /** `str::to_ascii_uppercase()`. */
  function ToUpper(s: string): (r: string)
    ensures |r| == |s| && forall i :: 0 <= i < |s| ==> r[i] == UpperChar(s[i])
  {
    seq(|s|, i requires 0 <= i < |s| => UpperChar(s[i]))
  }

  /** `s.chars().take(n).collect()`. */
  function Take(s: string, n: nat): (r: string)
    ensures |r| == if |s| < n then |s| else n
    ensures r == s[..|r|]
  {
    if |s| <= n then s else s[..n]
  }

  // ---- Numbers ----

  function DigitChar(d: nat): char
    requires d < 10
  {
    ('0' as int + d) as char
  }

  /** Decimal rendering of an unsigned integer, as `{}` prints it. */
  function NatToString(n: nat): (r: string)
    ensures r != []
    decreases n
  {
    if n < 10 then [DigitChar(n)] else NatToString(n / 10) + [DigitChar(n % 10)]
  }

  /** Value of a digit in the given radix (`char::to_digit`), or `radix` when it is none. */
  function DigitValue(c: char, radix: nat): (v: nat)
    requires 2 <= radix <= 36
    ensures v <= radix
  {
    var v :=
      if '0' <= c <= '9' then c as int - '0' as int
      else if 'a' <= c <= 'z' then c as int - 'a' as int + 10
      else if 'A' <= c <= 'Z' then c as int - 'A' as int + 10
      else radix;
    if v < radix then v else radix
  }

  predicate AllDigits(s: string, radix: nat)
    requires 2 <= radix <= 36
  {
    forall i :: 0 <= i < |s| ==> DigitValue(s[i], radix) < radix
  }

  /** Value of a digit string, most significant digit first. */
  function DigitsValue(s: string, radix: nat): nat
    requires 2 <= radix <= 36
    requires AllDigits(s, radix)
    decreases |s|
  {
    if s == [] then 0
    else DigitsValue(s[..|s| - 1], radix) * radix + DigitValue(s[|s| - 1], radix)
  }

  function Pow(b: nat, e: nat): (r: nat)
    ensures r >= 1 || b == 0
  {
    if e == 0 then 1 else b * Pow(b, e - 1)
  }

  /** `from_str_radix` / `str::parse` for an unsigned type whose values lie below `bound`:
      an optional '+', then at least one digit; a value out of range is an error. */
  function ParseUnsigned(s: string, radix: nat, bound: nat): (r: Option<nat>)
    requires 2 <= radix <= 36
    ensures r.Some? ==> r.value < bound
    ensures r.Some? ==> s != [] && (s[0] == '+' || DigitValue(s[0], radix) < radix)
  {
    var digits := if s != [] && s[0] == '+' then s[1..] else s;
    if digits == [] || !AllDigits(digits, radix) then None
    else
      var v := DigitsValue(digits, radix);
      if v < bound then Some(v) else None
  }

  /** `u64::from_str`. */
  function ParseU64(s: string): (r: Option<nat>)
    ensures r.Some? ==> r.value < 0x1_0000_0000_0000_0000
  {
    ParseUnsigned(s, 10, 0x1_0000_0000_0000_0000)
  }

  /** `u8::from_str`. */
  function ParseU8(s: string): (r: Option<nat>)
    ensures r.Some? ==> r.value < 256
  {
    ParseUnsigned(s, 10, 256)
  }

  lemma {:induction false} NatToStringDigits(n: nat)
    ensures AllDigits(NatToString(n), 10)
    ensures DigitsValue(NatToString(n), 10) == n
    decreases n
  {
    var s := NatToString(n);
    if n >= 10 {
      NatToStringDigits(n / 10);
      assert s[..|s| - 1] == NatToString(n / 10);
      assert s[|s| - 1] == DigitChar(n % 10);
    } else {
      assert s == [DigitChar(n)];
    }
  }

  /** Parsing what `{}` printed gives the number back. */
  lemma NatToStringRoundTrip(n: nat, bound: nat)
    requires n < bound
    ensures ParseUnsigned(NatToString(n), 10, bound) == Some(n)
  {
    NatToStringDigits(n);
    var s := NatToString(n);
    assert DigitValue(s[0], 10) < 10;
  }

  lemma Regroup(x: nat, p: nat, y: nat, r: nat, d: nat)
    ensures (x * p + y) * r + d == x * (p * r) + (y * r + d)
  {
  }

  lemma PowStep(b: nat, e: nat)
    requires e >= 1
    ensures Pow(b, e) == Pow(b, e - 1) * b
  {
  }

  /** The value of a digit string splits at any point into its high and low parts. */
  lemma {:induction false} DigitsValueAppend(a: string, b: string, radix: nat)
    requires 2 <= radix <= 36
    requires AllDigits(a, radix) && AllDigits(b, radix)
    ensures AllDigits(a + b, radix)
    ensures DigitsValue(a + b, radix) == DigitsValue(a, radix) * Pow(radix, |b|) + DigitsValue(b, radix)
    decreases |b|
  {
    if b == [] {
      assert a + b == a;
    } else {
      var b' := b[..|b| - 1];
      var d := DigitValue(b[|b| - 1], radix);
      DigitsValueAppend(a, b', radix);
      assert (a + b)[..|a + b| - 1] == a + b';
      assert (a + b)[|a + b| - 1] == b[|b| - 1];
      assert DigitsValue(a + b, radix) == DigitsValue(a + b', radix) * radix + d;
      assert DigitsValue(b, radix) == DigitsValue(b', radix) * radix + d;
      PowStep(radix, |b|);
      Regroup(DigitsValue(a, radix), Pow(radix, |b'|), DigitsValue(b', radix), radix, d);
    }
  }

  lemma StepBound(x: nat, p: nat, r: nat, d: nat)
    requires x < p && d < r
    ensures x * r + d < p * r
  {
    assert (x + 1) * r <= p * r;
  }

  /** A digit string of length `k` has a value below `radix^k`. */
  lemma {:induction false} DigitsValueBound(s: string, radix: nat)
    requires 2 <= radix <= 36
    requires AllDigits(s, radix)
    ensures DigitsValue(s, radix) < Pow(radix, |s|)
    decreases |s|
  {
    if s != [] {
      var s' := s[..|s| - 1];
      DigitsValueBound(s', radix);
      PowStep(radix, |s|);
      StepBound(DigitsValue(s', radix), Pow(radix, |s'|), radix, DigitValue(s[|s| - 1], radix));
    }
  }
}

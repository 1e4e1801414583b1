/**
 * String helpers shared by the models: JavaScript's global literal `replace`, `join('')`,
 * `split`/`join` on one separator, substring search, and the decimal renderings of numbers
 * (`String(n)` for integers and `toFixed(2)` for amounts held as integer paise).
 */
module Text {

  // ---------------------------------------------------------------------------------------
  // Literal replace-all
  // ---------------------------------------------------------------------------------------

  /** `pat` occurs in `s` at index `i`. */
  predicate OccursAt(s: string, pat: string, i: nat) {
    i + |pat| <= |s| && s[i..i + |pat|] == pat
  }

  ghost predicate Occurs(s: string, pat: string) {
    exists i: nat :: OccursAt(s, pat, i)
  }

  /**
   * `s.replace(/pat/g, rep)` for a pattern that matches itself literally and a replacement
   * without `$` sequences: occurrences are found from the left and do not overlap, and the
   * inserted text is not searched again.
   */
  function ReplaceAll(s: string, pat: string, rep: string): string
    requires pat != []
    decreases |s|
  {
    if |s| < |pat| then s
    else if s[..|pat|] == pat then rep + ReplaceAll(s[|pat|..], pat, rep)
    else [s[0]] + ReplaceAll(s[1..], pat, rep)
  }

  /** A string without the pattern is left unchanged. */
  lemma {:induction false} ReplaceAllAbsent(s: string, pat: string, rep: string)
    requires pat != [] && !Occurs(s, pat)
    ensures ReplaceAll(s, pat, rep) == s
  {
    if |s| >= |pat| {
      assert !OccursAt(s, pat, 0);
      assert s[..|pat|] != pat by { assert s[0..0 + |pat|] == s[..|pat|]; }
      forall i: nat ensures !OccursAt(s[1..], pat, i) {
        assert !OccursAt(s, pat, i + 1);
        if i + |pat| <= |s[1..]| {
          assert s[1..][i..i + |pat|] == s[i + 1..i + 1 + |pat|];
        }
      }
      ReplaceAllAbsent(s[1..], pat, rep);
    }
  }

  /** Replacing a pattern by itself changes nothing. */
  lemma {:induction false} ReplaceAllSelf(s: string, pat: string)
    requires pat != []
    ensures ReplaceAll(s, pat, pat) == s
    decreases |s|
  {
    if |s| >= |pat| {
      if s[..|pat|] == pat {
        ReplaceAllSelf(s[|pat|..], pat);
        assert s == s[..|pat|] + s[|pat|..];
      } else {
        ReplaceAllSelf(s[1..], pat);
        assert s == [s[0]] + s[1..];
      }
    }
  }

  /**
   * `x` and `pat` agree on their common length: a match of `pat` could begin at the front
   * of `x`, depending on what follows `x`.
   */
  predicate Agrees(x: string, pat: string) {
    var n := if |x| < |pat| then |x| else |pat|;
    x[..n] == pat[..n]
  }

  /** No match of `pat` can begin inside `a`, whatever text follows it. */
  predicate Clean(a: string, pat: string) {
    forall i :: 0 <= i < |a| ==> !Agrees(a[i..], pat)
  }

  lemma CleanTail(a: string, pat: string)
    requires a != [] && Clean(a, pat)
    ensures Clean(a[1..], pat)
  {
    forall i | 0 <= i < |a[1..]| ensures !Agrees(a[1..][i..], pat) {
      assert a[1..][i..] == a[i + 1..];
    }
  }

  /** A text that starts with a clean, non-empty string does not start with `pat`. */
  lemma CleanFrontMismatch(a: string, t: string, pat: string)
    requires a != [] && Clean(a, pat) && |a + t| >= |pat|
    ensures (a + t)[..|pat|] != pat
  {
    var s := a + t;
    assert a[0..] == a;
    assert !Agrees(a, pat);
    var n := if |a| < |pat| then |a| else |pat|;
    assert s[..n] == a[..n];
    assert a[..n] != pat[..n];
    assert s[..|pat|][..n] == s[..n];
  }

  /** A clean prefix passes through replace-all untouched. */
  lemma {:induction false} ReplaceAllCleanPrefix(a: string, t: string, pat: string, rep: string)
    requires pat != [] && Clean(a, pat)
    ensures ReplaceAll(a + t, pat, rep) == a + ReplaceAll(t, pat, rep)
    decreases |a|
  {
    var s := a + t;
    if a == [] {
      assert s == t;
    } else if |s| < |pat| {
      assert ReplaceAll(t, pat, rep) == t;
    } else {
      CleanFrontMismatch(a, t, pat);
      CleanTail(a, pat);
      ReplaceAllCleanPrefix(a[1..], t, pat, rep);
      assert s[1..] == a[1..] + t;
      calc {
        ReplaceAll(s, pat, rep);
        [s[0]] + ReplaceAll(s[1..], pat, rep);
        [a[0]] + ReplaceAll(a[1..] + t, pat, rep);
        [a[0]] + (a[1..] + ReplaceAll(t, pat, rep));
        { assert [a[0]] + a[1..] == a; }
        a + ReplaceAll(t, pat, rep);
      }
    }
  }

  /** A clean string contains no match at all. */
  lemma CleanUnchanged(a: string, pat: string, rep: string)
    requires pat != [] && Clean(a, pat)
    ensures ReplaceAll(a, pat, rep) == a
  {
    ReplaceAllCleanPrefix(a, [], pat, rep);
    assert a + [] == a;
  }

  /** A match at the front is replaced and the scan resumes after it. */
  lemma ReplaceAllHead(t: string, pat: string, rep: string)
    requires pat != []
    ensures ReplaceAll(pat + t, pat, rep) == rep + ReplaceAll(t, pat, rep)
  {
    var s := pat + t;
    assert s[..|pat|] == pat;
    assert s[|pat|..] == t;
  }

  /** Every `{` is followed by a character other than `{`: no `{{…}}` placeholder can start inside. */
  predicate NoPlaceholderStart(t: string) {
    forall i :: 0 <= i < |t| && t[i] == '{' ==> i + 1 < |t| && t[i + 1] != '{'
  }

  lemma NoPlaceholderStartIsClean(t: string, pat: string)
    requires |pat| >= 2 && pat[0] == '{' && pat[1] == '{'
    requires NoPlaceholderStart(t)
    ensures Clean(t, pat)
  {
    forall i | 0 <= i < |t| ensures !Agrees(t[i..], pat) {
      var x := t[i..];
      var n := if |x| < |pat| then |x| else |pat|;
      if t[i] != '{' {
        assert x[..n][0] != pat[..n][0];
      } else {
        assert x[..n][1] != pat[..n][1];
      }
    }
  }

  lemma NoBraceNoPlaceholderStart(t: string)
    requires '{' !in t
    ensures NoPlaceholderStart(t)
  {
  }

  lemma NoPlaceholderStartAppend(a: string, b: string)
    requires NoPlaceholderStart(a) && NoPlaceholderStart(b)
    ensures NoPlaceholderStart(a + b)
  {
    forall i | 0 <= i < |a + b| && (a + b)[i] == '{'
      ensures i + 1 < |a + b| && (a + b)[i + 1] != '{'
    {
      if i >= |a| {
        assert (a + b)[i] == b[i - |a|];
      }
    }
  }

  // ---------------------------------------------------------------------------------------
  // Concatenation, split and join
  // ---------------------------------------------------------------------------------------

  /** `parts.join('')`. */
  function Concat(parts: seq<string>): string {
    if parts == [] then "" else parts[0] + Concat(parts[1..])
  }

  lemma {:induction false} ConcatAppend(a: seq<string>, b: seq<string>)
    ensures Concat(a + b) == Concat(a) + Concat(b)
  {
    if a != [] {
      assert (a + b)[0] == a[0];
      assert (a + b)[1..] == a[1..] + b;
      ConcatAppend(a[1..], b);
    } else {
      assert a + b == b;
    }
  }

  /** `parts.join(sep)` for a one-character separator. */
  function Join(parts: seq<string>, sep: char): string {
    if |parts| == 0 then ""
    else if |parts| == 1 then parts[0]
    else parts[0] + [sep] + Join(parts[1..], sep)
  }

  /** `s.split(sep)` for a one-character separator: always at least one field. */
  function Split(s: string, sep: char): (r: seq<string>)
    ensures |r| >= 1
    decreases |s|
  {
    if s == [] then [""]
    else
      var rest := Split(s[1..], sep);
      if s[0] == sep then [""] + rest else [[s[0]] + rest[0]] + rest[1..]
  }

  lemma {:induction false} SplitPrefix(p: string, t: string, sep: char)
    requires sep !in p
    ensures Split(p + t, sep) == [p + Split(t, sep)[0]] + Split(t, sep)[1..]
    decreases |p|
  {
    if p != [] {
      var S := Split(t, sep);
      assert (p + t)[0] == p[0] != sep;
      assert (p + t)[1..] == p[1..] + t;
      SplitPrefix(p[1..], t, sep);
      var R := Split(p[1..] + t, sep);
      assert R[0] == p[1..] + S[0] && R[1..] == S[1..];
      assert Split(p + t, sep) == [[p[0]] + R[0]] + R[1..];
      assert p == [p[0]] + p[1..];
      assert [p[0]] + R[0] == p + S[0];
    } else {
      var r := Split(t, sep);
      assert p + t == t;
      assert p + r[0] == r[0];
      assert r == [r[0]] + r[1..];
    }
  }

  /** Splitting a join gives back the parts, when no part holds the separator. */
  lemma {:induction false} SplitJoin(parts: seq<string>, sep: char)
    requires |parts| >= 1
    requires forall i :: 0 <= i < |parts| ==> sep !in parts[i]
    ensures Split(Join(parts, sep), sep) == parts
  {
    if |parts| == 1 {
      SplitPrefix(parts[0], "", sep);
      assert Split("", sep) == [""];
      assert parts[0] + "" == parts[0];
    } else {
      var tail := [sep] + Join(parts[1..], sep);
      assert Join(parts, sep) == parts[0] + tail;
      SplitPrefix(parts[0], tail, sep);
      assert tail[0] == sep;
      assert tail[1..] == Join(parts[1..], sep);
      assert Split(tail, sep) == [""] + Split(Join(parts[1..], sep), sep);
      SplitJoin(parts[1..], sep);
      var S := Split(tail, sep);
      assert S[0] == "" && S[1..] == parts[1..];
      assert parts[0] + S[0] == parts[0];
      assert parts == [parts[0]] + parts[1..];
    }
  }

  /** Substring search, as JavaScript's `s.includes(pat)` or a one-word regular expression. */
  function Contains(s: string, pat: string): (b: bool)
    decreases |s|
  {
    if |s| < |pat| then false
    else s[..|pat|] == pat || Contains(s[1..], pat)
  }

  lemma {:induction false} ContainsOccurs(s: string, pat: string)
    ensures Contains(s, pat) <==> Occurs(s, pat)
    decreases |s|
  {
    if pat == [] {
      assert OccursAt(s, pat, 0);
    } else if |s| >= |pat| {
      ContainsOccurs(s[1..], pat);
      if Occurs(s, pat) {
        var i: nat :| OccursAt(s, pat, i);
        if i > 0 {
          assert s[1..][i - 1..i - 1 + |pat|] == s[i..i + |pat|];
          assert OccursAt(s[1..], pat, i - 1);
        } else {
          assert s[..|pat|] == s[0..0 + |pat|];
        }
      }
      if Contains(s, pat) {
        if s[..|pat|] == pat {
          assert OccursAt(s, pat, 0);
        } else {
          var i: nat :| OccursAt(s[1..], pat, i);
          assert s[1..][i..i + |pat|] == s[i + 1..i + 1 + |pat|];
          assert OccursAt(s, pat, i + 1);
        }
      }
    } else {
      assert forall i: nat :: !OccursAt(s, pat, i);
    }
  }

  // ---------------------------------------------------------------------------------------
  // Numbers as decimal text
  // ---------------------------------------------------------------------------------------

  predicate IsDigit(c: char) {
    '0' <= c <= '9'
  }

  predicate AllDigits(s: string) {
    forall i :: 0 <= i < |s| ==> IsDigit(s[i])
  }

  function DigitChar(d: nat): (c: char)
    requires d < 10
    ensures IsDigit(c) && c as int - '0' as int == d
  {
    (d + '0' as int) as char
  }

  /** `String(n)` for a non-negative integer: decimal digits without leading zeros. */
  function NatToString(n: nat): (r: string)
    ensures r != [] && AllDigits(r)
    ensures r[0] == '0' ==> n == 0
    decreases n
  {
    if n < 10 then [DigitChar(n)] else NatToString(n / 10) + [DigitChar(n % 10)]
  }

  function ParseNat(s: string): nat
    requires AllDigits(s)
    decreases |s|
  {
    if s == [] then 0 else 10 * ParseNat(s[..|s| - 1]) + (s[|s| - 1] as int - '0' as int)
  }

  lemma {:induction false} ParseNatToString(n: nat)
    ensures ParseNat(NatToString(n)) == n
    decreases n
  {
    if n >= 10 {
      var r := NatToString(n);
      assert r[..|r| - 1] == NatToString(n / 10);
      ParseNatToString(n / 10);
    }
  }

  /** `String(i)` / `${i}` for an integer-valued number. */
  function IntToString(i: int): (r: string)
    ensures r != []
  {
    if i < 0 then "-" + NatToString(-i) else NatToString(i)
  }

  predicate IsIntText(s: string) {
    if s != [] && s[0] == '-' then AllDigits(s[1..]) else AllDigits(s)
  }

  function ParseInt(s: string): int
    requires IsIntText(s)
  {
    if s != [] && s[0] == '-' then -(ParseNat(s[1..]) as int) else ParseNat(s)
  }

  lemma IntToStringRoundTrip(i: int)
    ensures IsIntText(IntToString(i)) && ParseInt(IntToString(i)) == i
  {
    if i < 0 {
      var r := IntToString(i);
      assert r[1..] == NatToString(-i);
      ParseNatToString(-i);
    } else {
      ParseNatToString(i);
    }
  }

  /** Two decimal digits, with a leading zero below ten. */
  function TwoDigits(n: nat): (r: string)
    requires n < 100
    ensures |r| == 2 && AllDigits(r)
  {
    [DigitChar(n / 10), DigitChar(n % 10)]
  }

  /**
   * `(p / 100).toFixed(2)` for an amount `p` held exactly in paise: an optional minus sign,
   * the rupees without leading zeros, a point and exactly two digits of paise.
   */
  function FormatFixed2(p: int): (r: string)
  {
    var a := if p < 0 then -p else p;
    (if p < 0 then "-" else "") + NatToString(a / 100) + "." + TwoDigits(a % 100)
  }

  /** Digits, a point and exactly two digits. */
  predicate IsUnsignedFixed2(u: string) {
    |u| >= 4 && AllDigits(u[..|u| - 3]) && u[|u| - 3] == '.' && AllDigits(u[|u| - 2..])
  }

  function ParseUnsignedFixed2(u: string): nat
    requires IsUnsignedFixed2(u)
  {
    100 * ParseNat(u[..|u| - 3]) + ParseNat(u[|u| - 2..])
  }

  /** The shape `toFixed(2)` produces: `-`?, digits, `.`, two digits. */
  predicate IsFixed2Text(s: string) {
    IsUnsignedFixed2(if s != [] && s[0] == '-' then s[1..] else s)
  }

  function ParseFixed2(s: string): int
    requires IsFixed2Text(s)
  {
    if s != [] && s[0] == '-' then -(ParseUnsignedFixed2(s[1..]) as int) else ParseUnsignedFixed2(s)
  }

  lemma ParseTwoDigits(n: nat)
    requires n < 100
    ensures ParseNat(TwoDigits(n)) == n
  {
    var d := TwoDigits(n);
    var hi := [DigitChar(n / 10)];
    assert d[..1] == hi && hi[..0] == [];
    assert ParseNat(hi) == n / 10;
    assert ParseNat(d) == 10 * ParseNat(hi) + n % 10;
  }

  /** The unsigned part of `toFixed(2)`: rupees, a point, two digits of paise. */
  lemma Fixed2Unsigned(a: nat)
    ensures var u := NatToString(a / 100) + "." + TwoDigits(a % 100);
      u[0] != '-' && IsUnsignedFixed2(u) && ParseUnsignedFixed2(u) == a
  {
    var u := NatToString(a / 100) + "." + TwoDigits(a % 100);
    assert u[0] == NatToString(a / 100)[0];
    assert u[..|u| - 3] == NatToString(a / 100);
    assert u[|u| - 2..] == TwoDigits(a % 100);
    ParseNatToString(a / 100);
    ParseTwoDigits(a % 100);
  }

  /** `toFixed(2)` loses nothing for amounts in whole paise. */
  lemma FormatFixed2RoundTrip(p: int)
    ensures IsFixed2Text(FormatFixed2(p)) && ParseFixed2(FormatFixed2(p)) == p
  {
    var a := if p < 0 then -p else p;
    var u := NatToString(a / 100) + "." + TwoDigits(a % 100);
    Fixed2Unsigned(a);
    var s := FormatFixed2(p);
    if p < 0 {
      assert s == "-" + u;
      assert s[0] == '-' && s[1..] == u;
    } else {
      assert s == u;
      assert !(s != [] && s[0] == '-');
    }
  }

  // ---------------------------------------------------------------------------------------
  // UTF-16 lengths
  // ---------------------------------------------------------------------------------------

  /** A character outside the Basic Multilingual Plane: JavaScript stores it as two code units. */
  predicate IsAstral(c: char) {
    c as int >= 0x10000
  }

  /** The length JavaScript reports for a string: its number of UTF-16 code units. */
  function Utf16Length(s: string): (n: nat)
    ensures |s| <= n
    ensures (forall i :: 0 <= i < |s| ==> !IsAstral(s[i])) ==> n == |s|
  {
    if s == [] then 0 else (if IsAstral(s[0]) then 2 else 1) + Utf16Length(s[1..])
  }

  /** Code units add up over concatenation. */
  lemma {:induction false} Utf16LengthAppend(a: string, b: string)
    ensures Utf16Length(a + b) == Utf16Length(a) + Utf16Length(b)
  {
    if a == [] {
      assert a + b == b;
    } else {
      assert (a + b)[0] == a[0] && (a + b)[1..] == a[1..] + b;
      Utf16LengthAppend(a[1..], b);
      assert Utf16Length(a + b) == (if IsAstral(a[0]) then 2 else 1) + Utf16Length(a[1..] + b);
    }
  }
}

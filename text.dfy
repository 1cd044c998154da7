/**
 * The string operations the services rely on: Ruby's `blank?` on strings and
 * nil, `Integer#to_s` / `String#to_i` for non-negative numbers, and
 * `String#split` on a single separator character.
 */
module Text {
  import opened Wrappers

  predicate IsSpace(c: char) {
    c == ' ' || c == '\t' || c == '\n' || c == '\r' || c == '\U{000C}' || c == '\U{000B}'
  }

  /** `s.blank?` for a string: empty or made of white space only. */
  predicate Blank(s: string) {
    forall i :: 0 <= i < |s| ==> IsSpace(s[i])
  }

  /** `x.blank?` for a value that may be nil. */
  predicate BlankOrNil(x: Option<string>) {
    x.None? || Blank(x.value)
  }

  predicate IsDigit(c: char) { '0' <= c <= '9' }

  predicate IsLowerHexDigit(c: char) { IsDigit(c) || 'a' <= c <= 'f' }

  /** What `SecureRandom.hex(16)` returns: 32 lower-case hexadecimal digits. */
  predicate IsHex32(s: string) {
    |s| == 32 && forall i :: 0 <= i < |s| ==> IsLowerHexDigit(s[i])
  }

  function DigitChar(d: nat): (c: char)
    requires d < 10
    ensures IsDigit(c) && c as int - '0' as int == d
  {
    ('0' as int + d) as char
  }

  /** `n.to_s` for a non-negative integer. */
  function Decimal(n: nat): (s: string)
    ensures |s| >= 1
    ensures forall i :: 0 <= i < |s| ==> IsDigit(s[i])
  {
    if n < 10 then [DigitChar(n)] else Decimal(n / 10) + [DigitChar(n % 10)]
  }

  /** The value of a string of decimal digits (what `to_i` returns for one). */
  function DigitsValue(s: string): nat
    requires forall i :: 0 <= i < |s| ==> IsDigit(s[i])
  {
    if s == [] then 0
    else
      assert IsDigit(s[|s| - 1]);
      10 * DigitsValue(s[..|s| - 1]) + (s[|s| - 1] as int - '0' as int)
  }

  /** Reading back the decimal rendering gives the number. */
  lemma {:induction false} DecimalRoundTrip(n: nat)
    ensures DigitsValue(Decimal(n)) == n
  {
    if n >= 10 {
      var s := Decimal(n);
      assert s[..|s| - 1] == Decimal(n / 10);
      DecimalRoundTrip(n / 10);
    }
  }

  /** Two numbers with the same rendering are equal. */
  lemma DecimalInjective(m: nat, n: nat)
    requires Decimal(m) == Decimal(n)
    ensures m == n
  {
    DecimalRoundTrip(m);
    DecimalRoundTrip(n);
  }

  /** The fields of `s` between occurrences of one separator character,
      keeping every field, also empty ones. For a separator other than a
      space it agrees with Ruby's `s.split(sep)` whenever the last field is
      not empty; Ruby drops trailing empty fields, and splits on runs of
      whitespace when the separator is a space. */
  function Split(s: string, sep: char): (r: seq<string>)
    ensures |r| >= 1
    decreases |s|
  {
    if s == [] then [""]
    else if s[0] == sep then [""] + Split(s[1..], sep)
    else
      var rest := Split(s[1..], sep);
      [[s[0]] + rest[0]] + rest[1..]
  }

  /** A string without the separator is a single field. */
  lemma {:induction false} SplitNoSeparator(s: string, sep: char)
    requires sep !in s
    ensures Split(s, sep) == [s]
  {
    if s != [] {
      SplitNoSeparator(s[1..], sep);
      assert [s[0]] + s[1..] == s;
    }
  }

  /** A field without the separator, then the separator, then the rest. */
  lemma {:induction false} SplitCons(x: string, sep: char, y: string)
    requires sep !in x
    ensures Split(x + [sep] + y, sep) == [x] + Split(y, sep)
  {
    var s := x + [sep] + y;
    if x == [] {
      assert s[1..] == y;
    } else {
      assert s[1..] == x[1..] + [sep] + y;
      SplitCons(x[1..], sep, y);
      assert [x[0]] + x[1..] == x;
    }
  }

  /** The rest of a string, then the separator, then a last field without it. */
  lemma {:induction false} SplitSnoc(x: string, sep: char, y: string)
    requires sep !in y
    ensures Split(x + [sep] + y, sep) == Split(x, sep) + [y]
    decreases |x|
  {
    var s := x + [sep] + y;
    if x == [] {
      assert s[1..] == y;
      SplitNoSeparator(y, sep);
    } else {
      assert s[0] == x[0];
      assert s[1..] == x[1..] + [sep] + y;
      SplitSnoc(x[1..], sep, y);
    }
  }

  /** Four fields joined by a separator none of them contains split back
      into those four fields. */
  lemma SplitFour(a: string, b: string, c: string, d: string, sep: char)
    requires sep !in a && sep !in b && sep !in c && sep !in d
    ensures Split(a + [sep] + b + [sep] + c + [sep] + d, sep) == [a, b, c, d]
  {
    SplitNoSeparator(a, sep);
    SplitSnoc(a, sep, b);
    SplitSnoc(a + [sep] + b, sep, c);
    SplitSnoc(a + [sep] + b + [sep] + c, sep, d);
  }

  /** The fields with the separator between each two of them. */
  function Join(fields: seq<string>, sep: char): (s: string)
    requires |fields| >= 1
    ensures |s| >= |fields[0]| + |fields| - 1 && s[..|fields[0]|] == fields[0]
  {
    if |fields| == 1 then fields[0] else fields[0] + [sep] + Join(fields[1..], sep)
  }

  /** Splitting undoes joining when no field contains the separator. */
  lemma {:induction false} SplitJoin(fields: seq<string>, sep: char)
    requires |fields| >= 1 && forall i :: 0 <= i < |fields| ==> sep !in fields[i]
    ensures Split(Join(fields, sep), sep) == fields
    decreases |fields|
  {
    if |fields| == 1 {
      SplitNoSeparator(fields[0], sep);
    } else {
      SplitCons(fields[0], sep, Join(fields[1..], sep));
      SplitJoin(fields[1..], sep);
      assert fields == [fields[0]] + fields[1..];
    }
  }

  /** Four fields joined by a separator, written out. */
  lemma JoinFour(a: string, b: string, c: string, d: string, sep: char)
    ensures Join([a, b, c, d], sep) == a + [sep] + b + [sep] + c + [sep] + d
  {
    assert [a, b, c, d][1..] == [b, c, d];
    assert [b, c, d][1..] == [c, d];
    assert [c, d][1..] == [d];
    assert Join([d], sep) == d;
    var cd := Join([c, d], sep);
    assert cd == c + [sep] + d;
    var bcd := Join([b, c, d], sep);
    assert bcd == b + [sep] + cd;
    assert Join([a, b, c, d], sep) == a + [sep] + bcd;
  }

  /** Strings that agree around a middle part agree in the middle. */
  lemma SameMiddle(b: string, s: string, t1: string, t2: string, c: string)
    requires b + (s + t1) + c == b + (s + t2) + c
    ensures t1 == t2
  {
    assert b + (s + t1) + c == b + s + t1 + c;
    assert b + (s + t2) + c == b + s + t2 + c;
    MiddleCancel(b + s, t1, t2, c);
  }

  /** Equal strings with the same prefix and suffix have the same middle. */
  lemma MiddleCancel(p: string, a: string, b: string, t: string)
    requires p + a + t == p + b + t
    ensures a == b
  {
    var s := p + a + t;
    assert |a| == |b|;
    assert s[|p|..|p| + |a|] == a;
    assert (p + b + t)[|p|..|p| + |b|] == b;
  }

  /** The three parts of a concatenation are its slices at their lengths. */
  lemma ThreeParts(a: string, m: string, q: string)
    ensures var s := a + m + q;
      && s[..|a|] == a && s[|a|..|a| + |m|] == m && s[|a| + |m|..] == q
  {
  }

  /** Appending to the front keeps what a string ends with. */
  lemma KeepsSuffix(x: string, q: string, r: string)
    requires |q| >= |r| && q[|q| - |r|..] == r
    ensures (x + q)[|x + q| - |r|..] == r
  {
    assert (x + q)[|x + q| - |r|..] == q[|q| - |r|..];
  }

  /** The position of the first occurrence of `c` in `s`. */
  function IndexOf(s: string, c: char): (i: nat)
    requires c in s
    ensures i < |s| && s[i] == c && c !in s[..i]
  {
    if s[0] == c then 0
    else
      assert c in s[1..] by {
        var k :| 0 <= k < |s| && s[k] == c;
        assert s[1..][k - 1] == c;
      }
      var j := IndexOf(s[1..], c);
      assert s[..j + 1] == [s[0]] + s[1..][..j];
      j + 1
  }

  /** The first occurrence of `c` is the one right after a prefix that lacks it. */
  lemma IndexOfAfter(x: string, c: char, y: string)
    requires c !in x
    ensures c in x + [c] + y && IndexOf(x + [c] + y, c) == |x|
  {
    var s := x + [c] + y;
    assert s[|x|] == c;
    assert s[..|x|] == x;
  }

  /** Around the first occurrence of `c`: what precedes it and what follows. */
  lemma AroundFirst(x: string, c: char, y: string)
    requires c !in x
    ensures c in x + [c] + y
    ensures (x + [c] + y)[..IndexOf(x + [c] + y, c)] == x
    ensures (x + [c] + y)[IndexOf(x + [c] + y, c) + 1..] == y
  {
    IndexOfAfter(x, c, y);
    var s := x + [c] + y;
    assert s[..|x|] == x;
    assert s[|x| + 1..] == y;
  }

  /** The first field of a split is what precedes the first separator. */
  lemma SplitFirstField(x: string, sep: char, y: string)
    requires sep !in x
    ensures Split(x + [sep] + y, sep)[0] == x
  {
    SplitCons(x, sep, y);
  }
}

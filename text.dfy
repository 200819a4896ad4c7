/** The string operations the pipeline relies on: Python's decimal formatting (`%s`,
    `%d`, `%02d`), `str.split`, `sorted` on strings and `os.path.join`. */
module Text {

  predicate IsDigit(ch: char) { '0' <= ch <= '9' }

  predicate AllDigits(s: string) {
    forall i :: 0 <= i < |s| ==> IsDigit(s[i])
  }

  function Digit(d: nat): (ch: char)
    requires d < 10
    ensures IsDigit(ch)
  {
    ('0' as int + d) as char
  }

  function DigitValue(ch: char): nat
    requires IsDigit(ch)
  {
    ch as int - '0' as int
  }

  /** `'%d' % n` (and `'%s' % n`, `str(n)`) for a non-negative integer: at least one
      digit and no leading zero unless n is 0. */
  function Decimal(n: nat): (s: string)
    ensures |s| >= 1 && AllDigits(s)
    ensures s[0] == '0' ==> n == 0
  {
    if n < 10 then [Digit(n)] else Decimal(n / 10) + [Digit(n % 10)]
  }

  /** The value a digit string denotes. */
  function ParseDecimal(s: string): nat
    requires AllDigits(s)
  {
    if s == [] then 0 else ParseDecimal(s[..|s| - 1]) * 10 + DigitValue(s[|s| - 1])
  }

  /** Decimal formatting loses nothing: parsing it back gives the number. */
  lemma {:induction false} DecimalRoundTrip(n: nat)
    ensures ParseDecimal(Decimal(n)) == n
  {
    var s := Decimal(n);
    if n < 10 {
      assert s[..|s| - 1] == [];
    } else {
      assert s[..|s| - 1] == Decimal(n / 10);
      DecimalRoundTrip(n / 10);
    }
  }

  /** Hence distinct numbers are formatted as distinct strings. */
  lemma DecimalInjective(m: nat, n: nat)
    requires Decimal(m) == Decimal(n)
    ensures m == n
  {
    DecimalRoundTrip(m);
    DecimalRoundTrip(n);
  }

  lemma {:induction false} ParseLeadingZero(s: string)
    requires AllDigits(s)
    ensures AllDigits("0" + s) && ParseDecimal("0" + s) == ParseDecimal(s)
  {
    var t := "0" + s;
    if s != [] {
      assert t[..|t| - 1] == "0" + s[..|s| - 1];
      ParseLeadingZero(s[..|s| - 1]);
    } else {
      assert t[..|t| - 1] == [];
    }
  }

  /** `'%02d' % n`: zero-padded to at least two digits, and it still denotes n. */
  function Pad2(n: nat): (s: string)
    ensures |s| >= 2 && AllDigits(s)
    ensures ParseDecimal(s) == n
  {
    DecimalRoundTrip(n);
    if n < 10 then ParseLeadingZero(Decimal(n)); "0" + Decimal(n) else Decimal(n)
  }

  /** `s.split(sep)` for a one-character separator. */
  function Split(s: string, sep: char): (fields: seq<string>)
    ensures |fields| >= 1
    decreases |s|
  {
    if s == [] then [""]
    else
      var rest := Split(s[1..], sep);
      if s[0] == sep then [""] + rest
      else [[s[0]] + rest[0]] + rest[1..]
  }

  /** No field of a split holds the separator. */
  lemma {:induction false} SplitFields(s: string, sep: char)
    ensures forall i :: 0 <= i < |Split(s, sep)| ==> sep !in Split(s, sep)[i]
    decreases |s|
  {
    if s != [] {
      SplitFields(s[1..], sep);
      var rest := Split(s[1..], sep);
      if s[0] != sep {
        assert sep !in [s[0]] + rest[0];
        assert forall i :: 1 <= i < |Split(s, sep)| ==> Split(s, sep)[i] == rest[i];
      } else {
        assert forall i :: 1 <= i < |Split(s, sep)| ==> Split(s, sep)[i] == rest[i - 1];
      }
    }
  }

  /** `sep.join(fields)` */
  function Join(fields: seq<string>, sep: char): string {
    if |fields| == 0 then ""
    else if |fields| == 1 then fields[0]
    else fields[0] + [sep] + Join(fields[1..], sep)
  }

  /** Splitting loses nothing: joining the fields back gives the string. */
  lemma {:induction false} SplitJoin(s: string, sep: char)
    ensures Join(Split(s, sep), sep) == s
    decreases |s|
  {
    if s != [] {
      var rest := Split(s[1..], sep);
      SplitJoin(s[1..], sep);
      if s[0] == sep {
        assert Split(s, sep) == [""] + rest;
        assert ([""] + rest)[1..] == rest;
      } else {
        var fields := [[s[0]] + rest[0]] + rest[1..];
        assert Split(s, sep) == fields;
        if |rest| > 1 {
          assert fields[1..] == rest[1..];
        }
      }
    }
  }

  /** A string without the separator is a single field. */
  lemma {:induction false} SplitNoSep(s: string, sep: char)
    requires sep !in s
    ensures Split(s, sep) == [s]
    decreases |s|
  {
    if s != [] {
      assert sep !in s[1..];
      SplitNoSep(s[1..], sep);
      assert [s[0]] + s[1..] == s;
    }
  }

  /** Splitting a string that starts with the separator: an empty first field. */
  lemma SplitConsSep(t: string, sep: char)
    ensures Split([sep] + t, sep) == [""] + Split(t, sep)
  {
    assert ([sep] + t)[1..] == t;
  }

  /** Splitting a string that starts with another character: it joins the first field. */
  lemma SplitConsOther(c: char, t: string, sep: char)
    requires c != sep
    ensures Split([c] + t, sep) == [[c] + Split(t, sep)[0]] + Split(t, sep)[1..]
  {
    assert ([c] + t)[1..] == t;
  }

  /** Splitting at one separator splits the two sides independently. */
  lemma {:induction false} SplitConcat(a: string, b: string, sep: char)
    ensures Split(a + [sep] + b, sep) == Split(a, sep) + Split(b, sep)
    decreases |a|
  {
    if a == [] {
      assert a + [sep] + b == [sep] + b;
      SplitConsSep(b, sep);
    } else {
      SplitConcat(a[1..], b, sep);
      assert [a[0]] + a[1..] == a;
      if a[0] == sep {
        SplitConcatSep(a[1..], b, sep);
      } else {
        SplitConcatOther(a[0], a[1..], b, sep);
      }
    }
  }

  lemma SplitConcatSep(a: string, b: string, sep: char)
    requires Split(a + [sep] + b, sep) == Split(a, sep) + Split(b, sep)
    ensures Split([sep] + a + [sep] + b, sep) == Split([sep] + a, sep) + Split(b, sep)
  {
    assert [sep] + a + [sep] + b == [sep] + (a + [sep] + b);
    SplitConsSep(a + [sep] + b, sep);
    SplitConsSep(a, sep);
    AppendAssoc([""], Split(a, sep), Split(b, sep));
  }

  lemma AppendAssoc<T>(x: seq<T>, y: seq<T>, z: seq<T>)
    ensures x + (y + z) == (x + y) + z
  {
  }

  lemma SplitConcatOther(c: char, a: string, b: string, sep: char)
    requires c != sep
    requires Split(a + [sep] + b, sep) == Split(a, sep) + Split(b, sep)
    ensures Split([c] + a + [sep] + b, sep) == Split([c] + a, sep) + Split(b, sep)
  {
    var t := a + [sep] + b;
    assert [c] + a + [sep] + b == [c] + t;
    SplitConsOther(c, t, sep);
    SplitConsOther(c, a, sep);
    FirstFieldJoin([c], Split(a, sep), Split(b, sep));
  }

  /** Adding to the first field of the left part of a concatenation. */
  lemma FirstFieldJoin(x: string, fa: seq<string>, fb: seq<string>)
    requires |fa| >= 1
    ensures [x + (fa + fb)[0]] + (fa + fb)[1..] == ([x + fa[0]] + fa[1..]) + fb
  {
    assert (fa + fb)[0] == fa[0] && (fa + fb)[1..] == fa[1..] + fb;
  }

  /** A string has a second field exactly when it contains the separator. */
  lemma SplitCount(s: string, sep: char)
    ensures |Split(s, sep)| >= 2 <==> sep in s
  {
    if sep in s {
      var i :| 0 <= i < |s| && s[i] == sep;
      assert s == s[..i] + [sep] + s[i + 1..];
      SplitConcat(s[..i], s[i + 1..], sep);
    } else {
      SplitNoSep(s, sep);
    }
  }

  /** Python's `a <= b` on strings: lexicographic by code point, a prefix first. */
  predicate StrLeq(a: string, b: string)
    decreases |a|
  {
    a == [] || (b != [] && (a[0] < b[0] || (a[0] == b[0] && StrLeq(a[1..], b[1..]))))
  }

  lemma {:induction false} StrLeqTotal(a: string, b: string)
    ensures StrLeq(a, b) || StrLeq(b, a)
    decreases |a|
  {
    if a != [] && b != [] && a[0] == b[0] {
      StrLeqTotal(a[1..], b[1..]);
    }
  }

  predicate Sorted(s: seq<string>) {
    forall i :: 0 < i < |s| ==> StrLeq(s[i - 1], s[i])
  }

  function Insert(x: string, s: seq<string>): (r: seq<string>)
    requires Sorted(s)
    ensures |r| == |s| + 1 && Sorted(r)
    ensures multiset(r) == multiset(s) + multiset{x}
    ensures r[0] == x || (s != [] && r[0] == s[0])
  {
    if s == [] then [x]
    else if StrLeq(x, s[0]) then [x] + s
    else
      StrLeqTotal(x, s[0]);
      assert s == [s[0]] + s[1..];
      [s[0]] + Insert(x, s[1..])
  }

  /** Python's `sorted` on a list of strings: sorted, and a permutation of its input. */
  function Sort(s: seq<string>): (r: seq<string>)
    ensures Sorted(r) && multiset(r) == multiset(s)
  {
    if s == [] then []
    else
      assert s == [s[0]] + s[1..];
      Insert(s[0], Sort(s[1..]))
  }

  /** Sorting an already sorted list changes nothing. */
  lemma {:induction false} SortSorted(s: seq<string>)
    requires Sorted(s)
    ensures Sort(s) == s
  {
    if s != [] {
      assert Sorted(s[1..]);
      SortSorted(s[1..]);
      assert s == [s[0]] + s[1..];
    }
  }

  /** `os.path.join(a, b)` (POSIX): an absolute b replaces a; otherwise one '/' is
      inserted unless a is empty or already ends with one. */
  function PathJoin(a: string, b: string): string {
    if |b| > 0 && b[0] == '/' then b
    else if a == "" || a[|a| - 1] == '/' then a + b
    else a + "/" + b
  }

  /** An absolute second part is the whole path; otherwise the path starts with the
      first part and ends with the second. */
  lemma PathJoinParts(a: string, b: string)
    ensures |b| > 0 && b[0] == '/' ==> PathJoin(a, b) == b
    ensures !(|b| > 0 && b[0] == '/') ==>
      |PathJoin(a, b)| >= |a| + |b| && PathJoin(a, b)[..|a|] == a && PathJoin(a, b)[|PathJoin(a, b)| - |b|..] == b
  {
  }

  predicate EndsWith(s: string, suffix: string) {
    |suffix| <= |s| && s[|s| - |suffix|..] == suffix
  }

  /** `fnmatch` for the patterns the pipeline uses, a '*' followed by a literal tail: the
      name matches when it ends with the tail. */
  predicate GlobMatch(name: string, pattern: string) {
    |pattern| > 0 && pattern[0] == '*' && EndsWith(name, pattern[1..])
  }

  /** Numbers from 100 on take at least three digits. */
  lemma DecimalLength(n: nat)
    requires n >= 100
    ensures |Decimal(n)| >= 3
  {
    assert Decimal(n) == Decimal(n / 10) + [Digit(n % 10)];
    assert Decimal(n / 10) == Decimal(n / 100) + [Digit(n / 10 % 10)];
  }
}

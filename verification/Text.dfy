/**
 The string operations the code takes from Go's strings and strconv packages,
 as functions, with the laws the other modules need.
 */
module Text {
  import opened Wrappers

  predicate Lacks(s: string, c: char) {
    c !in s
  }

  lemma SliceNext<T>(s: seq<T>, n: nat)
    requires n < |s|
    ensures s[..n+1] == s[..n] + [s[n]]
  {}

  lemma AppendAssoc<T>(a: seq<T>, b: seq<T>, c: seq<T>)
    ensures a + b + c == a + (b + c)
  {}

  /** strings.IndexByte */
  function IndexOf(s: string, c: char): (r: int)
    ensures -1 <= r < |s|
    ensures r >= 0 ==> s[r] == c
    ensures forall j :: 0 <= j < (if r < 0 then |s| else r) ==> s[j] != c
  {
    if s == [] then -1
    else if s[0] == c then 0
    else
      var r := IndexOf(s[1..], c);
      assert forall j :: 1 <= j < |s| ==> s[j] == s[1..][j-1];
      if r < 0 then -1 else r + 1
  }

  /** The last position of c, as bytealg.LastIndexByteString gives it. */
  function LastIndexOf(s: string, c: char): (r: int)
    ensures -1 <= r < |s|
    ensures r >= 0 ==> s[r] == c
    ensures forall j :: r < j < |s| ==> s[j] != c
  {
    if s == [] then -1
    else if s[|s|-1] == c then |s| - 1
    else LastIndexOf(s[..|s|-1], c)
  }

  lemma IndexOfIs(before: string, c: char, after: string)
    requires Lacks(before, c)
    ensures IndexOf(before + [c] + after, c) == |before|
  {
    var s := before + [c] + after;
    assert s[|before|] == c && forall j :: 0 <= j < |before| ==> s[j] in before;
  }

  lemma LastIndexOfIs(before: string, c: char, after: string)
    requires Lacks(after, c)
    ensures LastIndexOf(before + [c] + after, c) == |before|
  {
    var s := before + [c] + after;
    assert s[|before|] == c && forall j :: |before| < j < |s| ==> s[j] in after;
  }

  // ----- Splitting -----

  /** strings.Split with a one-character separator. */
  function Split(s: string, sep: char): (parts: seq<string>)
    ensures |parts| >= 1
    decreases |s|
  {
    var i := IndexOf(s, sep);
    if i < 0 then [s] else [s[..i]] + Split(s[i+1..], sep)
  }

  lemma {:induction false} SplitParts(s: string, sep: char, k: nat)
    requires k < |Split(s, sep)|
    ensures Lacks(Split(s, sep)[k], sep)
  {
    if k > 0 {
      SplitParts(s[IndexOf(s, sep)+1..], sep, k - 1);
    }
  }

  /** Lines written one after the other, each with its newline. */
  function Unlines(lines: seq<string>): string {
    if lines == [] then "" else lines[0] + ['\n'] + Unlines(lines[1..])
  }

  lemma SplitFirst(line: string, sep: char, tail: string)
    requires Lacks(line, sep)
    ensures Split(line + [sep] + tail, sep) == [line] + Split(tail, sep)
  {
    var s := line + [sep] + tail;
    assert s[..|line|] == line && s[|line|+1..] == tail;
    IndexOfIs(line, sep, tail);
  }

  lemma {:induction false} SplitUnlines(lines: seq<string>, rest: string)
    requires forall l :: l in lines ==> Lacks(l, '\n')
    ensures Split(Unlines(lines) + rest, '\n') == lines + Split(rest, '\n')
  {
    if lines == [] {
      assert Unlines(lines) + rest == rest;
    } else {
      var first, more := lines[0], lines[1..];
      calc {
        Split(Unlines(lines) + rest, '\n');
        { assert Unlines(lines) + rest == first + ['\n'] + (Unlines(more) + rest); }
        Split(first + ['\n'] + (Unlines(more) + rest), '\n');
        { SplitFirst(first, '\n', Unlines(more) + rest); }
        [first] + Split(Unlines(more) + rest, '\n');
        { SplitUnlines(more, rest); }
        [first] + (more + Split(rest, '\n'));
        { assert lines == [first] + more; }
        lines + Split(rest, '\n');
      }
    }
  }

  /** strings.SplitN(s, sep, 2) when it yields two parts. */
  function Cut(s: string, sep: char): (r: Option<(string, string)>)
    ensures r.None? <==> sep !in s
    ensures r.Some? ==> s == r.value.0 + [sep] + r.value.1 && Lacks(r.value.0, sep)
  {
    var i := IndexOf(s, sep);
    if i < 0 then None else Some((s[..i], s[i+1..]))
  }

  lemma CutIs(key: string, sep: char, value: string)
    requires Lacks(key, sep)
    ensures Cut(key + [sep] + value, sep) == Some((key, value))
  {
    var s := key + [sep] + value;
    assert s[..|key|] == key;
    IndexOfIs(key, sep, value);
  }

  // ----- Decimal numbers -----

  predicate IsDigit(c: char) {
    '0' <= c <= '9'
  }

  function Digits(n: nat): (s: string)
    ensures |s| >= 1 && forall c :: c in s ==> IsDigit(c)
  {
    if n < 10 then ['0' + n as char] else Digits(n / 10) + ['0' + (n % 10) as char]
  }

  /** strconv.Itoa */
  function Itoa(n: int): string {
    if n < 0 then "-" + Digits(-n) else Digits(n)
  }

  function DigitValue(c: char): nat {
    if IsDigit(c) then c as int - '0' as int else 0
  }

  function Value(s: string): nat {
    if s == [] then 0 else 10 * Value(s[..|s|-1]) + DigitValue(s[|s|-1])
  }

  predicate IsNumber(s: string) {
    s != [] && forall c :: c in s ==> IsDigit(c)
  }

  /** An optionally signed decimal number of any size. */
  function ParseInt(s: string): Option<int> {
    if s != [] && s[0] == '-' then
      if IsNumber(s[1..]) then Some(0 - Value(s[1..])) else None
    else
      var d := if s != [] && s[0] == '+' then s[1..] else s;
      if IsNumber(d) then Some(Value(d)) else None
  }

  predicate IsInt64(n: int) {
    -0x8000_0000_0000_0000 <= n < 0x8000_0000_0000_0000
  }

  /** strconv.Atoi on a 64-bit platform: out of range is an error. */
  function Atoi(s: string): (r: Option<int>)
    ensures r.Some? ==> IsInt64(r.value)
  {
    var r := ParseInt(s);
    if r.Some? && IsInt64(r.value) then r else None
  }

  lemma {:induction false} ValueDigits(n: nat)
    ensures Value(Digits(n)) == n
  {
    if n >= 10 {
      ValueDigits(n / 10);
      var s := Digits(n);
      assert s[..|s|-1] == Digits(n / 10);
    }
  }

  lemma ParseItoa(n: int)
    ensures ParseInt(Itoa(n)) == Some(n)
    ensures IsInt64(n) ==> Atoi(Itoa(n)) == Some(n)
  {
    ValueDigits(if n < 0 then -n else n);
    if n < 0 {
      assert Itoa(n)[1..] == Digits(-n);
    } else {
      assert Itoa(n)[0] in Itoa(n);
    }
  }

  lemma ItoaLacks(n: int, c: char)
    requires !IsDigit(c) && c != '-'
    ensures Lacks(Itoa(n), c)
  {}

  // ----- Order -----

  /** Go's string order. */
  predicate Less(a: string, b: string) {
    b != [] && (a == [] || a[0] < b[0] || (a[0] == b[0] && Less(a[1..], b[1..])))
  }

  lemma {:induction false} LessTrans(a: string, b: string, c: string)
    requires Less(a, b) && Less(b, c)
    ensures Less(a, c)
  {
    if a != [] && a[0] == b[0] && b[0] == c[0] {
      LessTrans(a[1..], b[1..], c[1..]);
    }
  }

  lemma {:induction false} LessTotal(a: string, b: string)
    ensures !(Less(a, b) && Less(b, a)) && !Less(a, a)
    ensures a != b ==> Less(a, b) || Less(b, a)
  {
    if a != [] && b != [] {
      LessTotal(a[1..], b[1..]);
      if a[1..] == b[1..] && a[0] == b[0] {
        assert a == [a[0]] + a[1..] && b == [b[0]] + b[1..];
      }
    }
    if a != [] {
      LessTotal(a[1..], a[1..]);
    }
  }

  /** The strings differ at k, and before it they do not. */
  predicate SmallerAt(a: string, b: string, k: nat) {
    k < |a| && k < |b| && (forall i :: 0 <= i < k ==> a[i] == b[i]) && a[k] < b[k]
  }

  lemma SmallerAtCons(c: char, a: string, b: string, k: nat)
    ensures SmallerAt([c] + a, [c] + b, k + 1) <==> SmallerAt(a, b, k)
    ensures !SmallerAt([c] + a, [c] + b, 0)
  {
    var x, y := [c] + a, [c] + b;
    assert (forall i :: 0 <= i < |a| ==> x[i+1] == a[i]) && (forall i :: 0 <= i < |b| ==> y[i+1] == b[i]);
    if SmallerAt(x, y, k + 1) {
      assert forall i :: 0 <= i < k ==> a[i] == x[i+1] == y[i+1] == b[i];
    }
  }

  lemma PrefixCons(c: char, a: string, b: string)
    ensures [c] + a <= [c] + b <==> a <= b
  {
    var x, y := [c] + a, [c] + b;
    assert x[1..] == a && y[1..] == b;
    if a <= b {
      assert y == x + b[|a|..];
    }
    if x <= y {
      assert b == a + y[|x|..];
    }
  }

  /** One string comes before another if it is a proper prefix of it, or has the smaller character where they first
      differ. */
  lemma {:induction false} LessIff(a: string, b: string)
    ensures Less(a, b) <==> (a <= b && a != b) || exists k: nat :: SmallerAt(a, b, k)
  {
    if a != [] && b != [] && a[0] == b[0] {
      LessIff(a[1..], b[1..]);
      assert a == [a[0]] + a[1..] && b == [a[0]] + b[1..];
      PrefixCons(a[0], a[1..], b[1..]);
      if k: nat :| SmallerAt(a[1..], b[1..], k) {
        SmallerAtCons(a[0], a[1..], b[1..], k);
      }
      if k: nat :| SmallerAt(a, b, k) {
        SmallerAtCons(a[0], a[1..], b[1..], if k > 0 then k - 1 else 0);
      }
    } else if a != [] && b != [] && a[0] < b[0] {
      assert SmallerAt(a, b, 0);
    }
  }
}

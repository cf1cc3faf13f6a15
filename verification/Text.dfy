/** Strings as the Go program uses them: the order of `<`, decimal numerals, dotted names. */
module Text {

  datatype Option<+T> = None | Some(value: T)

  // ---------------------------------------------------------------- order

  /** Go's `a < b`.  Go compares bytes; on UTF-8 that is the order of the code points. */
  predicate Less(a: string, b: string) {
    if b == "" then false
    else if a == "" then true
    else if a[0] != b[0] then a[0] < b[0]
    else Less(a[1..], b[1..])
  }

  lemma {:induction false} LessIrreflexive(a: string)
    ensures !Less(a, a)
  {
    if a != "" {
      LessIrreflexive(a[1..]);
    }
  }

  lemma {:induction false} LessTotal(a: string, b: string)
    requires a != b
    ensures Less(a, b) != Less(b, a)
  {
    if a != "" && b != "" && a[0] == b[0] {
      assert a == [a[0]] + a[1..] && b == [b[0]] + b[1..];
      LessTotal(a[1..], b[1..]);
    }
  }

  lemma {:induction false} LessTransitive(a: string, b: string, c: string)
    requires Less(a, b) && Less(b, c)
    ensures Less(a, c)
  {
    if a != "" && a[0] == b[0] && b[0] == c[0] {
      LessTransitive(a[1..], b[1..], c[1..]);
    }
  }

  lemma {:induction false} LessAfterPrefix(p: string, a: string, b: string)
    ensures Less(p + a, p + b) == Less(a, b)
  {
    if p == "" {
      assert p + a == a && p + b == b;
    } else {
      assert (p + a)[1..] == p[1..] + a && (p + b)[1..] == p[1..] + b;
      LessAfterPrefix(p[1..], a, b);
    }
  }

  // ---------------------------------------------------------------- numerals

  const DIGITS := "0123456789"
  const MAX_INT := 0x7fff_ffff_ffff_ffff

  predicate IsDigit(c: char) { '0' <= c <= '9' }

  predicate AllDigits(s: string) { forall i :: 0 <= i < |s| ==> IsDigit(s[i]) }

  /** strconv.Itoa on the non-negative numbers, the only ones the program prints. */
  function Itoa(n: nat): (s: string)
    ensures s != "" && AllDigits(s)
    ensures n > 0 ==> s[0] != '0'
  {
    if n < 10 then [DIGITS[n]] else Itoa(n / 10) + [DIGITS[n % 10]]
  }

  function Value(s: string): nat
    requires AllDigits(s)
  {
    if s == "" then 0 else 10 * Value(s[..|s| - 1]) + (s[|s| - 1] as int - '0' as int)
  }

  /** strconv.Atoi on a run of digits: refuses the empty string and what an int64 cannot hold. */
  function Atoi(s: string): Option<nat>
    requires AllDigits(s)
  {
    if s == "" || Value(s) > MAX_INT then None else Some(Value(s))
  }

  lemma {:induction false} ValueOfItoa(n: nat)
    ensures Value(Itoa(n)) == n
  {
    if n >= 10 {
      ValueOfItoa(n / 10);
      var s := Itoa(n);
      assert s[..|s| - 1] == Itoa(n / 10);
    }
  }

  lemma ItoaInjective(m: nat, n: nat)
    requires Itoa(m) == Itoa(n)
    ensures m == n
  {
    ValueOfItoa(m);
    ValueOfItoa(n);
  }

  lemma {:induction false} ItoaLength(n: nat)
    ensures |Itoa(n)| == 1 <==> n < 10
  {
    if n >= 10 {
      ItoaLength(n / 10);
    }
  }

  /** "1" is the least numeral of a positive number, although "10" < "2". */
  lemma OneIsLeastNumeral(n: nat)
    requires n > 1
    ensures Less("1", Itoa(n))
  {
    var s := Itoa(n);
    if s[0] == '1' {
      ItoaLength(n);
      assert |s| > 1;
      assert Less("1"[1..], s[1..]);
    }
  }

  // ---------------------------------------------------------------- separators

  predicate Lacks(s: string, c: char) { forall i :: 0 <= i < |s| ==> s[i] != c }

  lemma JoinInjective(a: string, b: string, c: string, d: string, sep: char)
    requires a + [sep] + b == c + [sep] + d
    requires Lacks(a, sep) && Lacks(c, sep)
    ensures a == c && b == d
  {
    var l, r := a + [sep] + b, c + [sep] + d;
    assert l[|a|] == sep && r[|c|] == sep;
    assert |a| == |c| by {
      assert forall i :: 0 <= i < |c| ==> r[i] == c[i] != sep;
      assert forall i :: 0 <= i < |a| ==> l[i] == a[i] != sep;
    }
    assert a == l[..|a|] == r[..|c|] == c;
    assert b == l[|a| + 1..] == r[|c| + 1..] == d;
  }

  /** The pieces of s between the separators. */
  function Split(s: string, sep: char): (parts: seq<string>)
    ensures |parts| >= 1
  {
    if s == "" then [""]
    else
      var rest := Split(s[1..], sep);
      if s[0] == sep then [""] + rest else [[s[0]] + rest[0]] + rest[1..]
  }

  lemma {:induction false} SplitPiece(a: string, sep: char)
    requires Lacks(a, sep)
    ensures Split(a, sep) == [a]
  {
    if a != "" {
      SplitPiece(a[1..], sep);
      assert a == [a[0]] + a[1..];
    }
  }

  lemma {:induction false} SplitJoined(a: string, b: string, sep: char)
    requires Lacks(a, sep)
    ensures Split(a + [sep] + b, sep) == [a] + Split(b, sep)
  {
    var s := a + [sep] + b;
    if a == "" {
      assert s[1..] == b;
    } else {
      assert s[1..] == a[1..] + [sep] + b;
      SplitJoined(a[1..], b, sep);
      assert a == [a[0]] + a[1..];
    }
  }
}

/** Splitting and joining text at a separator, and decimal numerals. */
module Text {

  /** The first position of `c`, or the length if there is none. */
  function IndexOf(s: string, c: char): (k: nat)
    ensures k <= |s|
    ensures k < |s| ==> s[k] == c
    ensures forall i :: 0 <= i < k ==> s[i] != c
  {
    if s == "" || s[0] == c then 0 else 1 + IndexOf(s[1..], c)
  }

  /** The fields between separators, empty ones included. */
  function Split(s: string, sep: char): (fields: seq<string>)
    ensures fields != []
  {
    var k := IndexOf(s, sep);
    if k == |s| then [s] else [s[..k]] + Split(s[k + 1..], sep)
  }

  function Join(fields: seq<string>, sep: char): string {
    if fields == [] then ""
    else if |fields| == 1 then fields[0]
    else fields[0] + [sep] + Join(fields[1..], sep)
  }

  lemma SplitField(field: string, rest: string, sep: char)
    requires sep !in field
    ensures Split(field, sep) == [field]
    ensures Split(field + [sep] + rest, sep) == [field] + Split(rest, sep)
  {
    var s := field + [sep] + rest;
    assert IndexOf(field, sep) == |field|;
    assert s[|field|] == sep;
    assert forall i :: 0 <= i < |field| ==> s[i] == field[i] && field[i] in field;
    assert IndexOf(s, sep) == |field|;
    assert s[..|field|] == field && s[|field| + 1..] == rest;
  }

  lemma IndexOfIs(s: string, c: char, k: nat)
    requires k < |s| && s[k] == c && forall i :: 0 <= i < k ==> s[i] != c
    ensures IndexOf(s, c) == k
  {
  }

  lemma FirstFieldStays(a: string, b: string, sep: char)
    requires IndexOf(a, sep) < |a|
    ensures
      var k := IndexOf(a, sep);
      Split(a + [sep] + b, sep) == [a[..k]] + Split(a[k + 1..] + [sep] + b, sep)
  {
    var k, s := IndexOf(a, sep), a + [sep] + b;
    IndexOfIs(s, sep, k);
    TailOfConcat(a, [sep], b, k);
    SplitUnfolds(s, sep);
  }

  lemma SplitUnfolds(s: string, sep: char)
    requires IndexOf(s, sep) < |s|
    ensures Split(s, sep) == [s[..IndexOf(s, sep)]] + Split(s[IndexOf(s, sep) + 1..], sep)
  {
  }

  lemma TailOfConcat(a: string, middle: string, b: string, k: nat)
    requires k < |a|
    ensures (a + middle + b)[..k] == a[..k] && (a + middle + b)[k + 1..] == a[k + 1..] + middle + b
  {
  }

  lemma ConcatAssociates<T>(x: seq<T>, y: seq<T>, z: seq<T>)
    ensures x + (y + z) == (x + y) + z
  {
  }

  /** Splitting distributes over joining two texts with a separator. */
  lemma {:induction false} SplitConcat(a: string, b: string, sep: char)
    ensures Split(a + [sep] + b, sep) == Split(a, sep) + Split(b, sep)
    decreases |a|
  {
    var k := IndexOf(a, sep);
    if k == |a| {
      SplitField(a, b, sep);
    } else {
      SplitUnfolds(a, sep);
      FirstFieldStays(a, b, sep);
      SplitConcat(a[k + 1..], b, sep);
      ConcatAssociates([a[..k]], Split(a[k + 1..], sep), Split(b, sep));
    }
  }

  lemma {:induction false} SplitJoin(fields: seq<string>, sep: char)
    requires fields != [] && forall f <- fields :: sep !in f
    ensures Split(Join(fields, sep), sep) == fields
    decreases |fields|
  {
    if |fields| == 1 {
      SplitField(fields[0], "", sep);
    } else {
      SplitJoin(fields[1..], sep);
      SplitField(fields[0], Join(fields[1..], sep), sep);
    }
  }

  lemma {:induction false} JoinSplit(s: string, sep: char)
    ensures Join(Split(s, sep), sep) == s
    decreases |s|
  {
    var k := IndexOf(s, sep);
    if k == |s| {
    } else {
      JoinSplit(s[k + 1..], sep);
      assert Split(s, sep)[1..] == Split(s[k + 1..], sep);
      assert s == s[..k] + [sep] + s[k + 1..];
    }
  }

  // ----- Decimal numerals -----

  predicate IsDigit(c: char) {
    '0' <= c <= '9'
  }

  predicate AllDigits(s: string) {
    forall i :: 0 <= i < |s| ==> IsDigit(s[i])
  }

  function Value(s: string): nat
    requires AllDigits(s)
  {
    if s == "" then 0 else 10 * Value(s[..|s| - 1]) + (s[|s| - 1] as nat - '0' as nat)
  }

  function Decimal(n: nat): (s: string)
    ensures s != "" && AllDigits(s)
  {
    var last := [('0' as nat + n % 10) as char];
    if n < 10 then last else Decimal(n / 10) + last
  }

  lemma {:induction false} DecimalValue(n: nat)
    ensures Value(Decimal(n)) == n
    ensures n < 1000 ==> |Decimal(n)| <= 3
    ensures n > 0 ==> Decimal(n)[0] != '0'
    decreases n
  {
    if n < 10 {
    } else {
      DecimalValue(n / 10);
      var s := Decimal(n);
      assert s[..|s| - 1] == Decimal(n / 10);
      if n < 1000 {
        assert n / 10 / 10 < 10;
        assert |Decimal(n / 10 / 10)| == 1;
      }
    }
  }

  /** A digit more is ten times the value and the digit. */
  lemma ValueAppend(s: string, k: nat)
    requires AllDigits(s) && k < 10
    ensures AllDigits(s + ["0123456789"[k]]) && Value(s + ["0123456789"[k]]) == 10 * Value(s) + k
  {
    var t := s + ["0123456789"[k]];
    assert t[..|t| - 1] == s;
  }

  /** A numeral without a leading zero is the decimal form of its value. */
  lemma {:induction false} DecimalOfValue(s: string)
    requires s != "" && AllDigits(s) && (|s| > 1 ==> s[0] != '0')
    ensures Decimal(Value(s)) == s
    ensures |s| > 1 ==> Value(s) >= 10
    decreases |s|
  {
    var n := |s| - 1;
    assert s == s[..n] + [s[n]];
    if n == 0 {
      assert Value(s[..0]) == 0;
    } else {
      DecimalOfValue(s[..n]);
      assert Value(s[..n]) >= 1;
      assert Value(s) / 10 == Value(s[..n]);
    }
  }
}

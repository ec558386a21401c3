/** Byte-wise string order, sorting, and the fixed-width decimal stamps used in file names. */
module Text {

  /** The order of Go's `<` on strings: the first difference decides, a proper prefix is smaller. */
  predicate Less(a: string, b: string) {
    if b == "" then false
    else if a == "" then true
    else a[0] < b[0] || (a[0] == b[0] && Less(a[1..], b[1..]))
  }

  lemma {:induction false} LessIrreflexive(a: string)
    ensures !Less(a, a)
  {
    if a != "" { LessIrreflexive(a[1..]); }
  }

  lemma {:induction false} LessTransitive(a: string, b: string, c: string)
    requires Less(a, b) && Less(b, c)
    ensures Less(a, c)
  {
    if a != "" && a[0] == b[0] && b[0] == c[0] {
      LessTransitive(a[1..], b[1..], c[1..]);
    }
  }

  lemma {:induction false} LessTotal(a: string, b: string)
    ensures a == b || Less(a, b) || Less(b, a)
  {
    if a != "" && b != "" && a[0] == b[0] {
      LessTotal(a[1..], b[1..]);
      assert a == [a[0]] + a[1..] && b == [b[0]] + b[1..];
    }
  }

  /** A common prefix does not influence the order. */
  lemma {:induction false} LessAfterPrefix(p: string, a: string, b: string)
    ensures Less(p + a, p + b) <==> Less(a, b)
  {
    if p == "" {
      assert p + a == a && p + b == b;
    } else {
      assert (p + a)[1..] == p[1..] + a && (p + b)[1..] == p[1..] + b;
      LessAfterPrefix(p[1..], a, b);
    }
  }

  /** Appending one character to equally long strings: the earlier characters decide first. */
  lemma {:induction false} LessSnoc(a: string, c: char, b: string, d: char)
    requires |a| == |b|
    ensures Less(a + [c], b + [d]) <==> Less(a, b) || (a == b && c < d)
  {
    if a == "" {
      assert a + [c] == [c] && b + [d] == [d];
    } else {
      assert (a + [c])[1..] == a[1..] + [c] && (b + [d])[1..] == b[1..] + [d];
      LessSnoc(a[1..], c, b[1..], d);
      assert a == [a[0]] + a[1..] && b == [b[0]] + b[1..];
    }
  }

  // ----- sorting -----

  ghost predicate Sorted(s: seq<string>) {
    forall i, j | 0 <= i < j < |s| :: s[i] == s[j] || Less(s[i], s[j])
  }

  ghost predicate Ascending(s: seq<string>) {
    forall i, j | 0 <= i < j < |s| :: Less(s[i], s[j])
  }

  ghost predicate Distinct<T>(s: seq<T>) {
    forall i, j | 0 <= i < j < |s| :: s[i] != s[j]
  }

  function Insert(x: string, s: seq<string>): (r: seq<string>)
    ensures multiset(r) == multiset(s) + multiset{x}
    ensures |r| == |s| + 1
  {
    if s == [] || Less(x, s[0]) then [x] + s
    else
      assert s == [s[0]] + s[1..];
      [s[0]] + Insert(x, s[1..])
  }

  /** `sort.Strings`. */
  function Sort(s: seq<string>): (r: seq<string>)
    ensures multiset(r) == multiset(s)
    ensures |r| == |s|
  {
    if s == [] then []
    else
      assert s == [s[0]] + s[1..];
      Insert(s[0], Sort(s[1..]))
  }

  lemma {:induction false} InsertSorted(x: string, s: seq<string>)
    requires Sorted(s)
    ensures Sorted(Insert(x, s))
  {
    if s == [] {
    } else if Less(x, s[0]) {
      forall j | 0 <= j < |s| ensures Less(x, s[j]) {
        if j > 0 && s[0] != s[j] { LessTransitive(x, s[0], s[j]); }
      }
    } else {
      InsertSorted(x, s[1..]);
      var r := Insert(x, s[1..]);
      LessTotal(x, s[0]);
      forall j | 0 <= j < |r| ensures s[0] == r[j] || Less(s[0], r[j]) {
        assert r[j] in multiset(r);
        assert r[j] == x || r[j] in s[1..];
      }
    }
  }

  lemma {:induction false} SortSorted(s: seq<string>)
    ensures Sorted(Sort(s))
  {
    if s != [] {
      SortSorted(s[1..]);
      InsertSorted(s[0], Sort(s[1..]));
    }
  }

  lemma {:induction false} SortMembers(s: seq<string>)
    ensures forall x :: x in Sort(s) <==> x in s
  {
    forall x ensures x in Sort(s) <==> x in s {
      assert x in Sort(s) <==> x in multiset(Sort(s));
      assert x in s <==> x in multiset(s);
    }
  }

  lemma DistinctMultiset<T>(s: seq<T>)
    ensures Distinct(s) <==> forall x :: multiset(s)[x] <= 1
    decreases |s|
  {
    if s != [] {
      var n := |s| - 1;
      var t := s[..n];
      assert s == t + [s[n]];
      DistinctMultiset(t);
      if Distinct(s) {
        assert s[n] !in t;
        forall x ensures multiset(s)[x] <= 1 {}
      } else {
        var i, j :| 0 <= i < j < |s| && s[i] == s[j];
        if j < n {
          assert !Distinct(t) by { assert t[i] == t[j]; }
          var x :| multiset(t)[x] > 1;
          assert multiset(s)[x] > 1;
        } else {
          assert s[n] in t by { assert t[i] == s[n]; }
          assert multiset(s)[s[n]] > 1;
        }
      }
    }
  }

  /** Without duplicates the sorted order is strict: no element precedes itself. */
  lemma {:induction false} SortAscending(s: seq<string>)
    requires Distinct(s)
    ensures Ascending(Sort(s)) && Distinct(Sort(s))
  {
    SortSorted(s);
    DistinctMultiset(s);
    DistinctMultiset(Sort(s));
  }

  // ----- fixed-width decimals -----

  function Digit(n: nat): char
    requires n < 10
  {
    "0123456789"[n]
  }

  function Pow10(w: nat): (r: nat)
    ensures r > 0
  {
    if w == 0 then 1 else 10 * Pow10(w - 1)
  }

  /** `fmt.Sprintf("%0wd", n)` for a number that fits. */
  function Decimal(n: nat, w: nat): (r: string)
    ensures |r| == w
    ensures forall c | c in r :: '0' <= c <= '9'
    decreases w
  {
    if w == 0 then "" else Decimal(n / 10, w - 1) + [Digit(n % 10)]
  }

  /** Zero-padded decimals order like the numbers they print. */
  lemma {:induction false} DecimalOrder(n: nat, m: nat, w: nat)
    requires n < Pow10(w) && m < Pow10(w)
    ensures Less(Decimal(n, w), Decimal(m, w)) <==> n < m
    ensures Decimal(n, w) == Decimal(m, w) <==> n == m
    decreases w
  {
    if w > 0 {
      DecimalOrder(n / 10, m / 10, w - 1);
      var a, b := Decimal(n / 10, w - 1), Decimal(m / 10, w - 1);
      var c, d := Digit(n % 10), Digit(m % 10);
      LessSnoc(a, c, b, d);
      assert c < d <==> n % 10 < m % 10;
      assert c == d <==> n % 10 == m % 10;
      assert (a + [c])[..w - 1] == a && (b + [d])[..w - 1] == b;
      assert (a + [c])[w - 1] == c && (b + [d])[w - 1] == d;
    }
  }
}

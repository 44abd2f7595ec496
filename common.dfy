/** Failure-compatible wrappers used across the pipeline model. */
module Wrappers {
  datatype Option<+T> = None | Some(value: T)

  /** The outcome of a Python call that either returns a value or raises. */
  datatype Result<+T, +E> = Success(value: T) | Failure(error: E)
}

/** String helpers standing for Python's str(int), f"{n:02d}", str.join and sorted(). */
module Text {

  predicate IsDigit(c: char) { '0' <= c <= '9' }

  function DigitChar(d: nat): (c: char)
    requires d < 10
    ensures IsDigit(c)
  {
    (('0' as int) + d) as char
  }

  predicate AllDigits(s: string)
  {
    forall i :: 0 <= i < |s| ==> IsDigit(s[i])
  }

  function DigitValue(c: char): nat
  {
    if IsDigit(c) then c as int - '0' as int else 0
  }

  /** Python's str(n) for a non-negative int: its decimal digits, no leading zero. */
  function Digits(n: nat): (s: string)
    ensures 1 <= |s|
    ensures forall i :: 0 <= i < |s| ==> IsDigit(s[i])
    decreases n
  {
    if n < 10 then [DigitChar(n)] else Digits(n / 10) + [DigitChar(n % 10)]
  }

  /** The number a string of decimal digits denotes (the inverse of Digits). */
  function Value(s: string): nat
  {
    if s == [] then 0 else Value(s[..|s| - 1]) * 10 + DigitValue(s[|s| - 1])
  }

  lemma {:induction false} ValueOfDigits(n: nat)
    ensures Value(Digits(n)) == n
    decreases n
  {
    if n >= 10 {
      var s := Digits(n);
      assert s[..|s| - 1] == Digits(n / 10);
      ValueOfDigits(n / 10);
    }
  }

  /** Distinct numbers print differently. */
  lemma DigitsInjective(m: nat, n: nat)
    requires m != n
    ensures Digits(m) != Digits(n)
  {
    ValueOfDigits(m);
    ValueOfDigits(n);
  }

  /** Python's f"{n:02d}" for a non-negative int: at least two digits, zero-padded. */
  function Pad2(n: nat): (s: string)
    ensures Value(s) == n
    ensures n < 100 ==> |s| == 2
    ensures 2 <= |s|
    ensures forall i :: 0 <= i < |s| ==> IsDigit(s[i])
  {
    if n < 10 then
      assert ['0', DigitChar(n)][..1] == ['0'] && ['0'][..0] == [];
      ['0', DigitChar(n)]
    else
      ValueOfDigits(n);
      Digits(n)
  }

  /** Python's "".join(parts). */
  function Concat(parts: seq<string>): string
  {
    if parts == [] then "" else parts[0] + Concat(parts[1..])
  }

  lemma {:induction false} ConcatAppend(a: seq<string>, b: seq<string>)
    ensures Concat(a + b) == Concat(a) + Concat(b)
    decreases |a|
  {
    if a != [] {
      assert (a + b)[1..] == a[1..] + b;
      ConcatAppend(a[1..], b);
    } else {
      assert a + b == b;
    }
  }

  /** Python's sep.join(parts). */
  function Join(sep: string, parts: seq<string>): string
  {
    if parts == [] then ""
    else if |parts| == 1 then parts[0]
    else parts[0] + sep + Join(sep, parts[1..])
  }

  /** Python's ordering of strings: code point by code point, a proper prefix first. */
  predicate LexLe(a: string, b: string)
  {
    a == [] || (b != [] && (a[0] < b[0] || (a[0] == b[0] && LexLe(a[1..], b[1..]))))
  }

  lemma {:induction false} LexLeTotal(a: string, b: string)
    ensures LexLe(a, b) || LexLe(b, a)
  {
    if a != [] && b != [] && a[0] == b[0] {
      LexLeTotal(a[1..], b[1..]);
    }
  }

  lemma {:induction false} LexLeTransitive(a: string, b: string, c: string)
    requires LexLe(a, b) && LexLe(b, c)
    ensures LexLe(a, c)
  {
    if a != [] && b != [] && c != [] && a[0] == b[0] == c[0] {
      LexLeTransitive(a[1..], b[1..], c[1..]);
    }
  }

  predicate Sorted(s: seq<string>)
  {
    forall i, j :: 0 <= i < j < |s| ==> LexLe(s[i], s[j])
  }

  /** Insert x before the first element it does not follow. */
  function Insert(x: string, s: seq<string>): (r: seq<string>)
    ensures multiset(r) == multiset(s) + multiset{x}
    ensures |r| == |s| + 1
  {
    if s == [] || LexLe(x, s[0]) then [x] + s
    else
      assert s == [s[0]] + s[1..];
      [s[0]] + Insert(x, s[1..])
  }

  /** A string no greater than every element of a sorted list can go in front of it. */
  lemma SortedCons(y: string, t: seq<string>)
    requires Sorted(t)
    requires forall k :: 0 <= k < |t| ==> LexLe(y, t[k])
    ensures Sorted([y] + t)
  {
    var r := [y] + t;
    forall i, j | 0 <= i < j < |r| ensures LexLe(r[i], r[j]) {
      assert r[j] == t[j - 1];
      if i > 0 {
        assert r[i] == t[i - 1];
      }
    }
  }

  /** A lower bound of x and of every element of s bounds every element of Insert(x, s). */
  lemma InsertBound(y: string, x: string, s: seq<string>)
    requires LexLe(y, x)
    requires forall k :: 0 <= k < |s| ==> LexLe(y, s[k])
    ensures forall k :: 0 <= k < |Insert(x, s)| ==> LexLe(y, Insert(x, s)[k])
  {
    var r := Insert(x, s);
    forall k | 0 <= k < |r| ensures LexLe(y, r[k]) {
      assert r[k] in multiset(r);
      if r[k] != x {
        assert r[k] in multiset(s);
        var m :| 0 <= m < |s| && s[m] == r[k];
      }
    }
  }

  lemma {:induction false} InsertSorted(x: string, s: seq<string>)
    requires Sorted(s)
    ensures Sorted(Insert(x, s))
    decreases |s|
  {
    if s == [] {
    } else if LexLe(x, s[0]) {
      forall k | 0 <= k < |s| ensures LexLe(x, s[k]) {
        if k > 0 {
          LexLeTransitive(x, s[0], s[k]);
        }
      }
      SortedCons(x, s);
    } else {
      var tail := s[1..];
      LexLeTotal(x, s[0]);
      assert Sorted(tail);
      InsertSorted(x, tail);
      InsertBound(s[0], x, tail);
      SortedCons(s[0], Insert(x, tail));
    }
  }

  lemma {:induction false} LexLeAntisymmetric(a: string, b: string)
    requires LexLe(a, b) && LexLe(b, a)
    ensures a == b
  {
    if a != [] && b != [] {
      LexLeAntisymmetric(a[1..], b[1..]);
      assert a == [a[0]] + a[1..] && b == [b[0]] + b[1..];
    }
  }

  /** The first element of a sorted list is no greater than any of its elements. */
  lemma SortedHeadLeast(s: seq<string>, x: string)
    requires Sorted(s) && x in multiset(s)
    ensures s != [] && LexLe(s[0], x)
  {
    var k :| 0 <= k < |s| && s[k] == x;
    if k == 0 {
      LexLeReflexive(x);
    }
  }

  lemma {:induction false} LexLeReflexive(a: string)
    ensures LexLe(a, a)
  {
    if a != [] {
      LexLeReflexive(a[1..]);
    }
  }

  /** Two sorted lists with the same elements start with the same element. */
  lemma SortedHeadsEqual(a: seq<string>, b: seq<string>)
    requires Sorted(a) && Sorted(b) && multiset(a) == multiset(b) && a != []
    ensures b != [] && a[0] == b[0]
  {
    assert a[0] in multiset(a);
    SortedHeadLeast(b, a[0]);
    assert b[0] in multiset(b);
    SortedHeadLeast(a, b[0]);
    LexLeAntisymmetric(a[0], b[0]);
  }

  /** Lists with the same elements and the same first element have the same remaining elements. */
  lemma SameTails(a: seq<string>, b: seq<string>)
    requires a != [] && b != [] && a[0] == b[0] && multiset(a) == multiset(b)
    ensures multiset(a[1..]) == multiset(b[1..])
  {
    assert a == [a[0]] + a[1..];
    assert b == [b[0]] + b[1..];
    assert multiset(a) == multiset([a[0]]) + multiset(a[1..]);
    assert multiset(b) == multiset([b[0]]) + multiset(b[1..]);
    assert multiset(a[1..]) == multiset(a) - multiset([a[0]]);
    assert multiset(b[1..]) == multiset(b) - multiset([b[0]]);
  }

  /** A list of strings has exactly one sorted ordering: any two sorted permutations agree. */
  lemma {:induction false} SortedUnique(a: seq<string>, b: seq<string>)
    requires Sorted(a) && Sorted(b) && multiset(a) == multiset(b)
    ensures a == b
    decreases |a|
  {
    if a != [] {
      SortedHeadsEqual(a, b);
      SameTails(a, b);
      SortedUnique(a[1..], b[1..]);
      assert a == [a[0]] + a[1..] && b == [b[0]] + b[1..];
    } else {
      assert |b| == |multiset(b)| == 0;
    }
  }

  /** Python's sorted() on a list of strings (insertion sort; the order is the same). */
  function SortStrings(s: seq<string>): (r: seq<string>)
    ensures multiset(r) == multiset(s)
    ensures |r| == |s|
  {
    if s == [] then []
    else
      assert s == [s[0]] + s[1..];
      Insert(s[0], SortStrings(s[1..]))
  }

  lemma {:induction false} SortStringsSorted(s: seq<string>)
    ensures Sorted(SortStrings(s))
  {
    if s != [] {
      SortStringsSorted(s[1..]);
      InsertSorted(s[0], SortStrings(s[1..]));
    }
  }
}

/** Python's float floor division and remainder by the constants 60 and 3600. */
module Clock {

  /** x // 60 for a float x. */
  function Div60(x: real): int
  {
    (x / 60.0).Floor
  }

  /** x % 60 for a float x: never negative, as in Python. */
  function Mod60(x: real): (r: real)
    ensures 0.0 <= r < 60.0
  {
    x - 60.0 * Div60(x) as real
  }

  /** x // 3600 for a float x. */
  function Div3600(x: real): int
  {
    (x / 3600.0).Floor
  }

  /** x % 3600 for a float x: never negative, as in Python. */
  function Mod3600(x: real): (r: real)
    ensures 0.0 <= r < 3600.0
  {
    x - 3600.0 * Div3600(x) as real
  }

  /** Python's int(x) on a float: truncation toward zero. */
  function Trunc(x: real): int
  {
    if x >= 0.0 then x.Floor else -((-x).Floor)
  }

  /** floor(x / 60) is floor(x) // 60. */
  lemma Div60OfFloor(x: real)
    ensures Div60(x) == x.Floor / 60
  {
    var f := x.Floor;
    var q := f / 60;
    assert 60 * q <= f < 60 * q + 60;
    assert (60 * q) as real <= x < (60 * q + 60) as real;
  }

  /** floor(x / 3600) is floor(x) // 3600. */
  lemma Div3600OfFloor(x: real)
    ensures Div3600(x) == x.Floor / 3600
  {
    var f := x.Floor;
    var q := f / 3600;
    assert 3600 * q <= f < 3600 * q + 3600;
    assert (3600 * q) as real <= x < (3600 * q + 3600) as real;
  }

  /** Minutes and seconds of a duration split floor(x); seconds stay below 60. */
  lemma MinutesSeconds(x: real)
    ensures var m := Div60(x); var s := Mod60(x).Floor;
      0 <= s < 60 && m * 60 + s == x.Floor
  {
    Div60OfFloor(x);
    var f := x.Floor;
    var m := Div60(x);
    assert (f - 60 * m) as real <= Mod60(x) < (f - 60 * m + 1) as real;
  }

  /** Hours, minutes within the hour and seconds within the minute split floor(x). */
  lemma HoursMinutesSeconds(x: real)
    ensures var h := Div3600(x);
      var m := Div60(Mod3600(x));
      var s := Mod60(x).Floor;
      0 <= m < 60 && 0 <= s < 60 && h * 3600 + m * 60 + s == x.Floor
      && (x >= 0.0 ==> h >= 0)
  {
    Div3600OfFloor(x);
    var f := x.Floor;
    var h := Div3600(x);
    var rest := Mod3600(x);
    assert rest.Floor == f - 3600 * h by {
      assert (f - 3600 * h) as real <= rest < (f - 3600 * h + 1) as real;
    }
    Div60OfFloor(rest);
    MinutesSeconds(x);
  }
}

/** Polling a remote job until it reports a terminal status. */
module Polling {

  /** The index of the first status in stops, or |statuses| when there is none. */
  function FirstIn<T(==)>(statuses: seq<T>, stops: set<T>): (k: nat)
    ensures k <= |statuses|
    ensures forall j :: 0 <= j < k ==> statuses[j] !in stops
    ensures k < |statuses| ==> statuses[k] in stops
  {
    if statuses == [] then 0
    else if statuses[0] in stops then 0
    else 1 + FirstIn(statuses[1..], stops)
  }

  predicate Reaches<T(==)>(statuses: seq<T>, stops: set<T>)
  {
    exists j :: 0 <= j < |statuses| && statuses[j] in stops
  }

  /** When some status stops the poll, the first such status lies within the sequence. */
  lemma ReachesFirstIn<T>(statuses: seq<T>, stops: set<T>)
    requires Reaches(statuses, stops)
    ensures FirstIn(statuses, stops) < |statuses|
  {
    var j :| 0 <= j < |statuses| && statuses[j] in stops;
  }
}

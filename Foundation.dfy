// Shared building blocks: optional values, instants, and the LINQ-style
// sequence operations (Where, OrderBy, Distinct) the application relies on.

module Wrappers {
  datatype Option<+T> = None | Some(value: T) {
    /** The value when present, otherwise `default` (C#'s `??`). */
    function GetOr(default: T): T {
      match this
      case Some(v) => v
      case None => default
    }
  }

  datatype Result<+T, +E> = Ok(value: T) | Err(error: E)
}

/** Instants are whole seconds since the start of the calendar (`DateTime.MinValue`).
    .NET `DateTime` addition is naive (no time zones, no daylight saving), so
    adding minutes or days is plain integer addition. */
module Time {
  type Instant = int

  const SecondsPerMinute: int := 60
  const SecondsPerHour: int := 3600
  const SecondsPerDay: int := 86400

  /** `DateTime.MinValue` and `DateTime.MaxValue`, truncated to whole seconds. */
  const MinInstant: Instant := 0
  const MaxInstant: Instant := 315537897599

  function AddMinutes(t: Instant, minutes: int): Instant { t + minutes * SecondsPerMinute }
  function AddDays(t: Instant, days: int): Instant { t + days * SecondsPerDay }

  /** `DateTime.Date`: midnight of the day holding `t`. */
  function Date(t: Instant): (d: Instant)
    ensures d <= t < d + SecondsPerDay
    ensures d % SecondsPerDay == 0
  {
    t - t % SecondsPerDay
  }

  /** `DateTime.TimeOfDay`, in seconds. */
  function TimeOfDay(t: Instant): (s: int)
    ensures 0 <= s < SecondsPerDay
    ensures Date(t) + s == t
  {
    t % SecondsPerDay
  }

  /** Two instants fall on the same calendar day exactly when their `Date`s agree. */
  lemma SameDayWindow(day: Instant, t: Instant)
    requires day % SecondsPerDay == 0
    ensures Date(t) == day <==> day <= t < day + SecondsPerDay
  {
    if day <= t < day + SecondsPerDay {
      var k := day / SecondsPerDay;
      assert day == k * SecondsPerDay;
      assert t == k * SecondsPerDay + (t - day) && 0 <= t - day < SecondsPerDay;
      assert t % SecondsPerDay == t - day;
    }
  }

  /** The last second of the day starting at midnight `d`. */
  function EndOfDay(d: Instant): Instant { d + SecondsPerDay - 1 }

  /** Two midnights less than a day apart in the given order are in that order. */
  lemma MidnightOrder(a: Instant, b: Instant)
    requires a % SecondsPerDay == 0 && b % SecondsPerDay == 0 && a < b + SecondsPerDay
    ensures a <= b
  {
    var i, j := a / SecondsPerDay, b / SecondsPerDay;
    assert a == i * SecondsPerDay && b == j * SecondsPerDay;
  }

  /** An instant is at or before the end of a day exactly when its date is not later. */
  lemma UpToEndOfDay(d: Instant, t: Instant)
    requires d % SecondsPerDay == 0
    ensures t <= EndOfDay(d) <==> Date(t) <= d
  {
    if t <= EndOfDay(d) {
      MidnightOrder(Date(t), d);
    }
  }

  /** A date prompt's answer: left empty, a date that parses, or text that does not. */
  datatype DateInput = Empty | Entered(date: Instant) | Malformed

  /** An inclusive range of instants, as the view-models' `GetDateRange` returns. */
  datatype DateRange = DateRange(start: Instant, end: Instant)

  predicate Within(t: Instant, r: DateRange) { r.start <= t <= r.end }

  /** `(DateTime.MinValue, DateTime.MaxValue)`: every representable instant is in it. */
  const FullRange: DateRange := DateRange(MinInstant, MaxInstant)
}

module Sequences {
  /** LINQ `Where`: the elements of `s` satisfying `p`, in their original order.
      Defined from the back so that a loop walking `s` left to right extends it one step at a time. */
  function Filter<T>(s: seq<T>, p: T -> bool): (r: seq<T>)
    ensures |r| <= |s|
    ensures forall x :: x in r ==> x in s && p(x)
    ensures forall x :: x in s && p(x) ==> x in r
    decreases |s|
  {
    if s == [] then []
    else
      var init := Filter(s[..|s| - 1], p);
      assert s == s[..|s| - 1] + [s[|s| - 1]];
      if p(s[|s| - 1]) then init + [s[|s| - 1]] else init
  }

  /** Filtering one more element of a prefix. */
  lemma FilterSnoc<T>(s: seq<T>, i: nat, p: T -> bool)
    requires i < |s|
    ensures Filter(s[..i + 1], p) == Filter(s[..i], p) + (if p(s[i]) then [s[i]] else [])
  {
    assert s[..i + 1][..i] == s[..i];
  }

  /** `Where` distributes over concatenation. */
  lemma {:induction false} FilterAppend<T>(a: seq<T>, b: seq<T>, p: T -> bool)
    ensures Filter(a + b, p) == Filter(a, p) + Filter(b, p)
    decreases |b|
  {
    if b == [] {
      assert a + b == a;
    } else {
      var b' := b[..|b| - 1];
      assert (a + b)[..|a + b| - 1] == a + b';
      FilterAppend(a, b', p);
    }
  }

  /** Every element already satisfies `p`: `Where` keeps the whole sequence. */
  lemma {:induction false} FilterAll<T>(s: seq<T>, p: T -> bool)
    requires forall x :: x in s ==> p(x)
    ensures Filter(s, p) == s
    decreases |s|
  {
    if s != [] {
      assert s == s[..|s| - 1] + [s[|s| - 1]];
      FilterAll(s[..|s| - 1], p);
    }
  }

  /** No element satisfies `p`: `Where` keeps nothing. */
  lemma {:induction false} FilterNone<T>(s: seq<T>, p: T -> bool)
    requires forall x :: x in s ==> !p(x)
    ensures Filter(s, p) == []
    decreases |s|
  {
    if s != [] {
      assert s == s[..|s| - 1] + [s[|s| - 1]];
      FilterNone(s[..|s| - 1], p);
    }
  }

  /** Filtering by a weaker predicate first changes nothing: `Where(p).Where(q)` is
      `Where(q)` whenever `q` implies `p`. */
  lemma {:induction false} FilterNarrow<T>(s: seq<T>, p: T -> bool, q: T -> bool)
    requires forall x :: q(x) ==> p(x)
    ensures Filter(Filter(s, p), q) == Filter(s, q)
    decreases |s|
  {
    if s != [] {
      var init, last := s[..|s| - 1], s[|s| - 1];
      FilterNarrow(init, p, q);
      var tail := if p(last) then [last] else [];
      assert Filter(s, p) == Filter(init, p) + tail;
      FilterAppend(Filter(init, p), tail, q);
      if p(last) {
        assert tail[..0] == [];
      }
    }
  }

  /** `Where(p).Where(q)` is a single `Where` by the conjunction `pq`. */
  lemma {:induction false} FilterAnd<T>(s: seq<T>, p: T -> bool, q: T -> bool, pq: T -> bool)
    requires forall x :: pq(x) == (p(x) && q(x))
    ensures Filter(Filter(s, p), q) == Filter(s, pq)
    decreases |s|
  {
    if s != [] {
      var init, last := s[..|s| - 1], s[|s| - 1];
      FilterAnd(init, p, q, pq);
      var tail := if p(last) then [last] else [];
      assert Filter(s, p) == Filter(init, p) + tail;
      FilterAppend(Filter(init, p), tail, q);
      if p(last) {
        assert tail[..0] == [];
      }
    }
  }

  /** `Where` keeps every occurrence of an element satisfying `p` and none of the others. */
  lemma {:induction false} FilterCount<T>(s: seq<T>, p: T -> bool)
    ensures forall x :: multiset(Filter(s, p))[x] == if p(x) then multiset(s)[x] else 0
    decreases |s|
  {
    if s != [] {
      var init, last := s[..|s| - 1], s[|s| - 1];
      FilterCount(init, p);
      assert s == init + [last];
      assert multiset(s) == multiset(init) + multiset{last};
    }
  }

  /** The loop behind `Where(p).ToList()` and behind removing every element that
      fails `p` one by one. */
  method Retain<T>(s: seq<T>, p: T -> bool) returns (r: seq<T>)
    ensures r == Filter(s, p)
  {
    r := [];
    var i := 0;
    while i < |s|
      invariant 0 <= i <= |s|
      invariant r == Filter(s[..i], p)
    {
      FilterSnoc(s, i, p);
      if p(s[i]) {
        r := r + [s[i]];
      }
      i := i + 1;
    }
    assert s[..|s|] == s;
  }

  /** `List.Remove(x)`: drops the first occurrence of `x`, if any. */
  function RemoveFirst<T(==)>(s: seq<T>, x: T): (r: seq<T>)
    ensures x in s ==> |r| == |s| - 1 && multiset(r) == multiset(s) - multiset{x}
    ensures x !in s ==> r == s
  {
    if s == [] then []
    else if s[0] == x then
      assert s == [s[0]] + s[1..];
      s[1..]
    else
      assert s == [s[0]] + s[1..];
      [s[0]] + RemoveFirst(s[1..], x)
  }

  /** Filtering twice with the same predicate changes nothing more. */
  lemma FilterIdempotent<T>(s: seq<T>, p: T -> bool)
    ensures Filter(Filter(s, p), p) == Filter(s, p)
  {
    FilterAll(Filter(s, p), p);
  }

  // ---------------------------------------------------------------------------
  // LINQ `OrderBy(key)` (stable) as an insertion sort. `OrderByDescending(key)`
  // is the same sort on the negated key.

  ghost predicate SortedByKey<T>(s: seq<T>, key: T -> int) {
    forall i, j :: 0 <= i < j < |s| ==> key(s[i]) <= key(s[j])
  }

  /** Inserts `x` in front of the first element whose key is not smaller. */
  function InsertByKey<T>(x: T, s: seq<T>, key: T -> int): seq<T>
    decreases |s|
  {
    if s == [] || key(x) <= key(s[0]) then [x] + s
    else [s[0]] + InsertByKey(x, s[1..], key)
  }

  /** Inserting adds exactly one occurrence of `x`. */
  lemma {:induction false} InsertByKeyCount<T>(x: T, s: seq<T>, key: T -> int)
    ensures multiset(InsertByKey(x, s, key)) == multiset(s) + multiset{x}
    decreases |s|
  {
    if s != [] && key(x) > key(s[0]) {
      assert s == [s[0]] + s[1..];
      InsertByKeyCount(x, s[1..], key);
    }
  }

  /** Putting in front an element no larger than the rest keeps a list sorted. */
  lemma SortedCons<T>(a: T, t: seq<T>, key: T -> int)
    requires SortedByKey(t, key)
    requires forall y :: y in t ==> key(a) <= key(y)
    ensures SortedByKey([a] + t, key)
  {
    forall i, j | 0 <= i < j < |[a] + t| ensures key(([a] + t)[i]) <= key(([a] + t)[j]) {
      assert ([a] + t)[j] == t[j - 1];
      if i > 0 { assert ([a] + t)[i] == t[i - 1]; }
    }
  }

  lemma {:induction false} InsertByKeySorted<T>(x: T, s: seq<T>, key: T -> int)
    requires SortedByKey(s, key)
    ensures SortedByKey(InsertByKey(x, s, key), key)
    decreases |s|
  {
    if s == [] || key(x) <= key(s[0]) {
      forall y | y in s ensures key(x) <= key(y) {
        var j :| 0 <= j < |s| && s[j] == y;
        assert key(s[0]) <= key(s[j]);
      }
      SortedCons(x, s, key);
    } else {
      var tail := s[1..];
      assert SortedByKey(tail, key) by {
        forall i, j | 0 <= i < j < |tail| ensures key(tail[i]) <= key(tail[j]) {
          assert tail[i] == s[i + 1] && tail[j] == s[j + 1];
        }
      }
      InsertByKeySorted(x, tail, key);
      InsertByKeyCount(x, tail, key);
      var rest := InsertByKey(x, tail, key);
      forall y | y in rest ensures key(s[0]) <= key(y) {
        assert y in multiset(rest);
        if y != x {
          assert y in multiset(tail);
          var j :| 0 <= j < |tail| && tail[j] == y;
          assert s[j + 1] == y;
        }
      }
      SortedCons(s[0], rest, key);
    }
  }

  /** Insertion sort by `key`, stable: equal keys keep their order. */
  function SortByKey<T>(s: seq<T>, key: T -> int): seq<T>
    decreases |s|
  {
    if s == [] then [] else InsertByKey(s[0], SortByKey(s[1..], key), key)
  }

  /** The sort is a sorted permutation of its input. */
  lemma {:induction false} SortByKeySorts<T>(s: seq<T>, key: T -> int)
    ensures multiset(SortByKey(s, key)) == multiset(s)
    ensures SortedByKey(SortByKey(s, key), key)
    decreases |s|
  {
    if s != [] {
      assert s == [s[0]] + s[1..];
      SortByKeySorts(s[1..], key);
      InsertByKeySorted(s[0], SortByKey(s[1..], key), key);
      InsertByKeyCount(s[0], SortByKey(s[1..], key), key);
    }
  }

  /** A sorted permutation is a sorted list with exactly the same members. */
  lemma SortByKeyMembers<T>(s: seq<T>, key: T -> int)
    ensures multiset(SortByKey(s, key)) == multiset(s)
    ensures SortedByKey(SortByKey(s, key), key)
    ensures |SortByKey(s, key)| == |s|
    ensures forall x :: x in SortByKey(s, key) ==> x in s
    ensures forall x :: x in s ==> x in SortByKey(s, key)
  {
    SortByKeySorts(s, key);
    var r := SortByKey(s, key);
    assert |multiset(r)| == |multiset(s)|;
    forall x | x in r ensures x in s {
      assert x in multiset(r);
    }
    forall x | x in s ensures x in r {
      assert x in multiset(s);
    }
  }

  // ---------------------------------------------------------------------------
  // Strings in ordinal order, and `Distinct().OrderBy(n => n)` over them.

  /** Ordinal (code-point) string order. */
  predicate LexLess(a: string, b: string)
    decreases |a|
  {
    if a == [] then b != []
    else if b == [] then false
    else if a[0] < b[0] then true
    else if a[0] == b[0] then LexLess(a[1..], b[1..])
    else false
  }

  lemma {:induction false} LexLessIrreflexive(a: string)
    ensures !LexLess(a, a)
    decreases |a|
  {
    if a != [] { LexLessIrreflexive(a[1..]); }
  }

  lemma {:induction false} LexLessTransitive(a: string, b: string, c: string)
    requires LexLess(a, b) && LexLess(b, c)
    ensures LexLess(a, c)
    decreases |a|
  {
    if a != [] && b != [] && c != [] && a[0] == b[0] && b[0] == c[0] {
      LexLessTransitive(a[1..], b[1..], c[1..]);
    }
  }

  lemma {:induction false} LexLessTotal(a: string, b: string)
    requires a != b
    ensures LexLess(a, b) || LexLess(b, a)
    decreases |a|
  {
    if a != [] && b != [] && a[0] == b[0] {
      assert a == [a[0]] + a[1..] && b == [b[0]] + b[1..];
      LexLessTotal(a[1..], b[1..]);
    }
  }

  ghost predicate StrictlyAscending(s: seq<string>) {
    forall i, j :: 0 <= i < j < |s| ==> LexLess(s[i], s[j])
  }

  /** Adds `x` in front of the first name not below it, unless it is already there. */
  function InsertDistinct(x: string, s: seq<string>): seq<string>
    decreases |s|
  {
    if s == [] then [x]
    else if x == s[0] then s
    else if LexLess(x, s[0]) then [x] + s
    else [s[0]] + InsertDistinct(x, s[1..])
  }

  lemma AscendingTail(s: seq<string>)
    requires s != [] && StrictlyAscending(s)
    ensures StrictlyAscending(s[1..])
  {
    var tail := s[1..];
    forall i, j | 0 <= i < j < |tail| ensures LexLess(tail[i], tail[j]) {
      assert tail[i] == s[i + 1] && tail[j] == s[j + 1];
    }
  }

  /** Putting in front a name below every other keeps a list strictly ascending. */
  lemma AscendingCons(x: string, s: seq<string>)
    requires StrictlyAscending(s) && forall y :: y in s ==> LexLess(x, y)
    ensures StrictlyAscending([x] + s)
  {
    var r := [x] + s;
    forall i, j | 0 <= i < j < |r| ensures LexLess(r[i], r[j]) {
      assert r[j] == s[j - 1];
      if i > 0 { assert r[i] == s[i - 1]; }
    }
  }

  /** Inserting into a strictly ascending list keeps it strictly ascending and adds
      exactly `x`. */
  lemma {:induction false} InsertDistinctSpec(x: string, s: seq<string>)
    requires StrictlyAscending(s)
    ensures StrictlyAscending(InsertDistinct(x, s))
    ensures forall y :: y in InsertDistinct(x, s) <==> y == x || y in s
    decreases |s|
  {
    if s != [] && x != s[0] {
      if LexLess(x, s[0]) {
        forall y | y in s ensures LexLess(x, y) {
          var j :| 0 <= j < |s| && s[j] == y;
          if j > 0 { LexLessTransitive(x, s[0], s[j]); }
        }
        AscendingCons(x, s);
      } else {
        LexLessTotal(x, s[0]);
        var tail := s[1..];
        AscendingTail(s);
        InsertDistinctSpec(x, tail);
        var rest := InsertDistinct(x, tail);
        forall y | y in rest ensures LexLess(s[0], y) {
          if y != x {
            var k :| 0 <= k < |tail| && tail[k] == y;
            assert s[k + 1] == y;
          }
        }
        AscendingCons(s[0], rest);
        assert s == [s[0]] + tail;
      }
    }
  }

  /** `names.Distinct().OrderBy(n => n)`, with the ordinal order. */
  function SortedDistinct(names: seq<string>): seq<string>
    decreases |names|
  {
    if names == [] then [] else InsertDistinct(names[0], SortedDistinct(names[1..]))
  }

  /** The distinct names, strictly ascending: each name that occurs, once. */
  lemma {:induction false} SortedDistinctSpec(names: seq<string>)
    ensures StrictlyAscending(SortedDistinct(names))
    ensures forall y :: y in SortedDistinct(names) <==> y in names
    decreases |names|
  {
    if names != [] {
      assert names == [names[0]] + names[1..];
      SortedDistinctSpec(names[1..]);
      InsertDistinctSpec(names[0], SortedDistinct(names[1..]));
    }
  }

  /** A strictly ascending list holds each name once. */
  lemma StrictlyAscendingDistinct(s: seq<string>)
    requires StrictlyAscending(s)
    ensures forall i, j :: 0 <= i < j < |s| ==> s[i] != s[j]
  {
    forall i, j | 0 <= i < j < |s| ensures s[i] != s[j] {
      LexLessIrreflexive(s[i]);
    }
  }
}

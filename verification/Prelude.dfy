/** Vocabulary shared by every component: results, table scans, sums and ordering. */
module Prelude {

  /** Identifiers drawn by `randomUUID`. Their order stands for the order of the printed form. */
  type Uuid = nat

  type LocalDate = int   // days since the epoch, in Viet Nam: UTC+7 all year

  /** The local calendar date of an instant in milliseconds. */
  function VietnamLocalDate(at: int): LocalDate { (at + 25200000) / 86400000 }

  /** The local time of day, in milliseconds. */
  function VietnamLocalTime(at: int): int { (at + 25200000) % 86400000 }

  /** A local day runs from one midnight at UTC+7 to the next, and the time of day counts from the first. */
  lemma LocalMidnight(at: int, d: LocalDate)
    ensures VietnamLocalDate(at) == d <==> d * 86400000 <= at + 7 * 3600000 < (d + 1) * 86400000
    ensures at + 7 * 3600000 == VietnamLocalDate(at) * 86400000 + VietnamLocalTime(at)
    ensures 0 <= VietnamLocalTime(at) < 24 * 3600000
  {
  }

  datatype Option<+T> = None | Some(value: T)

  datatype Result<+T, +E> = Ok(value: T) | Err(error: E)

  // ---------------------------------------------------------------- table scans

  /** The rows of a table that satisfy `keep`, in insertion order. */
  function Filter<T>(s: seq<T>, keep: T -> bool): (r: seq<T>) {
    if s == [] then []
    else Filter(s[..|s| - 1], keep) + if keep(s[|s| - 1]) then [s[|s| - 1]] else []
  }

  lemma {:induction false} FilterAppend<T>(s: seq<T>, x: T, keep: T -> bool)
    ensures Filter(s + [x], keep) == Filter(s, keep) + if keep(x) then [x] else []
  {
    assert (s + [x])[..|s|] == s;
  }

  lemma {:induction false} FilterConcat<T>(a: seq<T>, b: seq<T>, keep: T -> bool)
    ensures Filter(a + b, keep) == Filter(a, keep) + Filter(b, keep)
  {
    if b == [] {
      assert a + b == a;
    } else {
      var init, last := b[..|b| - 1], b[|b| - 1];
      assert a + b == (a + init) + [last];
      FilterAppend(a + init, last, keep);
      FilterConcat(a, init, keep);
    }
  }

  lemma {:induction false} FilterMember<T>(s: seq<T>, x: T, keep: T -> bool)
    ensures x in Filter(s, keep) <==> x in s && keep(x)
  {
    if s != [] {
      var init, last := s[..|s| - 1], s[|s| - 1];
      assert s == init + [last];
      FilterMember(init, x, keep);
    }
  }

  lemma {:induction false} FilterNone<T>(s: seq<T>, keep: T -> bool)
    requires forall x :: x in s ==> !keep(x)
    ensures Filter(s, keep) == []
  {
    if s != [] {
      assert s[|s| - 1] in s;
      FilterNone(s[..|s| - 1], keep);
    }
  }

  lemma {:induction false} FilterAll<T>(s: seq<T>, keep: T -> bool)
    requires forall x :: x in s ==> keep(x)
    ensures Filter(s, keep) == s
  {
    if s != [] {
      assert s[|s| - 1] in s;
      FilterAll(s[..|s| - 1], keep);
      assert s == s[..|s| - 1] + [s[|s| - 1]];
    }
  }

  /** The image of a sequence. */
  function Map<T, U>(s: seq<T>, f: T -> U): (r: seq<U>)
    ensures |r| == |s|
    ensures forall i :: 0 <= i < |s| ==> r[i] == f(s[i])
  {
    seq(|s|, i requires 0 <= i < |s| => f(s[i]))
  }

  lemma AppendNothing<T>(s: seq<T>)
    ensures s + [] == s
  {
  }

  function Without<T>(s: seq<T>, i: nat): seq<T>
    requires i < |s|
  {
    s[..i] + s[i + 1..]
  }

  lemma TakeOut<T>(s: seq<T>, i: nat)
    requires i < |s|
    ensures multiset(s) == multiset(Without(s, i)) + multiset{s[i]}
  {
    assert s == s[..i] + ([s[i]] + s[i + 1..]);
  }

  lemma MapWithout<T, U>(s: seq<T>, i: nat, f: T -> U)
    requires i < |s|
    ensures Map(Without(s, i), f) == Without(Map(s, f), i)
  {
  }

  /** The image of a reordering is a reordering of the image. */
  lemma {:induction false} MapOfPermutation<T, U>(a: seq<T>, b: seq<T>, f: T -> U)
    requires multiset(a) == multiset(b)
    ensures multiset(Map(a, f)) == multiset(Map(b, f))
    decreases |a|
  {
    hide Without;
    assert |multiset(a)| == |a| && |multiset(b)| == |b|;
    if a != [] {
      assert a[0] in multiset(b);
      var i :| 0 <= i < |b| && b[i] == a[0];
      TakeOut(a, 0);
      TakeOut(b, i);
      assert multiset(Without(a, 0)) == multiset(a) - multiset{a[0]};
      assert multiset(Without(b, i)) == multiset(b) - multiset{a[0]};
      assert |multiset(Without(a, 0))| == |a| - 1;
      MapOfPermutation(Without(a, 0), Without(b, i), f);
      MapWithout(a, 0, f);
      MapWithout(b, i, f);
      TakeOut(Map(a, f), 0);
      TakeOut(Map(b, f), i);
    }
  }

  lemma AppendTwice<T>(s: seq<T>, x: T, y: T)
    ensures s + [x, y] == s + [x] + [y]
  {
  }

  lemma Member<T>(s: set<T>) returns (x: T)
    requires s != {}
    ensures x in s
  {
    x :| x in s;
  }

  predicate Distinct<T(==)>(s: seq<T>) {
    forall i, j :: 0 <= i < j < |s| ==> s[i] != s[j]
  }

  lemma {:induction false} OccursOnce<T>(a: seq<T>, x: T)
    requires Distinct(a)
    ensures multiset(a)[x] <= 1
  {
    if a != [] {
      var init, last := a[..|a| - 1], a[|a| - 1];
      assert a == init + [last];
      OccursOnce(init, x);
      if x == last {
        assert x !in init;
        assert multiset(init)[x] == 0;
      }
    }
  }

  lemma DistinctReordered<T>(a: seq<T>, b: seq<T>)
    requires Distinct(a) && multiset(a) == multiset(b)
    ensures Distinct(b)
  {
    forall i, j | 0 <= i < j < |b| ensures b[i] != b[j] {
      OccursOnce(a, b[i]);
      TakeOut(b, i);
      assert Without(b, i)[j - 1] == b[j];
      assert b[j] in multiset(Without(b, i));
    }
  }

  /** Distinct values drawn from an equally long list use each of its values exactly once. */
  lemma Pigeonhole<T>(a: seq<T>, b: seq<T>)
    requires Distinct(a) && |a| == |b| && forall x :: x in a ==> x in b
    ensures multiset(a) == multiset(b)
  {
    forall x: T ensures multiset(a)[x] <= multiset(b)[x] {
      OccursOnce(a, x);
      if x in multiset(a) {
        assert x in a && x in b;
      }
    }
    assert multiset(a) <= multiset(b);
    var rest := multiset(b) - multiset(a);
    assert |rest| == |multiset(b)| - |multiset(a)| == 0;
    assert multiset(b) == multiset(a) + rest;
  }

  // ---------------------------------------------------------------- sums

  /** `SUM(value)` over the rows of a table. */
  function SumBy<T>(s: seq<T>, value: T -> int): int {
    if s == [] then 0 else SumBy(s[..|s| - 1], value) + value(s[|s| - 1])
  }

  lemma {:induction false} SumByAppend<T>(s: seq<T>, x: T, value: T -> int)
    ensures SumBy(s + [x], value) == SumBy(s, value) + value(x)
  {
    assert (s + [x])[..|s|] == s;
  }

  lemma {:induction false} SumByConcat<T>(a: seq<T>, b: seq<T>, value: T -> int)
    ensures SumBy(a + b, value) == SumBy(a, value) + SumBy(b, value)
  {
    if b == [] {
      assert a + b == a;
    } else {
      var init, last := b[..|b| - 1], b[|b| - 1];
      assert a + b == (a + init) + [last];
      SumByAppend(a + init, last, value);
      SumByConcat(a, init, value);
    }
  }

  lemma {:induction false} SumByUpdate<T>(s: seq<T>, i: nat, x: T, value: T -> int)
    requires i < |s|
    ensures SumBy(s[i := x], value) == SumBy(s, value) - value(s[i]) + value(x)
  {
    var init, last := s[..|s| - 1], s[|s| - 1];
    if i == |s| - 1 {
      assert s[i := x] == init + [x];
      SumByAppend(init, x, value);
    } else {
      assert s[i := x] == init[i := x] + [last];
      SumByAppend(init[i := x], last, value);
      SumByUpdate(init, i, x, value);
    }
  }

  /** The sum of the values of a map, whatever the order of its keys. */
  ghost function Total<K>(m: map<K, int>): int
    decreases |m|
  {
    if m == map[] then 0
    else
      var k :| k in m;
      assert |m - {k}| < |m| by { Shrinks(m, k); }
      m[k] + Total(m - {k})
  }

  lemma Shrinks<K, V>(m: map<K, V>, k: K)
    requires k in m
    ensures |m - {k}| == |m| - 1
  {
    assert (m - {k}).Keys == m.Keys - {k};
    assert |m.Keys| == |m| && |(m - {k}).Keys| == |m - {k}|;
  }

  /** Any key can be taken out of a total. */
  lemma {:induction false} TotalRemove<K>(m: map<K, int>, k: K)
    requires k in m
    ensures Total(m) == m[k] + Total(m - {k})
    decreases |m|
  {
    var p :| p in m && Total(m) == m[p] + Total(m - {p});
    if p != k {
      Shrinks(m, p);
      Shrinks(m, k);
      TotalRemove(m - {p}, k);
      TotalRemove(m - {k}, p);
      assert m - {p} - {k} == m - {k} - {p};
    }
  }

  lemma {:induction false} TotalUpdate<K>(m: map<K, int>, k: K, v: int)
    ensures Total(m[k := v]) == Total(m) - (if k in m then m[k] else 0) + v
  {
    TotalRemove(m[k := v], k);
    if k in m {
      TotalRemove(m, k);
      assert m[k := v] - {k} == m - {k};
    } else {
      assert m[k := v] - {k} == m;
    }
  }

  lemma {:induction false} TotalZero<K>(m: map<K, int>)
    requires forall k :: k in m ==> m[k] == 0
    ensures Total(m) == 0
    decreases |m|
  {
    if m != map[] {
      var k :| k in m;
      Shrinks(m, k);
      TotalRemove(m, k);
      TotalZero(m - {k});
    }
  }

  lemma {:induction false} TotalNotNegative<K>(m: map<K, int>)
    requires forall k :: k in m ==> m[k] >= 0
    ensures Total(m) >= 0
    decreases |m|
  {
    if m != map[] {
      var k :| k in m;
      Shrinks(m, k);
      TotalRemove(m, k);
      TotalNotNegative(m - {k});
    }
  }

  // ---------------------------------------------------------------- ordering

  predicate SortedBy<T>(s: seq<T>, key: T -> int) {
    forall i, j :: 0 <= i < j < |s| ==> key(s[i]) <= key(s[j])
  }

  function InsertBy<T>(x: T, s: seq<T>, key: T -> int): (r: seq<T>) {
    if s == [] || key(x) < key(s[0]) then [x] + s
    else [s[0]] + InsertBy(x, s[1..], key)
  }

  /** A stable ascending sort, as `Array.prototype.sort` and `ORDER BY` are used here. */
  function SortBy<T>(s: seq<T>, key: T -> int): (r: seq<T>) {
    if s == [] then [] else InsertBy(s[|s| - 1], SortBy(s[..|s| - 1], key), key)
  }

  lemma {:induction false} InsertByRows<T>(x: T, s: seq<T>, key: T -> int)
    ensures multiset(InsertBy(x, s, key)) == multiset(s) + multiset{x}
  {
    if s != [] && key(x) >= key(s[0]) {
      InsertByRows(x, s[1..], key);
      assert s == [s[0]] + s[1..];
    }
  }

  lemma {:induction false} InsertBySorted<T>(x: T, s: seq<T>, key: T -> int)
    requires SortedBy(s, key)
    ensures SortedBy(InsertBy(x, s, key), key)
  {
    if s != [] && key(x) >= key(s[0]) {
      InsertBySorted(x, s[1..], key);
      InsertByRows(x, s[1..], key);
      var rest := InsertBy(x, s[1..], key);
      forall j | 0 <= j < |rest| ensures key(s[0]) <= key(rest[j]) {
        assert rest[j] in multiset(rest);
        if rest[j] != x {
          assert rest[j] in s[1..];
        }
      }
    }
  }

  lemma {:induction false} SortByRows<T>(s: seq<T>, key: T -> int)
    ensures multiset(SortBy(s, key)) == multiset(s)
  {
    if s != [] {
      var init, last := s[..|s| - 1], s[|s| - 1];
      SortByRows(init, key);
      InsertByRows(last, SortBy(init, key), key);
      assert s == init + [last];
    }
  }

  lemma {:induction false} SortBySorted<T>(s: seq<T>, key: T -> int)
    ensures SortedBy(SortBy(s, key), key)
  {
    if s != [] {
      var init := s[..|s| - 1];
      SortBySorted(init, key);
      InsertBySorted(s[|s| - 1], SortBy(init, key), key);
    }
  }

  lemma SortedHead<T>(a: seq<T>, b: seq<T>, key: T -> int)
    requires a != [] && b != [] && SortedBy(b, key) && a[0] in b
    ensures key(b[0]) <= key(a[0])
  {
    var i :| 0 <= i < |b| && b[i] == a[0];
  }

  lemma RowsOfTail<T>(a: seq<T>)
    requires a != []
    ensures multiset(a[1..]) == multiset(a) - multiset{a[0]}
  {
    assert a == [a[0]] + a[1..];
  }

  lemma SameHeads<T>(a: seq<T>, b: seq<T>, key: T -> int)
    requires a != [] && b != [] && SortedBy(a, key) && SortedBy(b, key)
    requires multiset(a) == multiset(b)
    requires forall x, y :: x in a && y in a && key(x) == key(y) ==> x == y
    ensures a[0] == b[0]
    ensures multiset(a[1..]) == multiset(b[1..])
  {
    assert a[0] in multiset(b) && b[0] in multiset(a);
    SortedHead(a, b, key);
    SortedHead(b, a, key);
    RowsOfTail(a);
    RowsOfTail(b);
  }

  /** With distinct keys, sorting forgets the order it was given. */
  lemma {:induction false} SortedUnique<T>(a: seq<T>, b: seq<T>, key: T -> int)
    requires SortedBy(a, key) && SortedBy(b, key)
    requires multiset(a) == multiset(b)
    requires forall x, y :: x in a && y in a && key(x) == key(y) ==> x == y
    ensures a == b
    decreases |a|
  {
    assert |multiset(a)| == |a| && |multiset(b)| == |b|;
    if a != [] {
      SameHeads(a, b, key);
      SortedUnique(a[1..], b[1..], key);
      assert a == [a[0]] + a[1..] && b == [b[0]] + b[1..];
    }
  }

  lemma {:induction false} SortOfPermutation<T>(a: seq<T>, b: seq<T>, key: T -> int)
    requires multiset(a) == multiset(b)
    requires forall x, y :: x in a && y in a && key(x) == key(y) ==> x == y
    ensures SortBy(a, key) == SortBy(b, key)
  {
    SortBySorted(a, key);
    SortBySorted(b, key);
    SortByRows(a, key);
    SortByRows(b, key);
    forall x | x in SortBy(a, key) ensures x in a {
      assert x in multiset(SortBy(a, key));
    }
    SortedUnique(SortBy(a, key), SortBy(b, key), key);
  }

  // ---------------------------------------------------------------- sorting by several keys

  predicate Ordered<T>(s: seq<T>, le: (T, T) -> bool) {
    forall i, j :: 0 <= i < j < |s| ==> le(s[i], s[j])
  }

  /** By `key`, and by `le` among equals. */
  function Then<T>(key: T -> int, le: (T, T) -> bool): (T, T) -> bool {
    (a: T, b: T) => key(a) < key(b) || (key(a) == key(b) && le(a, b))
  }

  lemma {:induction false} InsertIsStable<T>(x: T, s: seq<T>, key: T -> int, le: (T, T) -> bool)
    requires Ordered(s, Then(key, le)) && forall i :: 0 <= i < |s| ==> le(s[i], x)
    ensures Ordered(InsertBy(x, s, key), Then(key, le))
  {
    if s != [] && key(x) >= key(s[0]) {
      var rest := InsertBy(x, s[1..], key);
      InsertIsStable(x, s[1..], key, le);
      InsertByRows(x, s[1..], key);
      forall j | 0 <= j < |rest| ensures Then(key, le)(s[0], rest[j]) {
        assert rest[j] in multiset(rest);
        if rest[j] != x {
          assert rest[j] in s[1..];
        }
      }
    }
  }

  /** A stable sort of rows already ordered by `le` is ordered by the key and then by `le`. */
  lemma {:induction false} SortIsStable<T>(s: seq<T>, key: T -> int, le: (T, T) -> bool)
    requires Ordered(s, le)
    ensures Ordered(SortBy(s, key), Then(key, le))
  {
    if s != [] {
      var init, last := s[..|s| - 1], s[|s| - 1];
      SortIsStable(init, key, le);
      SortByRows(init, key);
      forall i | 0 <= i < |SortBy(init, key)| ensures le(SortBy(init, key)[i], last) {
        assert SortBy(init, key)[i] in multiset(init);
      }
      InsertIsStable(last, SortBy(init, key), key, le);
    }
  }
}

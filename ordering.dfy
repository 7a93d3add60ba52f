/** The `ORDER BY a DESC[, b DESC] LIMIT n` queries the stores run. A row's
    sort key is a `Rank`: the first ORDER BY column, then the second (0 when
    there is none). Rows with equal keys may come back in any order from
    SQLite; the sort here fixes one such order. */
module Ordering {

  datatype Rank = Rank(major: int, minor: int)

  /** `x` sorts no later than `y` under ORDER BY major DESC, minor DESC. */
  predicate AtLeast(x: Rank, y: Rank) {
    x.major > y.major || (x.major == y.major && x.minor >= y.minor)
  }

  predicate SortedDesc<T>(s: seq<T>, key: T -> Rank) {
    forall i, j :: 0 <= i < j < |s| ==> AtLeast(key(s[i]), key(s[j]))
  }

  /** Puts `x` in front of the first row it ranks at least as high as. */
  function Insert<T>(x: T, s: seq<T>, key: T -> Rank): (r: seq<T>)
    requires SortedDesc(s, key)
    ensures SortedDesc(r, key)
    ensures multiset(r) == multiset(s) + multiset{x}
    decreases |s|
  {
    if s == [] then [x]
    else if AtLeast(key(x), key(s[0])) then
      assert forall j :: 0 < j < |s| ==> AtLeast(key(s[0]), key(s[j]));
      [x] + s
    else
      var rest := Insert(x, s[1..], key);
      assert s == [s[0]] + s[1..];
      HeadRanksFirst(x, s, rest, key);
      [s[0]] + rest
  }

  lemma HeadRanksFirst<T>(x: T, s: seq<T>, rest: seq<T>, key: T -> Rank)
    requires |s| > 0 && SortedDesc(s, key) && !AtLeast(key(x), key(s[0]))
    requires multiset(rest) == multiset(s[1..]) + multiset{x}
    ensures forall j :: 0 <= j < |rest| ==> AtLeast(key(s[0]), key(rest[j]))
  {
    forall j | 0 <= j < |rest| ensures AtLeast(key(s[0]), key(rest[j])) {
      assert rest[j] in multiset(rest);
      if rest[j] != x {
        assert rest[j] in s[1..];
      }
    }
  }

  /** The rows in query order: sorted by key, descending, with the same
      rows as the table. */
  function SortDesc<T>(s: seq<T>, key: T -> Rank): (r: seq<T>)
    ensures SortedDesc(r, key)
    ensures multiset(r) == multiset(s)
    decreases |s|
  {
    if s == [] then []
    else
      assert s == [s[0]] + s[1..];
      Insert(s[0], SortDesc(s[1..], key), key)
  }

  function Min(a: nat, b: nat): nat { if a <= b then a else b }

  /** `ORDER BY … DESC LIMIT n` over the table `rows`. */
  function Top<T>(rows: seq<T>, key: T -> Rank, n: nat): (r: seq<T>)
    ensures |r| == Min(n, |rows|)
    ensures SortedDesc(r, key)
    ensures forall x :: x in r ==> x in rows
    ensures multiset(r) <= multiset(rows)
  {
    var sorted := SortDesc(rows, key);
    var r := sorted[..Min(n, |rows|)];
    assert |sorted| == |rows| by {
      assert |multiset(sorted)| == |multiset(rows)|;
    }
    assert sorted == r + sorted[Min(n, |rows|)..];
    forall x | x in r ensures x in rows {
      assert x in multiset(sorted);
    }
    r
  }

  /** No value occurs twice. */
  predicate NoDuplicates<T(==)>(s: seq<T>) {
    forall i, j :: 0 <= i < j < |s| ==> s[i] != s[j]
  }

  /** No two rows share an `id` (a primary key). */
  predicate DistinctBy<T, K(==)>(s: seq<T>, id: T -> K) {
    forall i, j :: 0 <= i < j < |s| ==> id(s[i]) != id(s[j])
  }

  lemma {:induction false} CountAtMostOne<T>(s: seq<T>, x: T)
    requires NoDuplicates(s)
    ensures multiset(s)[x] <= 1
    decreases |s|
  {
    if s != [] {
      assert s == [s[0]] + s[1..];
      assert NoDuplicates(s[1..]) by {
        forall i, j | 0 <= i < j < |s[1..]| ensures s[1..][i] != s[1..][j] {
          assert s[1..][i] == s[i + 1] && s[1..][j] == s[j + 1];
        }
      }
      CountAtMostOne(s[1..], x);
      if x == s[0] {
        assert x !in s[1..] by {
          forall k | 0 <= k < |s[1..]| ensures s[1..][k] != x {
            assert s[1..][k] == s[k + 1];
          }
        }
      }
    }
  }

  /** A sub-multiset of a sequence without duplicates has none either. */
  lemma SubOfNoDuplicates<T>(s: seq<T>, t: seq<T>)
    requires NoDuplicates(s) && multiset(t) <= multiset(s)
    ensures NoDuplicates(t)
  {
    forall i, j | 0 <= i < j < |t| ensures t[i] != t[j] {
      if t[i] == t[j] {
        var x := t[i];
        assert t == t[..j] + [t[j]] + t[j + 1..];
        assert t[..j][i] == x;
        assert multiset(t)[x] >= 2;
        CountAtMostOne(s, x);
        assert false;
      }
    }
  }

  /** The limit keeps a key unique: rows with distinct ids come back with
      distinct ids. */
  lemma TopDistinctBy<T, K>(rows: seq<T>, key: T -> Rank, n: nat, id: T -> K)
    requires DistinctBy(rows, id)
    ensures DistinctBy(Top(rows, key, n), id)
  {
    var top := Top(rows, key, n);
    SubOfNoDuplicates(rows, top);
    forall i, j | 0 <= i < j < |top| ensures id(top[i]) != id(top[j]) {
      assert top[i] in multiset(rows) && top[j] in multiset(rows);
      var a :| 0 <= a < |rows| && rows[a] == top[i];
      var b :| 0 <= b < |rows| && rows[b] == top[j];
    }
  }

  /** Every row the limit drops ranks no higher than every row it keeps. */
  lemma TopKeepsHighest<T>(rows: seq<T>, key: T -> Rank, n: nat)
    ensures var r := Top(rows, key, n);
      forall x, y :: x in r && y in multiset(rows) - multiset(r) ==> AtLeast(key(x), key(y))
  {
    var sorted := SortDesc(rows, key);
    var r := Top(rows, key, n);
    var m := Min(n, |rows|);
    assert |sorted| == |rows| by {
      assert |multiset(sorted)| == |multiset(rows)|;
    }
    assert r == sorted[..m];
    assert sorted == sorted[..m] + sorted[m..];
    assert multiset(rows) - multiset(r) == multiset(sorted[m..]);
    forall x, y | x in r && y in multiset(rows) - multiset(r) ensures AtLeast(key(x), key(y)) {
      var i :| 0 <= i < m && sorted[i] == x;
      assert y in sorted[m..];
      var j :| m <= j < |sorted| && sorted[j] == y;
    }
  }
}

/** The list queries of the store: `Array.from(map.values())`, `.filter`, `.sort`.

    Ids come from a counter, so a JavaScript `Map` keyed by them iterates in
    ascending id order, and `Values` lists a map that way. A stable sort by a
    comparator key `rank` over that list is the strict sort by the pair
    (rank, id), which is what `SortBy` computes and `Ascending` states. */
module Ordering {

  /** Lexicographic order on (rank, ident) pairs. */
  predicate Precedes(r1: int, i1: int, r2: int, i2: int) {
    r1 < r2 || (r1 == r2 && i1 < i2)
  }

  /** `s` is strictly increasing by (rank, ident). */
  predicate Ascending<T(==,!new)>(s: seq<T>, rank: T -> int, ident: T -> nat) {
    forall i, j :: 0 <= i < j < |s| ==> Precedes(rank(s[i]), ident(s[i]), rank(s[j]), ident(s[j]))
  }

  /** `s` is strictly increasing by ident. */
  predicate Increasing<T(==,!new)>(s: seq<T>, ident: T -> nat) {
    forall i, j :: 0 <= i < j < |s| ==> ident(s[i]) < ident(s[j])
  }

  /** Every record of `m` is stored under its own ident, and every ident is below `n`. */
  predicate Keyed<T(==,!new)>(m: map<nat, T>, n: nat, ident: T -> nat) {
    forall k :: k in m ==> k < n && ident(m[k]) == k
  }

  /** Every record of `m` carries a stamp below `clock`. */
  predicate Stamped<T(==,!new)>(m: map<nat, T>, stamp: T -> int, clock: int) {
    forall k :: k in m ==> stamp(m[k]) < clock
  }

  /** A larger bound keeps `Keyed`. */
  lemma KeyedGrow<T(!new)>(m: map<nat, T>, n: nat, ident: T -> nat)
    requires Keyed(m, n, ident)
    ensures Keyed(m, n + 1, ident)
  {
  }

  /** A later clock keeps `Stamped`. */
  lemma StampedLater<T(!new)>(m: map<nat, T>, stamp: T -> int, clock: int)
    requires Stamped(m, stamp, clock)
    ensures Stamped(m, stamp, clock + 1)
  {
  }

  /** Replacing a record by one with the same ident and stamp keeps `Keyed` and `Stamped`. */
  lemma ReplacedKeeps<T(!new)>(m: map<nat, T>, n: nat, k: nat, y: T, ident: T -> nat, stamp: T -> int, clock: int)
    requires Keyed(m, n, ident) && Stamped(m, stamp, clock) && k in m
    requires ident(y) == k && stamp(y) == stamp(m[k])
    ensures Keyed(m[k := y], n, ident) && Stamped(m[k := y], stamp, clock)
  {
  }

  /** Storing a record stamped `clock` keeps every stamp below `clock + 1`. */
  lemma StampedAdd<T(!new)>(m: map<nat, T>, k: nat, x: T, stamp: T -> int, clock: int)
    requires Stamped(m, stamp, clock) && k !in m && stamp(x) == clock
    ensures Stamped(m[k := x], stamp, clock + 1)
    ensures forall y :: y in m.Values ==> stamp(y) < stamp(x)
  {
    forall y | y in m.Values ensures stamp(y) < stamp(x) {
      var j :| j in m && m[j] == y;
    }
  }

  /** The keys of `m` below `n`, ascending. */
  function Keys<T(==,!new)>(m: map<nat, T>, n: nat): (ks: seq<nat>)
    ensures forall k :: k in ks <==> k in m && k < n
    ensures forall i, j :: 0 <= i < j < |ks| ==> ks[i] < ks[j]
  {
    if n == 0 then []
    else
      var front := Keys(m, n - 1);
      assert forall k :: k in front ==> k < n - 1;
      assert forall i :: 0 <= i < |front| ==> front[i] in front;
      front + (if n - 1 in m then [n - 1] else [])
  }

  /** The values of `m` under keys below `n`, in ascending key order. */
  function Values<T(==,!new)>(m: map<nat, T>, n: nat): (vs: seq<T>)
  {
    var ks := Keys(m, n);
    seq(|ks|, i requires 0 <= i < |ks| => m[ks[i]])
  }

  /** Listing a keyed map yields exactly its records, in increasing ident order. */
  lemma {:induction false} ValuesOfKeyed<T(!new)>(m: map<nat, T>, n: nat, ident: T -> nat)
    requires Keyed(m, n, ident)
    ensures forall x :: x in Values(m, n) <==> x in m.Values
    ensures Increasing(Values(m, n), ident)
  {
    var ks, vs := Keys(m, n), Values(m, n);
    assert forall i :: 0 <= i < |vs| ==> vs[i] == m[ks[i]] && ident(vs[i]) == ks[i];
    forall x | x in m.Values
      ensures x in vs
    {
      var k :| k in m && m[k] == x;
      var i :| 0 <= i < |ks| && ks[i] == k;
      assert vs[i] == x;
    }
  }

  /** `.filter(x => parent(x) === pid)`. */
  function Filter<T(==,!new)>(s: seq<T>, parent: T -> nat, pid: nat): (r: seq<T>)
    ensures |r| <= |s|
    ensures forall x :: x in r <==> x in s && parent(x) == pid
  {
    if s == [] then []
    else (if parent(s[0]) == pid then [s[0]] else []) + Filter(s[1..], parent, pid)
  }

  /** Filtering keeps the relative order of what it keeps. */
  lemma {:induction false} FilterIncreasing<T(!new)>(s: seq<T>, parent: T -> nat, pid: nat, ident: T -> nat)
    requires Increasing(s, ident)
    ensures Increasing(Filter(s, parent, pid), ident)
  {
    if s != [] {
      var tail := s[1..];
      FilterIncreasing(tail, parent, pid, ident);
      var ft := Filter(tail, parent, pid);
      forall y | y in ft ensures ident(s[0]) < ident(y) {
        var j :| 0 <= j < |tail| && tail[j] == y;
        assert s[j + 1] == y;
      }
    }
  }

  /** One step of an insertion sort: `x` goes before the first element it precedes. */
  function Insert<T(==,!new)>(x: T, s: seq<T>, rank: T -> int, ident: T -> nat): (r: seq<T>)
    ensures |r| == |s| + 1
    ensures forall y :: y in r <==> y == x || y in s
  {
    if s == [] then [x]
    else if Precedes(rank(x), ident(x), rank(s[0]), ident(s[0])) then [x] + s
    else [s[0]] + Insert(x, s[1..], rank, ident)
  }

  /** Insertion adds `x` once and keeps every other element with its multiplicity. */
  lemma {:induction false} InsertPermutes<T(!new)>(x: T, s: seq<T>, rank: T -> int, ident: T -> nat)
    ensures multiset(Insert(x, s, rank, ident)) == multiset(s) + multiset{x}
  {
    if s != [] && !Precedes(rank(x), ident(x), rank(s[0]), ident(s[0])) {
      assert s == [s[0]] + s[1..];
      InsertPermutes(x, s[1..], rank, ident);
    }
  }

  lemma {:induction false} InsertAscending<T(!new)>(x: T, s: seq<T>, rank: T -> int, ident: T -> nat)
    requires Ascending(s, rank, ident)
    requires forall y :: y in s ==> ident(y) != ident(x)
    ensures Ascending(Insert(x, s, rank, ident), rank, ident)
  {
    if s != [] && !Precedes(rank(x), ident(x), rank(s[0]), ident(s[0])) {
      var tail := s[1..];
      assert Ascending(tail, rank, ident) by {
        forall i, j | 0 <= i < j < |tail|
          ensures Precedes(rank(tail[i]), ident(tail[i]), rank(tail[j]), ident(tail[j]))
        {
          assert tail[i] == s[i + 1] && tail[j] == s[j + 1];
        }
      }
      InsertAscending(x, tail, rank, ident);
      var r := Insert(x, s, rank, ident);
      var rt := Insert(x, tail, rank, ident);
      assert r == [s[0]] + rt;
      forall j | 0 <= j < |rt|
        ensures Precedes(rank(s[0]), ident(s[0]), rank(rt[j]), ident(rt[j]))
      {
        assert rt[j] in rt;
        if rt[j] != x {
          var k :| 0 <= k < |tail| && tail[k] == rt[j];
          assert s[k + 1] == rt[j];
        } else {
          assert ident(s[0]) != ident(x) by { assert s[0] in s; }
        }
      }
    }
  }

  /** Insertion sort by (rank, ident). */
  function SortBy<T(==,!new)>(s: seq<T>, rank: T -> int, ident: T -> nat): (r: seq<T>)
    ensures |r| == |s|
    ensures forall y :: y in r <==> y in s
  {
    if s == [] then [] else Insert(s[0], SortBy(s[1..], rank, ident), rank, ident)
  }

  /** The sort is a permutation: every element keeps its multiplicity. */
  lemma {:induction false} SortByPermutes<T(!new)>(s: seq<T>, rank: T -> int, ident: T -> nat)
    ensures multiset(SortBy(s, rank, ident)) == multiset(s)
  {
    if s != [] {
      assert s == [s[0]] + s[1..];
      SortByPermutes(s[1..], rank, ident);
      InsertPermutes(s[0], SortBy(s[1..], rank, ident), rank, ident);
    }
  }

  lemma {:induction false} SortByAscending<T(!new)>(s: seq<T>, rank: T -> int, ident: T -> nat)
    requires Increasing(s, ident)
    ensures Ascending(SortBy(s, rank, ident), rank, ident)
  {
    if s != [] {
      var tail := s[1..];
      assert Increasing(tail, ident) by {
        forall i, j | 0 <= i < j < |tail| ensures ident(tail[i]) < ident(tail[j]) {
          assert tail[i] == s[i + 1] && tail[j] == s[j + 1];
        }
      }
      SortByAscending(tail, rank, ident);
      forall y | y in SortBy(tail, rank, ident) ensures ident(y) != ident(s[0]) {
        var j :| 0 <= j < |tail| && tail[j] == y;
        assert s[j + 1] == y;
      }
      InsertAscending(s[0], SortBy(tail, rank, ident), rank, ident);
    }
  }

  /** `Array.from(m.values()).sort(...)`: every record, ascending by (rank, ident). */
  function Ranked<T(==,!new)>(m: map<nat, T>, n: nat, rank: T -> int, ident: T -> nat): (r: seq<T>)
    requires Keyed(m, n, ident)
    ensures forall x :: x in r <==> x in m.Values
    ensures Ascending(r, rank, ident)
  {
    ValuesOfKeyed(m, n, ident);
    SortByAscending(Values(m, n), rank, ident);
    SortBy(Values(m, n), rank, ident)
  }

  /** `Array.from(m.values()).filter(...).sort(...)`: the records whose parent is `pid`,
      ascending by (rank, ident). */
  function Listing<T(==,!new)>(m: map<nat, T>, n: nat, parent: T -> nat, pid: nat, rank: T -> int, ident: T -> nat): (r: seq<T>)
    requires Keyed(m, n, ident)
    ensures forall x :: x in r <==> x in m.Values && parent(x) == pid
    ensures Ascending(r, rank, ident)
  {
    ValuesOfKeyed(m, n, ident);
    FilterIncreasing(Values(m, n), parent, pid, ident);
    SortByAscending(Filter(Values(m, n), parent, pid), rank, ident);
    SortBy(Filter(Values(m, n), parent, pid), rank, ident)
  }

  /** An ascending sequence is determined by its elements: the listings are unique. */
  lemma {:induction false} AscendingUnique<T(!new)>(a: seq<T>, b: seq<T>, rank: T -> int, ident: T -> nat)
    requires Ascending(a, rank, ident) && Ascending(b, rank, ident)
    requires forall x :: x in a <==> x in b
    ensures a == b
  {
    if a == [] {
      assert forall i :: 0 <= i < |b| ==> b[i] in b;
    } else {
      assert a[0] in a;
      assert b != [];
      assert b[0] in b;
      var i :| 0 <= i < |a| && a[i] == b[0];
      var j :| 0 <= j < |b| && b[j] == a[0];
      assert i == 0 || j == 0;
      assert a[0] == b[0];
      var at, bt := a[1..], b[1..];
      forall x ensures x in at <==> x in bt {
        if x in at {
          var i :| 0 <= i < |at| && at[i] == x;
          assert a[i + 1] == x;
          assert x != a[0];
          assert x in b;
        }
        if x in bt {
          var j :| 0 <= j < |bt| && bt[j] == x;
          assert b[j + 1] == x;
          assert x != b[0];
          assert x in a;
        }
      }
      assert Ascending(at, rank, ident) by {
        forall i, j | 0 <= i < j < |at|
          ensures Precedes(rank(at[i]), ident(at[i]), rank(at[j]), ident(at[j]))
        {
          assert at[i] == a[i + 1] && at[j] == a[j + 1];
        }
      }
      assert Ascending(bt, rank, ident) by {
        forall i, j | 0 <= i < j < |bt|
          ensures Precedes(rank(bt[i]), ident(bt[i]), rank(bt[j]), ident(bt[j]))
        {
          assert bt[i] == b[i + 1] && bt[j] == b[j + 1];
        }
      }
      AscendingUnique(at, bt, rank, ident);
      assert a == [a[0]] + at && b == [b[0]] + bt;
    }
  }

  /** Storing `x` under a fresh key adds exactly `x` to the values. */
  lemma AddedValues<T(!new)>(m: map<nat, T>, k: nat, x: T)
    requires k !in m
    ensures forall y :: y in m[k := x].Values <==> y in m.Values || y == x
  {
    forall y | y in m.Values ensures y in m[k := x].Values {
      var j :| j in m && m[j] == y;
      assert m[k := x][j] == y;
    }
    assert m[k := x][k] == x;
  }

  lemma AscendingSnoc<T(!new)>(s: seq<T>, x: T, rank: T -> int, ident: T -> nat)
    requires Ascending(s, rank, ident)
    requires forall y :: y in s ==> Precedes(rank(y), ident(y), rank(x), ident(x))
    ensures Ascending(s + [x], rank, ident)
  {
    var t := s + [x];
    forall i, j | 0 <= i < j < |t|
      ensures Precedes(rank(t[i]), ident(t[i]), rank(t[j]), ident(t[j]))
    {
      assert t[i] == s[i] && s[i] in s;
      if j < |s| {
        assert t[j] == s[j];
      }
    }
  }

  lemma AscendingCons<T(!new)>(x: T, s: seq<T>, rank: T -> int, ident: T -> nat)
    requires Ascending(s, rank, ident)
    requires forall y :: y in s ==> Precedes(rank(x), ident(x), rank(y), ident(y))
    ensures Ascending([x] + s, rank, ident)
  {
    var t := [x] + s;
    forall i, j | 0 <= i < j < |t|
      ensures Precedes(rank(t[i]), ident(t[i]), rank(t[j]), ident(t[j]))
    {
      assert t[j] == s[j - 1] && s[j - 1] in s;
      if i > 0 {
        assert t[i] == s[i - 1];
      }
    }
  }

  /** Storing a record under a fresh ident whose rank is above the rank of every other
      record of its parent appends it at the end of its parent's listing and changes no
      other listing. */
  lemma ListingAddLast<T(!new)>(m: map<nat, T>, n: nat, x: T, parent: T -> nat, pid: nat, rank: T -> int, ident: T -> nat)
    requires Keyed(m, n, ident) && ident(x) == n
    requires forall y :: y in m.Values && parent(y) == parent(x) ==> rank(y) < rank(x)
    ensures Keyed(m[n := x], n + 1, ident)
    ensures Listing(m[n := x], n + 1, parent, pid, rank, ident)
         == Listing(m, n, parent, pid, rank, ident) + (if parent(x) == pid then [x] else [])
  {
    var m' := m[n := x];
    var before := Listing(m, n, parent, pid, rank, ident);
    var want := before + (if parent(x) == pid then [x] else []);
    assert Keyed(m', n + 1, ident);
    var after := Listing(m', n + 1, parent, pid, rank, ident);
    AddedValues(m, n, x);
    if parent(x) == pid {
      AscendingSnoc(before, x, rank, ident);
    } else {
      assert want == before;
    }
    forall z ensures z in after <==> z in want {
      assert z in after <==> z in m'.Values && parent(z) == pid;
      assert z in before <==> z in m.Values && parent(z) == pid;
    }
    AscendingUnique(after, want, rank, ident);
  }

  /** Storing a record under a fresh ident whose rank is below every other rank
      puts it at the front of its parent's listing and changes no other listing. */
  lemma ListingAddFirst<T(!new)>(m: map<nat, T>, n: nat, x: T, parent: T -> nat, pid: nat, rank: T -> int, ident: T -> nat)
    requires Keyed(m, n, ident) && ident(x) == n
    requires forall y :: y in m.Values ==> rank(x) < rank(y)
    ensures Keyed(m[n := x], n + 1, ident)
    ensures Listing(m[n := x], n + 1, parent, pid, rank, ident)
         == (if parent(x) == pid then [x] else []) + Listing(m, n, parent, pid, rank, ident)
  {
    var m' := m[n := x];
    var before := Listing(m, n, parent, pid, rank, ident);
    var want := (if parent(x) == pid then [x] else []) + before;
    assert Keyed(m', n + 1, ident);
    var after := Listing(m', n + 1, parent, pid, rank, ident);
    AddedValues(m, n, x);
    if parent(x) == pid {
      AscendingCons(x, before, rank, ident);
    } else {
      assert want == before;
    }
    forall z ensures z in after <==> z in want {
      assert z in after <==> z in m'.Values && parent(z) == pid;
      assert z in before <==> z in m.Values && parent(z) == pid;
    }
    AscendingUnique(after, want, rank, ident);
  }

  /** The same as `ListingAddFirst` for the unfiltered listing. */
  lemma RankedAddFirst<T(!new)>(m: map<nat, T>, n: nat, x: T, rank: T -> int, ident: T -> nat)
    requires Keyed(m, n, ident) && ident(x) == n
    requires forall y :: y in m.Values ==> rank(x) < rank(y)
    ensures Keyed(m[n := x], n + 1, ident)
    ensures Ranked(m[n := x], n + 1, rank, ident) == [x] + Ranked(m, n, rank, ident)
  {
    var m' := m[n := x];
    var before := Ranked(m, n, rank, ident);
    assert Keyed(m', n + 1, ident);
    var after := Ranked(m', n + 1, rank, ident);
    AddedValues(m, n, x);
    AscendingCons(x, before, rank, ident);
    forall z ensures z in after <==> z in [x] + before {
      assert z in after <==> z in m'.Values;
      assert z in before <==> z in m.Values;
    }
    AscendingUnique(after, [x] + before, rank, ident);
  }

  /** `s` with every occurrence of `x` replaced by `y`. */
  function Replace<T(==,!new)>(s: seq<T>, x: T, y: T): (r: seq<T>)
    ensures |r| == |s|
    ensures forall i :: 0 <= i < |s| ==> r[i] == if s[i] == x then y else s[i]
  {
    seq(|s|, i requires 0 <= i < |s| => if s[i] == x then y else s[i])
  }

  /** Overwriting a record with one of the same ident, rank and parent leaves it at its
      place in every listing. */
  lemma ListingReplace<T(!new)>(m: map<nat, T>, n: nat, k: nat, y: T, parent: T -> nat, pid: nat, rank: T -> int, ident: T -> nat)
    requires Keyed(m, n, ident) && k in m
    requires ident(y) == k && rank(y) == rank(m[k]) && parent(y) == parent(m[k])
    ensures Keyed(m[k := y], n, ident)
    ensures Listing(m[k := y], n, parent, pid, rank, ident)
         == Replace(Listing(m, n, parent, pid, rank, ident), m[k], y)
  {
    var x := m[k];
    var old_ := Listing(m, n, parent, pid, rank, ident);
    var want := Replace(old_, x, y);
    assert forall i :: 0 <= i < |old_| ==> rank(want[i]) == rank(old_[i]) && ident(want[i]) == ident(old_[i]);
    assert Ascending(want, rank, ident) by {
      forall i, j | 0 <= i < j < |want|
        ensures Precedes(rank(want[i]), ident(want[i]), rank(want[j]), ident(want[j]))
      {
      }
    }
    var m' := m[k := y];
    forall z ensures z in want <==> z in m'.Values && parent(z) == pid {
      if z in want {
        var i :| 0 <= i < |want| && want[i] == z;
        if old_[i] == x {
          assert m'[k] == z;
        } else {
          assert old_[i] in old_;
          var j :| j in m && m[j] == old_[i];
          assert j != k;
          assert m'[j] == z;
        }
      }
      if z in m'.Values && parent(z) == pid {
        var j :| j in m' && m'[j] == z;
        if j == k {
          assert x in old_;
          var i :| 0 <= i < |old_| && old_[i] == x;
          assert want[i] == z;
        } else {
          assert m[j] == z && z in m.Values;
          var i :| 0 <= i < |old_| && old_[i] == z;
          assert ident(z) == j != k == ident(x);
          assert want[i] == z;
        }
      }
    }
    AscendingUnique(Listing(m', n, parent, pid, rank, ident), want, rank, ident);
  }

  /** `s` without the element `x`. */
  function Without<T(==,!new)>(s: seq<T>, x: T): (r: seq<T>)
    ensures forall y :: y in r <==> y in s && y != x
    ensures |r| <= |s|
  {
    if s == [] then []
    else (if s[0] == x then [] else [s[0]]) + Without(s[1..], x)
  }

  lemma {:induction false} WithoutAscending<T(!new)>(s: seq<T>, x: T, rank: T -> int, ident: T -> nat)
    requires Ascending(s, rank, ident)
    ensures Ascending(Without(s, x), rank, ident)
  {
    if s != [] {
      var tail := s[1..];
      assert Ascending(tail, rank, ident) by {
        forall i, j | 0 <= i < j < |tail|
          ensures Precedes(rank(tail[i]), ident(tail[i]), rank(tail[j]), ident(tail[j]))
        {
          assert tail[i] == s[i + 1] && tail[j] == s[j + 1];
        }
      }
      WithoutAscending(tail, x, rank, ident);
      var wt := Without(tail, x);
      forall j | 0 <= j < |wt|
        ensures Precedes(rank(s[0]), ident(s[0]), rank(wt[j]), ident(wt[j]))
      {
        assert wt[j] in wt;
        var k :| 0 <= k < |tail| && tail[k] == wt[j];
        assert s[k + 1] == wt[j];
      }
    }
  }

  /** Removing a record drops exactly it from every listing; what remains keeps its order. */
  lemma ListingRemove<T(!new)>(m: map<nat, T>, n: nat, k: nat, parent: T -> nat, pid: nat, rank: T -> int, ident: T -> nat)
    requires Keyed(m, n, ident) && k in m
    ensures Keyed(m - {k}, n, ident)
    ensures Listing(m - {k}, n, parent, pid, rank, ident)
         == Without(Listing(m, n, parent, pid, rank, ident), m[k])
  {
    var x := m[k];
    var old_ := Listing(m, n, parent, pid, rank, ident);
    var want := Without(old_, x);
    WithoutAscending(old_, x, rank, ident);
    var m' := m - {k};
    forall z ensures z in want <==> z in m'.Values && parent(z) == pid {
      if z in want {
        var j :| j in m && m[j] == z;
        assert j != k;
        assert m'[j] == z;
      }
      if z in m'.Values {
        var j :| j in m' && m'[j] == z;
        assert m[j] == z && z in m.Values;
        assert ident(z) == j != k == ident(x);
      }
    }
    AscendingUnique(Listing(m', n, parent, pid, rank, ident), want, rank, ident);
  }
}

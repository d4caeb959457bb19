/**
 * The sort both `useSort` and the watchlist page perform:
 * `[...rows].sort((a, b) => a[k] === b[k] ? 0 : (a[k] < b[k] ? -1 : 1))`, with the
 * result negated for a descending order. `Array.prototype.sort` is stable, so the
 * model is a stable insertion sort, proved to return a sorted permutation of its
 * input that keeps rows with equal keys in their input order.
 */
module Sorting {
  import opened Strings

  datatype Direction = Asc | Desc

  /** The flipped direction, as both sort handlers compute it. */
  function Flip(d: Direction): (r: Direction)
    ensures r != d
  {
    if d == Asc then Desc else Asc
  }

  /** A sortable field value: the application sorts on number and string fields. */
  datatype Value = Num(n: real) | Text(t: string)

  /**
   * JavaScript `<` on two values of one field. A field holds values of one kind;
   * ordering a number before a string only makes the relation total.
   */
  predicate Less(a: Value, b: Value)
  {
    match (a, b)
    case (Num(x), Num(y)) => x < y
    case (Text(x), Text(y)) => StrLess(x, y)
    case (Num(_), Text(_)) => true
    case (Text(_), Num(_)) => false
  }

  lemma LessIsStrictOrder(a: Value, b: Value, c: Value)
    ensures !Less(a, a)
    ensures Less(a, b) && Less(b, c) ==> Less(a, c)
    ensures a != b ==> Less(a, b) || Less(b, a)
    ensures Less(a, b) ==> !Less(b, a)
  {
    if a.Text? { StrLessIrreflexive(a.t); }
    if a.Text? && b.Text? && c.Text? && StrLess(a.t, b.t) && StrLess(b.t, c.t) {
      StrLessTransitive(a.t, b.t, c.t);
    }
    if a.Text? && b.Text? && a != b { StrLessTotal(a.t, b.t); }
    if a.Text? && b.Text? && StrLess(a.t, b.t) && StrLess(b.t, a.t) {
      StrLessTransitive(a.t, b.t, a.t);
    }
  }

  /** The comparator of both sorts. */
  function Compare(a: Value, b: Value, dir: Direction): (r: int)
    ensures r in {-1, 0, 1}
    ensures r == 0 <==> a == b
    ensures dir == Asc ==> (r < 0 <==> Less(a, b) && a != b)
    ensures dir == Desc ==> (r < 0 <==> !Less(a, b) && a != b)
  {
    if a == b then 0
    else
      var c := if Less(a, b) then -1 else 1;
      if dir == Asc then c else -c
  }

  /** `a` may come before `b` in the sorted output. */
  predicate InOrder(a: Value, b: Value, dir: Direction)
  {
    Compare(a, b, dir) <= 0
  }

  lemma CompareFacts(a: Value, b: Value, c: Value, dir: Direction)
    ensures Compare(a, b, dir) == -Compare(b, a, dir)
    ensures InOrder(a, b, dir) || InOrder(b, a, dir)
    ensures InOrder(a, b, dir) && InOrder(b, c, dir) ==> InOrder(a, c, dir)
    ensures Compare(a, b, dir) == 0 <==> a == b
    ensures dir == Asc ==> (Compare(a, b, dir) < 0 <==> Less(a, b))
    ensures dir == Desc ==> (Compare(a, b, dir) < 0 <==> Less(b, a))
  {
    LessIsStrictOrder(a, b, c);
    LessIsStrictOrder(b, a, c);
    LessIsStrictOrder(c, b, a);
    LessIsStrictOrder(b, c, a);
    LessIsStrictOrder(a, c, b);
    LessIsStrictOrder(c, a, b);
  }

  ghost predicate Sorted<T>(s: seq<T>, key: T -> Value, dir: Direction)
  {
    forall i, j :: 0 <= i < j < |s| ==> InOrder(key(s[i]), key(s[j]), dir)
  }

  /** The rows of `s` whose key is `v`, in order. */
  function WithKey<T>(s: seq<T>, key: T -> Value, v: Value): seq<T>
  {
    if s == [] then [] else (if key(s[0]) == v then [s[0]] else []) + WithKey(s[1..], key, v)
  }

  lemma {:induction false} WithKeyAppend<T>(a: seq<T>, b: seq<T>, key: T -> Value, v: Value)
    ensures WithKey(a + b, key, v) == WithKey(a, key, v) + WithKey(b, key, v)
  {
    if a != [] {
      assert (a + b)[1..] == a[1..] + b;
      WithKeyAppend(a[1..], b, key, v);
    } else {
      assert a + b == b;
    }
  }

  /** Stable: rows with equal keys keep their input order. */
  ghost predicate Stable<T>(r: seq<T>, s: seq<T>, key: T -> Value)
  {
    forall v :: WithKey(r, key, v) == WithKey(s, key, v)
  }

  /** Insert `x` after every row of `r` that does not compare greater than it. */
  function Insert<T>(x: T, r: seq<T>, key: T -> Value, dir: Direction): seq<T>
  {
    if r == [] then [x]
    else if Compare(key(x), key(r[0]), dir) < 0 then [x] + r
    else [r[0]] + Insert(x, r[1..], key, dir)
  }

  lemma {:induction false} InsertMultiset<T>(x: T, r: seq<T>, key: T -> Value, dir: Direction)
    ensures multiset(Insert(x, r, key, dir)) == multiset(r) + multiset{x}
  {
    if r != [] && Compare(key(x), key(r[0]), dir) >= 0 {
      InsertMultiset(x, r[1..], key, dir);
      assert r == [r[0]] + r[1..];
    }
  }

  lemma SortedTail<T>(r: seq<T>, key: T -> Value, dir: Direction)
    requires r != [] && Sorted(r, key, dir)
    ensures Sorted(r[1..], key, dir)
    ensures forall e :: e in r[1..] ==> InOrder(key(r[0]), key(e), dir)
  {
    forall i, j | 0 <= i < j < |r[1..]|
      ensures InOrder(key(r[1..][i]), key(r[1..][j]), dir)
    {
      assert r[1..][i] == r[i + 1] && r[1..][j] == r[j + 1];
    }
    forall e | e in r[1..]
      ensures InOrder(key(r[0]), key(e), dir)
    {
      var k :| 0 <= k < |r[1..]| && r[1..][k] == e;
      assert r[k + 1] == e;
    }
  }

  /** Every row of a sorted `r` compares at least as great as a key smaller than its head. */
  lemma BelowHead<T>(x: T, r: seq<T>, key: T -> Value, dir: Direction)
    requires r != [] && Sorted(r, key, dir)
    requires Compare(key(x), key(r[0]), dir) < 0
    ensures forall e :: e in r ==> InOrder(key(x), key(e), dir) && key(e) != key(x)
  {
    SortedTail(r, key, dir);
    forall e | e in r
      ensures InOrder(key(x), key(e), dir) && key(e) != key(x)
    {
      CompareFacts(key(x), key(r[0]), key(e), dir);
    }
  }

  lemma {:induction false} InsertSorted<T>(x: T, r: seq<T>, key: T -> Value, dir: Direction)
    requires Sorted(r, key, dir)
    ensures Sorted(Insert(x, r, key, dir), key, dir)
  {
    var ins := Insert(x, r, key, dir);
    if r == [] {
    } else if Compare(key(x), key(r[0]), dir) < 0 {
      BelowHead(x, r, key, dir);
      assert ins == [x] + r;
      SortedCons(x, r, key, dir);
    } else {
      var rest := Insert(x, r[1..], key, dir);
      SortedTail(r, key, dir);
      InsertSorted(x, r[1..], key, dir);
      InsertMultiset(x, r[1..], key, dir);
      CompareFacts(key(x), key(r[0]), key(x), dir);
      assert ins == [r[0]] + rest;
      forall e | e in rest
        ensures InOrder(key(r[0]), key(e), dir)
      {
        assert e in multiset(rest);
      }
      SortedCons(r[0], rest, key, dir);
    }
  }

  /** A head in order before every element of a sorted tail gives a sorted sequence. */
  lemma SortedCons<T>(h: T, t: seq<T>, key: T -> Value, dir: Direction)
    requires Sorted(t, key, dir)
    requires forall e :: e in t ==> InOrder(key(h), key(e), dir)
    ensures Sorted([h] + t, key, dir)
  {
    var s := [h] + t;
    forall i, j | 0 <= i < j < |s|
      ensures InOrder(key(s[i]), key(s[j]), dir)
    {
      if i == 0 { assert s[j] == t[j - 1] && s[j] in t; }
      else { assert s[i] == t[i - 1] && s[j] == t[j - 1]; }
    }
  }

  lemma {:induction false} InsertStable<T>(x: T, r: seq<T>, key: T -> Value, dir: Direction, v: Value)
    requires Sorted(r, key, dir)
    ensures WithKey(Insert(x, r, key, dir), key, v) == WithKey(r + [x], key, v)
  {
    var ins := Insert(x, r, key, dir);
    var one := WithKey([x], key, v);
    assert one == (if key(x) == v then [x] else []) by {
      assert [x][1..] == [];
      assert WithKey([x][1..], key, v) == [];
    }
    WithKeyAppend(r, [x], key, v);
    if r == [] {
      assert ins == r + [x];
    } else if Compare(key(x), key(r[0]), dir) < 0 {
      assert ins == [x] + r;
      assert ins[1..] == r;
      assert WithKey(ins, key, v) == one + WithKey(r, key, v);
      if key(x) == v {
        BelowHead(x, r, key, dir);
        NoneWithKey(r, key, v);
      }
    } else {
      var head := if key(r[0]) == v then [r[0]] else [];
      SortedTail(r, key, dir);
      InsertStable(x, r[1..], key, dir, v);
      WithKeyAppend(r[1..], [x], key, v);
      assert ins[0] == r[0] && ins[1..] == Insert(x, r[1..], key, dir);
      assert WithKey(ins, key, v) == head + WithKey(r[1..] + [x], key, v);
      assert WithKey(r, key, v) == head + WithKey(r[1..], key, v);
    }
  }

  lemma {:induction false} NoneWithKey<T>(r: seq<T>, key: T -> Value, v: Value)
    requires forall e :: e in r ==> key(e) != v
    ensures WithKey(r, key, v) == []
  {
    if r != [] { NoneWithKey(r[1..], key, v); }
  }

  /** The sorted copy: each row, in input order, inserted into the sorted prefix. */
  function SortBy<T>(s: seq<T>, key: T -> Value, dir: Direction): (r: seq<T>)
    ensures multiset(r) == multiset(s)
    ensures Sorted(r, key, dir)
    ensures Stable(r, s, key)
  {
    if s == [] then []
    else
      var prefix := SortBy(s[..|s| - 1], key, dir);
      var r := Insert(s[|s| - 1], prefix, key, dir);
      InsertMultiset(s[|s| - 1], prefix, key, dir);
      InsertSorted(s[|s| - 1], prefix, key, dir);
      assert s == s[..|s| - 1] + [s[|s| - 1]];
      assert forall v :: WithKey(r, key, v) == WithKey(s, key, v) by {
        forall v
          ensures WithKey(r, key, v) == WithKey(s, key, v)
        {
          InsertStable(s[|s| - 1], prefix, key, dir, v);
          WithKeyAppend(prefix, [s[|s| - 1]], key, v);
          WithKeyAppend(s[..|s| - 1], [s[|s| - 1]], key, v);
        }
      }
      r
  }

  /** Sorting keeps the number of rows. */
  lemma SortByLength<T>(s: seq<T>, key: T -> Value, dir: Direction)
    ensures |SortBy(s, key, dir)| == |s|
  {
    assert |multiset(SortBy(s, key, dir))| == |multiset(s)|;
  }
}

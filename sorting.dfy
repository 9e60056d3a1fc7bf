/** Ordering a sequence of entities by one field, in either direction. The
    comparator of the shared in-memory repository base class is not part of
    this model: what is modelled is a sort by a key that is a string
    (compared code point by code point) or a number. */
module Sorting {

  datatype SortDirection = Asc | Desc

  /** The value of the sort field of one entity. */
  datatype SortKey = Text(s: string) | Number(n: int)

  /** Lexicographic order on strings: a proper prefix comes first. */
  predicate LexLe(a: string, b: string)
    decreases |a|
  {
    a == [] || (b != [] && (a[0] < b[0] || (a[0] == b[0] && LexLe(a[1..], b[1..]))))
  }

  lemma {:induction false} LexLeTotal(a: string, b: string)
    ensures LexLe(a, b) || LexLe(b, a)
    decreases |a|
  {
    if a != [] && b != [] && a[0] == b[0] {
      LexLeTotal(a[1..], b[1..]);
    }
  }

  lemma {:induction false} LexLeTransitive(a: string, b: string, c: string)
    requires LexLe(a, b) && LexLe(b, c)
    ensures LexLe(a, c)
    decreases |a|
  {
    if a != [] && a[0] == b[0] && b[0] == c[0] {
      LexLeTransitive(a[1..], b[1..], c[1..]);
    }
  }

  /** Keys of one field are all texts or all numbers; numbers are put first
      only so that the order is total. */
  predicate KeyLe(a: SortKey, b: SortKey) {
    match (a, b)
    case (Number(x), Number(y)) => x <= y
    case (Text(x), Text(y)) => LexLe(x, y)
    case (Number(_), Text(_)) => true
    case (Text(_), Number(_)) => false
  }

  /** `a` may come before `b` in a sequence sorted in direction `dir`. */
  predicate InOrder(a: SortKey, b: SortKey, dir: SortDirection) {
    if dir == Asc then KeyLe(a, b) else KeyLe(b, a)
  }

  lemma InOrderTotal(a: SortKey, b: SortKey, dir: SortDirection)
    ensures InOrder(a, b, dir) || InOrder(b, a, dir)
  {
    if a.Text? && b.Text? {
      LexLeTotal(a.s, b.s);
    }
  }

  lemma InOrderTransitive(a: SortKey, b: SortKey, c: SortKey, dir: SortDirection)
    requires InOrder(a, b, dir) && InOrder(b, c, dir)
    ensures InOrder(a, c, dir)
  {
    if a.Text? && b.Text? && c.Text? {
      if dir == Asc {
        LexLeTransitive(a.s, b.s, c.s);
      } else {
        LexLeTransitive(c.s, b.s, a.s);
      }
    }
  }

  /** An entity paired with the value of its sort field. */
  datatype Keyed<T> = Keyed(key: SortKey, item: T)

  predicate Sorted<T>(xs: seq<Keyed<T>>, dir: SortDirection) {
    forall i, j :: 0 <= i < j < |xs| ==> InOrder(xs[i].key, xs[j].key, dir)
  }

  /** The entities of a keyed sequence, in order. */
  function Items<T>(xs: seq<Keyed<T>>): (r: seq<T>)
    ensures |r| == |xs|
    ensures forall i :: 0 <= i < |xs| ==> r[i] == xs[i].item
  {
    if xs == [] then [] else [xs[0].item] + Items(xs[1..])
  }

  /** Inserts `x` before the first element it may precede. The order of
      elements with equal keys is left unspecified. */
  function Insert<T(==)>(x: Keyed<T>, s: seq<Keyed<T>>, dir: SortDirection): (r: seq<Keyed<T>>)
    requires Sorted(s, dir)
    ensures Sorted(r, dir)
    ensures multiset(r) == multiset(s) + multiset{x}
    ensures multiset(Items(r)) == multiset(Items(s)) + multiset{x.item}
  {
    if s == [] then [x]
    else if InOrder(x.key, s[0].key, dir) then
      InsertFront(x, s, dir);
      [x] + s
    else
      InOrderTotal(x.key, s[0].key, dir);
      var t := Insert(x, s[1..], dir);
      InsertLater(x, s, t, dir);
      [s[0]] + t
  }

  lemma InsertFront<T>(x: Keyed<T>, s: seq<Keyed<T>>, dir: SortDirection)
    requires Sorted(s, dir) && s != [] && InOrder(x.key, s[0].key, dir)
    ensures Sorted([x] + s, dir)
    ensures multiset(Items([x] + s)) == multiset(Items(s)) + multiset{x.item}
  {
    var r := [x] + s;
    forall j | 0 < j < |r| ensures InOrder(x.key, r[j].key, dir) {
      if j > 1 {
        InOrderTransitive(x.key, s[0].key, r[j].key, dir);
      }
    }
    assert Items(r) == [x.item] + Items(s);
  }

  lemma InsertLater<T>(x: Keyed<T>, s: seq<Keyed<T>>, t: seq<Keyed<T>>, dir: SortDirection)
    requires Sorted(s, dir) && s != [] && InOrder(s[0].key, x.key, dir)
    requires Sorted(t, dir) && multiset(t) == multiset(s[1..]) + multiset{x}
    requires multiset(Items(t)) == multiset(Items(s[1..])) + multiset{x.item}
    ensures Sorted([s[0]] + t, dir)
    ensures multiset([s[0]] + t) == multiset(s) + multiset{x}
    ensures multiset(Items([s[0]] + t)) == multiset(Items(s)) + multiset{x.item}
  {
    forall j | 0 <= j < |t| ensures InOrder(s[0].key, t[j].key, dir) {
      HeadBeforeInserted(x, s, t, j, dir);
    }
    SortedCons(s[0], t, dir);
    ConsCounts(x, s, t);
    ItemsConsCount(x, s, t);
  }

  lemma SortedCons<T>(h: Keyed<T>, t: seq<Keyed<T>>, dir: SortDirection)
    requires Sorted(t, dir)
    requires forall j :: 0 <= j < |t| ==> InOrder(h.key, t[j].key, dir)
    ensures Sorted([h] + t, dir)
  {
    var r := [h] + t;
    forall i, j | 0 <= i < j < |r| ensures InOrder(r[i].key, r[j].key, dir) {
      if i > 0 {
        assert r[i] == t[i - 1] && r[j] == t[j - 1];
      } else {
        assert r[j] == t[j - 1];
      }
    }
  }

  lemma ConsCounts<T>(x: Keyed<T>, s: seq<Keyed<T>>, t: seq<Keyed<T>>)
    requires s != [] && multiset(t) == multiset(s[1..]) + multiset{x}
    ensures multiset([s[0]] + t) == multiset(s) + multiset{x}
  {
    ConsCount(s[0], s[1..], t, x);
    assert [s[0]] + s[1..] == s;
  }

  lemma ItemsConsCount<T>(x: Keyed<T>, s: seq<Keyed<T>>, t: seq<Keyed<T>>)
    requires s != []
    requires multiset(Items(t)) == multiset(Items(s[1..])) + multiset{x.item}
    ensures multiset(Items([s[0]] + t)) == multiset(Items(s)) + multiset{x.item}
  {
    var a, b := Items(s[1..]), Items(t);
    ItemsCons(s[0], t);
    assert Items(s) == [s[0].item] + a;
    ConsCount(s[0].item, a, b, x.item);
  }

  /** Putting the same head before two sequences keeps their counts related. */
  lemma ConsCount<U>(h: U, a: seq<U>, b: seq<U>, x: U)
    requires multiset(b) == multiset(a) + multiset{x}
    ensures multiset([h] + b) == multiset([h] + a) + multiset{x}
  {
    assert multiset([h] + b) == multiset{h} + multiset(b);
    assert multiset([h] + a) == multiset{h} + multiset(a);
  }

  lemma ItemsCons<T>(h: Keyed<T>, t: seq<Keyed<T>>)
    ensures Items([h] + t) == [h.item] + Items(t)
  {
    assert ([h] + t)[1..] == t;
  }

  lemma HeadBeforeInserted<T>(x: Keyed<T>, s: seq<Keyed<T>>, t: seq<Keyed<T>>, j: int, dir: SortDirection)
    requires Sorted(s, dir) && s != [] && InOrder(s[0].key, x.key, dir)
    requires multiset(t) == multiset(s[1..]) + multiset{x}
    requires 0 <= j < |t|
    ensures InOrder(s[0].key, t[j].key, dir)
  {
    assert t[j] in multiset(t);
    if t[j] != x {
      assert t[j] in multiset(s[1..]);
      var k :| 0 <= k < |s[1..]| && s[1..][k] == t[j];
      assert s[k + 1] == t[j];
    }
  }

  /** Insertion sort: every element in turn is inserted into the sorted rest. */
  function SortKeyed<T(==)>(xs: seq<Keyed<T>>, dir: SortDirection): (r: seq<Keyed<T>>)
    ensures Sorted(r, dir)
    ensures multiset(r) == multiset(xs)
    ensures multiset(Items(r)) == multiset(Items(xs))
  {
    if xs == [] then []
    else
      assert xs == [xs[0]] + xs[1..];
      assert Items(xs) == [xs[0].item] + Items(xs[1..]);
      Insert(xs[0], SortKeyed(xs[1..], dir), dir)
  }

  /** Pairs every entity with the key `key` gives it. */
  function Tag<T>(items: seq<T>, key: T -> SortKey): (r: seq<Keyed<T>>)
    ensures Items(r) == items
    ensures forall i :: 0 <= i < |r| ==> r[i].key == key(r[i].item)
  {
    if items == [] then [] else [Keyed(key(items[0]), items[0])] + Tag(items[1..], key)
  }

  /** Sorts `items` by `key` in direction `dir`: the result holds the same
      entities, as often as `items` does, ordered by their keys. */
  function SortBy<T(==)>(items: seq<T>, key: T -> SortKey, dir: SortDirection): (r: seq<T>)
    ensures multiset(r) == multiset(items)
    ensures forall i, j :: 0 <= i < j < |r| ==> InOrder(key(r[i]), key(r[j]), dir)
  {
    var sorted := SortKeyed(Tag(items, key), dir);
    KeysKept(Tag(items, key), sorted, key);
    Items(sorted)
  }

  /** A permutation of a correctly keyed sequence is correctly keyed. */
  lemma KeysKept<T>(xs: seq<Keyed<T>>, ys: seq<Keyed<T>>, key: T -> SortKey)
    requires forall i :: 0 <= i < |xs| ==> xs[i].key == key(xs[i].item)
    requires multiset(ys) == multiset(xs)
    ensures forall i :: 0 <= i < |ys| ==> ys[i].key == key(ys[i].item)
  {
    forall i | 0 <= i < |ys| ensures ys[i].key == key(ys[i].item) {
      assert ys[i] in multiset(xs);
      var j :| 0 <= j < |xs| && xs[j] == ys[i];
    }
  }
}

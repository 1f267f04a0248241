/** Python's built-in `sorted(xs, key=..., reverse=...)`, through which every
    report table of the checker is ordered: a stable sort by a key.  It is a
    library call in the source, so it is modelled as a function (a stable
    insertion sort) together with the three facts the reports rely on: the
    result is a permutation, it is ordered by the key, and elements with
    equal keys keep their input order. */
module Sorting {
  import opened Text

  /** A sort key.  The reports sort by strings (compared code point by code
      point, a proper prefix first) and by integers read with `int(...)`; one
      sort never compares a string with an integer. */
  datatype Key = Str(s: string) | Num(n: int)

  /** Python's `<=` on strings. */
  predicate StrLe(a: string, b: string)
    decreases |a|
  {
    a == [] || (b != [] && (a[0] < b[0] || (a[0] == b[0] && StrLe(a[1..], b[1..]))))
  }

  /** The order on keys: strings among themselves, integers among
      themselves (and, to make it total, every string before every integer). */
  predicate KeyLe(a: Key, b: Key)
  {
    match (a, b)
    case (Str(x), Str(y)) => StrLe(x, y)
    case (Num(x), Num(y)) => x <= y
    case (Str(_), Num(_)) => true
    case (Num(_), Str(_)) => false
  }

  /** `a` may come before `b`: ascending, or descending for `reverse=True`. */
  predicate Before(desc: bool, a: Key, b: Key)
  {
    if desc then KeyLe(b, a) else KeyLe(a, b)
  }

  // ---------------------------------------------------------------------
  // The key order is a total order

  lemma {:induction false} StrLeTotal(a: string, b: string)
    ensures StrLe(a, b) || StrLe(b, a)
    decreases |a|
  {
    if a != [] && b != [] && a[0] == b[0] {
      StrLeTotal(a[1..], b[1..]);
    }
  }

  lemma {:induction false} StrLeAntisym(a: string, b: string)
    requires StrLe(a, b) && StrLe(b, a)
    ensures a == b
    decreases |a|
  {
    if a != [] {
      StrLeAntisym(a[1..], b[1..]);
      assert a == [a[0]] + a[1..];
      assert b == [b[0]] + b[1..];
    }
  }

  lemma {:induction false} StrLeTrans(a: string, b: string, c: string)
    requires StrLe(a, b) && StrLe(b, c)
    ensures StrLe(a, c)
    decreases |a|
  {
    if a != [] && a[0] == b[0] && b[0] == c[0] {
      StrLeTrans(a[1..], b[1..], c[1..]);
    }
  }

  lemma BeforeTotal(desc: bool, a: Key, b: Key)
    ensures Before(desc, a, b) || Before(desc, b, a)
  {
    if a.Str? && b.Str? {
      StrLeTotal(a.s, b.s);
    }
  }

  lemma BeforeAntisym(desc: bool, a: Key, b: Key)
    requires Before(desc, a, b) && Before(desc, b, a)
    ensures a == b
  {
    if a.Str? && b.Str? {
      StrLeAntisym(a.s, b.s);
    }
  }

  lemma BeforeTrans(desc: bool, a: Key, b: Key, c: Key)
    requires Before(desc, a, b) && Before(desc, b, c)
    ensures Before(desc, a, c)
  {
    if a.Str? && b.Str? && c.Str? {
      if desc {
        StrLeTrans(c.s, b.s, a.s);
      } else {
        StrLeTrans(a.s, b.s, c.s);
      }
    }
  }

  // ---------------------------------------------------------------------
  // The sort

  /** Inserts `x` after every element of `ys` whose key may precede it. */
  function Insert<T>(key: T -> Key, desc: bool, ys: seq<T>, x: T): (r: seq<T>)
    ensures |r| == |ys| + 1
    ensures multiset(r) == multiset(ys) + multiset{x}
  {
    if ys == [] || Before(desc, key(ys[|ys| - 1]), key(x)) then ys + [x]
    else
      assert ys == ys[..|ys| - 1] + [ys[|ys| - 1]];
      Insert(key, desc, ys[..|ys| - 1], x) + [ys[|ys| - 1]]
  }

  /** `sorted(s, key=key, reverse=desc)`. */
  function SortBy<T>(key: T -> Key, desc: bool, s: seq<T>): (r: seq<T>)
    ensures |r| == |s|
    ensures multiset(r) == multiset(s)
  {
    if s == [] then []
    else
      assert s == s[..|s| - 1] + [s[|s| - 1]];
      Insert(key, desc, SortBy(key, desc, s[..|s| - 1]), s[|s| - 1])
  }

  // ---------------------------------------------------------------------
  // Ordered, with ties broken by the input order

  /** Every element of `s` is related by `rel` to every later one. */
  ghost predicate Chain<T>(rel: (T, T) -> bool, s: seq<T>)
  {
    forall i, j :: 0 <= i < j < |s| ==> rel(s[i], s[j])
  }

  /** The order "by `key`, and among equal keys by `tie`". */
  function ThenBy<T>(key: T -> Key, desc: bool, tie: (T, T) -> bool): (T, T) -> bool
  {
    (a, b) => Before(desc, key(a), key(b)) && (key(a) == key(b) ==> tie(a, b))
  }

  /** The relation every pair satisfies: the order of an unsorted input. */
  function Anything<T>(): (T, T) -> bool
  {
    (a, b) => true
  }

  lemma ChainSnoc<T>(rel: (T, T) -> bool, a: seq<T>, b: T)
    requires Chain(rel, a)
    requires forall z :: z in a ==> rel(z, b)
    ensures Chain(rel, a + [b])
  {
    forall i, j | 0 <= i < j < |a| + 1
      ensures rel((a + [b])[i], (a + [b])[j])
    {
      if j == |a| {
        assert (a + [b])[i] in a;
      }
    }
  }

  lemma {:induction false} InsertChain<T>(key: T -> Key, desc: bool, tie: (T, T) -> bool, ys: seq<T>, x: T)
    requires Chain(ThenBy(key, desc, tie), ys)
    requires forall y :: y in ys && key(y) == key(x) ==> tie(y, x)
    ensures Chain(ThenBy(key, desc, tie), Insert(key, desc, ys, x))
  {
    var rel := ThenBy(key, desc, tie);
    if ys == [] || Before(desc, key(ys[|ys| - 1]), key(x)) {
      forall z | z in ys
        ensures rel(z, x)
      {
        var i :| 0 <= i < |ys| && ys[i] == z;
        if i < |ys| - 1 {
          BeforeTrans(desc, key(z), key(ys[|ys| - 1]), key(x));
        }
      }
      ChainSnoc(rel, ys, x);
    } else {
      var init, last := ys[..|ys| - 1], ys[|ys| - 1];
      BeforeTotal(desc, key(last), key(x));
      BeforeTotal(desc, key(x), key(x));
      InsertChain(key, desc, tie, init, x);
      var a := Insert(key, desc, init, x);
      forall z | z in a
        ensures rel(z, last)
      {
        assert z in multiset(a);
        if z != x {
          assert z in multiset(init);
          var i :| 0 <= i < |init| && init[i] == z;
          assert ys[i] == z;
        }
      }
      ChainSnoc(rel, a, last);
    }
  }

  /** Sorting an input already ordered by `tie` gives the order "by the key,
      then by `tie`": this is how the reports' successive sorts combine into
      one ordering on several columns. */
  lemma {:induction false} SortChain<T>(key: T -> Key, desc: bool, tie: (T, T) -> bool, s: seq<T>)
    requires Chain(tie, s)
    ensures Chain(ThenBy(key, desc, tie), SortBy(key, desc, s))
  {
    if s != [] {
      var init, last := s[..|s| - 1], s[|s| - 1];
      assert Chain(tie, init);
      SortChain(key, desc, tie, init);
      forall y | y in SortBy(key, desc, init)
        ensures tie(y, last)
      {
        assert y in multiset(SortBy(key, desc, init));
        assert y in multiset(init);
        var i :| 0 <= i < |init| && init[i] == y;
        assert s[i] == y;
      }
      InsertChain(key, desc, tie, SortBy(key, desc, init), last);
    }
  }

  /** The result is ordered by the key. */
  lemma SortOrdered<T>(key: T -> Key, desc: bool, s: seq<T>)
    ensures forall i, j :: 0 <= i < j < |s| ==>
      Before(desc, key(SortBy(key, desc, s)[i]), key(SortBy(key, desc, s)[j]))
  {
    SortChain(key, desc, Anything(), s);
  }

  // ---------------------------------------------------------------------
  // Stability

  /** The elements satisfying `p`, in order. */
  function Filter<A>(p: A -> bool, xs: seq<A>): (r: seq<A>)
    ensures |r| <= |xs|
  {
    if xs == [] then []
    else Filter(p, xs[..|xs| - 1]) + (if p(xs[|xs| - 1]) then [xs[|xs| - 1]] else [])
  }

  /** Exactly the elements satisfying `p` are kept. */
  lemma {:induction false} FilterSpec<A>(p: A -> bool, xs: seq<A>)
    ensures forall x :: x in Filter(p, xs) <==> x in xs && p(x)
  {
    if xs != [] {
      FilterSpec(p, xs[..|xs| - 1]);
      SnocTake(xs);
    }
  }

  lemma FilterSnoc<T>(p: T -> bool, a: seq<T>, b: T)
    ensures Filter(p, a + [b]) == Filter(p, a) + (if p(b) then [b] else [])
  {
    assert (a + [b])[..|a|] == a;
  }

  /** All the elements `p` selects have one and the same key. */
  ghost predicate OneKey<T(!new)>(p: T -> bool, key: T -> Key)
  {
    forall a, b :: p(a) && p(b) ==> key(a) == key(b)
  }

  lemma {:induction false} InsertFilter<T(!new)>(key: T -> Key, desc: bool, p: T -> bool, ys: seq<T>, x: T)
    requires OneKey(p, key)
    ensures Filter(p, Insert(key, desc, ys, x)) == Filter(p, ys) + (if p(x) then [x] else [])
  {
    if ys == [] || Before(desc, key(ys[|ys| - 1]), key(x)) {
      FilterSnoc(p, ys, x);
    } else {
      var init, last := ys[..|ys| - 1], ys[|ys| - 1];
      BeforeTotal(desc, key(x), key(x));
      InsertFilter(key, desc, p, init, x);
      FilterSnoc(p, Insert(key, desc, init, x), last);
      assert ys == init + [last];
      FilterSnoc(p, init, last);
      assert key(x) != key(last);
      var fx := if p(x) then [x] else [];
      var fl := if p(last) then [last] else [];
      assert fx == [] || fl == [];
      assert fx + fl == fl + fx;
      AppendAssoc(Filter(p, init), fx, fl);
      AppendAssoc(Filter(p, init), fl, fx);
    }
  }

  /** `sorted` is stable: elements that share a key appear in the result in
      the order they had in the input.  `p` selects any group of elements
      with one key, such as the elements with a given key, or those that
      also agree on the keys of earlier sorts. */
  lemma {:induction false} SortStable<T(!new)>(key: T -> Key, desc: bool, p: T -> bool, s: seq<T>)
    requires OneKey(p, key)
    ensures Filter(p, SortBy(key, desc, s)) == Filter(p, s)
  {
    if s != [] {
      var init, last := s[..|s| - 1], s[|s| - 1];
      SortStable(key, desc, p, init);
      InsertFilter(key, desc, p, SortBy(key, desc, init), last);
    }
  }
}

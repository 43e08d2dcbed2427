/**
 * The array idioms the list pages share: `filter`, a descending `sort` by a
 * numeric key, `slice(0, n)` and the `forEach`/`push` grouping into a
 * dictionary of arrays.
 */
module Collections {
  import opened Optional

  // ---------------------------------------------------------------------------
  // filter

  /** `xs.filter(p)`: the elements satisfying `p`, in their input order. */
  function Filter<T(!new)>(xs: seq<T>, p: T -> bool): (r: seq<T>)
    ensures |r| <= |xs|
    ensures forall x :: x in r <==> x in xs && p(x)
  {
    if xs == [] then []
    else
      var init, last := xs[..|xs| - 1], xs[|xs| - 1];
      assert xs == init + [last];
      if p(last) then Filter(init, p) + [last] else Filter(init, p)
  }

  /** Filtering distributes over concatenation. */
  lemma {:induction false} FilterAppend<T(!new)>(xs: seq<T>, ys: seq<T>, p: T -> bool)
    ensures Filter(xs + ys, p) == Filter(xs, p) + Filter(ys, p)
    decreases |ys|
  {
    if ys == [] {
      assert xs + ys == xs;
    } else {
      var init, last := ys[..|ys| - 1], ys[|ys| - 1];
      assert ys == init + [last];
      assert xs + ys == (xs + init) + [last];
      FilterAppend(xs, init, p);
    }
  }

  /** A filter keeps every element it passes as often as it occurs. */
  lemma {:induction false} FilterMultiplicity<T(!new)>(xs: seq<T>, p: T -> bool, x: T)
    requires p(x)
    ensures multiset(Filter(xs, p))[x] == multiset(xs)[x]
    decreases |xs|
  {
    if xs != [] {
      var init, last := xs[..|xs| - 1], xs[|xs| - 1];
      assert xs == init + [last];
      FilterMultiplicity(init, p, x);
    }
  }

  /** A filter no element passes keeps nothing. */
  lemma {:induction false} FilterNone<T(!new)>(xs: seq<T>, p: T -> bool)
    requires forall x :: x in xs ==> !p(x)
    ensures Filter(xs, p) == []
    decreases |xs|
  {
    if xs != [] {
      var init := xs[..|xs| - 1];
      assert forall x :: x in init ==> x in xs;
      FilterNone(init, p);
    }
  }

  /** A filter every element passes keeps the whole sequence. */
  lemma {:induction false} FilterKeepsAll<T(!new)>(xs: seq<T>, p: T -> bool)
    requires forall i :: 0 <= i < |xs| ==> p(xs[i])
    ensures Filter(xs, p) == xs
    decreases |xs|
  {
    if xs != [] {
      var init, last := xs[..|xs| - 1], xs[|xs| - 1];
      assert p(last);
      assert Filter(xs, p) == Filter(init, p) + [last];
      FilterKeepsAll(init, p);
      assert xs == init + [last];
    }
  }

  // ---------------------------------------------------------------------------
  // sort, most recent first

  /** Every element's key is at least that of every later element. */
  predicate SortedDesc<T>(s: seq<T>, key: T -> int)
  {
    forall i, j :: 0 <= i < j < |s| ==> key(s[i]) >= key(s[j])
  }

  /** Inserts `x` in front of the first element whose key is not greater than its own. */
  function Insert<T>(x: T, s: seq<T>, key: T -> int): (r: seq<T>)
    requires SortedDesc(s, key)
    ensures SortedDesc(r, key)
    ensures multiset(r) == multiset(s) + multiset{x}
    ensures |r| == |s| + 1 && (r[0] == x || (s != [] && r[0] == s[0]))
  {
    if s == [] || key(x) >= key(s[0]) then [x] + s
    else
      assert s == [s[0]] + s[1..];
      [s[0]] + Insert(x, s[1..], key)
  }

  /**
   * `sort((a, b) => key(b) - key(a))`: the elements in descending key order.
   * Elements with equal keys keep their input order, as JavaScript's stable
   * sort keeps them.
   */
  function SortDesc<T>(xs: seq<T>, key: T -> int): (r: seq<T>)
    ensures SortedDesc(r, key)
    ensures multiset(r) == multiset(xs)
    ensures |r| == |xs|
  {
    if xs == [] then []
    else
      assert xs == [xs[0]] + xs[1..];
      Insert(xs[0], SortDesc(xs[1..], key), key)
  }

  // ---------------------------------------------------------------------------
  // slice(0, n)

  /** `s.slice(0, n)`: the first `n` elements, or all of them when there are fewer. */
  function Take<T>(s: seq<T>, n: nat): (r: seq<T>)
    ensures |r| == if |s| < n then |s| else n
    ensures forall i :: 0 <= i < |r| ==> r[i] == s[i]
  {
    if |s| <= n then s else s[..n]
  }

  // ---------------------------------------------------------------------------
  // forEach / push grouping

  /**
   * A dictionary of arrays together with its keys in insertion order (the
   * order `Object.keys` lists non-numeric keys in).
   */
  datatype Groups<K, T> = Groups(byKey: map<K, seq<T>>, order: seq<K>)

  /** The elements `key` files under `k`. */
  function HasKey<T(!new), K(==)>(key: T -> Option<K>, k: K): T -> bool
  {
    x => key(x) == Some(k)
  }

  /** The elements `key` files under some key. */
  function Keyed<T, K>(key: T -> Option<K>): T -> bool
  {
    x => key(x).Some?
  }

  /**
   * The dictionary the grouping loop builds: each element whose key is
   * `Some(k)` is pushed onto the array under `k`, which is created (and its
   * key appended to the order) on first use; an element without a key is
   * skipped.
   */
  function GroupAll<T(!new), K(==)>(xs: seq<T>, key: T -> Option<K>): Groups<K, T>
  {
    if xs == [] then Groups(map[], [])
    else
      var g := GroupAll(xs[..|xs| - 1], key);
      var x := xs[|xs| - 1];
      match key(x)
      case None => g
      case Some(k) =>
        if k in g.byKey then Groups(g.byKey[k := g.byKey[k] + [x]], g.order)
        else Groups(g.byKey[k := [x]], g.order + [k])
  }

  /**
   * The grouping loop (`forEach` with `if (!grouped[k]) grouped[k] = [];
   * grouped[k].push(x)`).
   */
  method GroupBy<T(!new), K(==)>(xs: seq<T>, key: T -> Option<K>) returns (byKey: map<K, seq<T>>, order: seq<K>)
    ensures Groups(byKey, order) == GroupAll(xs, key)
    ensures forall k :: k in byKey <==> exists x :: x in xs && key(x) == Some(k)
    ensures forall k :: k in byKey ==> byKey[k] == Filter(xs, HasKey(key, k))
  {
    byKey, order := map[], [];
    var i := 0;
    while i < |xs|
      invariant 0 <= i <= |xs|
      invariant Groups(byKey, order) == GroupAll(xs[..i], key)
    {
      var x := xs[i];
      assert xs[..i + 1][..i] == xs[..i];
      match key(x) {
        case None =>
        case Some(k) =>
          // a new key starts an empty array, then the element is pushed
          if k in byKey {
            byKey := byKey[k := byKey[k] + [x]];
          } else {
            byKey := byKey[k := [x]];
            order := order + [k];
          }
      }
      i := i + 1;
    }
    assert xs[..|xs|] == xs;
    GroupAllShape(xs, key);
  }

  /**
   * What the grouping builds: its keys are exactly the keys some element
   * has, the order lists each of them once, and each group holds exactly
   * the elements with its key, in input order.
   */
  lemma {:induction false} GroupAllShape<T(!new), K>(xs: seq<T>, key: T -> Option<K>)
    ensures forall k :: k in GroupAll(xs, key).byKey <==> k in GroupAll(xs, key).order
    ensures Distinct(GroupAll(xs, key).order)
    ensures forall k :: k in GroupAll(xs, key).byKey <==> exists x :: x in xs && key(x) == Some(k)
    ensures forall k :: k in GroupAll(xs, key).byKey ==> GroupAll(xs, key).byKey[k] == Filter(xs, HasKey(key, k))
    decreases |xs|
  {
    if xs != [] {
      var init, x := xs[..|xs| - 1], xs[|xs| - 1];
      assert xs == init + [x];
      GroupAllShape(init, key);
      var g0 := GroupAll(init, key);
      var g := GroupAll(xs, key);
      match key(x) {
        case None =>
        case Some(k) =>
          if k !in g0.byKey {
            assert k !in g0.order;
            assert g.order == g0.order + [k];
            forall i, j | 0 <= i < j < |g.order|
              ensures g.order[i] != g.order[j]
            {
              assert g.order[i] == g0.order[i] && g0.order[i] in g0.order;
              if j < |g0.order| {
                assert g.order[j] == g0.order[j];
                assert Distinct(g0.order);
              }
            }
          }
      }
      forall k | true
        ensures k in g.byKey <==> exists y :: y in xs && key(y) == Some(k)
      {
        if k in g.byKey && !(k in g0.byKey) {
          assert key(x) == Some(k);
        }
        if (exists y :: y in xs && key(y) == Some(k)) && key(x) != Some(k) {
          var y :| y in xs && key(y) == Some(k);
          assert y in init;
        }
      }
      forall k | k in g.byKey
        ensures g.byKey[k] == Filter(xs, HasKey(key, k))
      {
        assert Filter(xs, HasKey(key, k)) ==
               if HasKey(key, k)(x) then Filter(init, HasKey(key, k)) + [x] else Filter(init, HasKey(key, k));
        if key(x) == Some(k) && k !in g0.byKey {
          FilterNone(init, HasKey(key, k));
        }
      }
    }
  }

  /** No key is listed twice. */
  predicate Distinct<K(==)>(s: seq<K>)
  {
    forall i, j :: 0 <= i < j < |s| ==> s[i] != s[j]
  }

  /** The total size of the groups listed in `order`. */
  function SumSizes<K, T>(byKey: map<K, seq<T>>, order: seq<K>): nat
    requires forall k :: k in order ==> k in byKey
  {
    if order == [] then 0
    else SumSizes(byKey, order[..|order| - 1]) + |byKey[order[|order| - 1]]|
  }

  /** Changing a group whose key is not listed does not change the sum. */
  lemma {:induction false} SumSizesUnlisted<K, T>(byKey: map<K, seq<T>>, order: seq<K>, k: K, v: seq<T>)
    requires forall j :: j in order ==> j in byKey
    requires k !in order
    ensures SumSizes(byKey[k := v], order) == SumSizes(byKey, order)
    decreases |order|
  {
    if order != [] {
      assert order == order[..|order| - 1] + [order[|order| - 1]];
      SumSizesUnlisted(byKey, order[..|order| - 1], k, v);
    }
  }

  /** Replacing the group under a listed key changes the sum by the difference in size. */
  lemma {:induction false} SumSizesReplace<K, T>(byKey: map<K, seq<T>>, order: seq<K>, k: K, v: seq<T>)
    requires forall j :: j in order ==> j in byKey
    requires Distinct(order)
    requires k in order
    ensures SumSizes(byKey[k := v], order) + |byKey[k]| == SumSizes(byKey, order) + |v|
    decreases |order|
  {
    var init, last := order[..|order| - 1], order[|order| - 1];
    assert order == init + [last];
    if last == k {
      assert k !in init;
      SumSizesUnlisted(byKey, init, k, v);
    } else {
      SumSizesReplace(byKey, init, k, v);
    }
  }

  /** The group sizes add up to the number of elements that have a key. */
  lemma {:induction false} GroupSizesSum<T(!new), K>(xs: seq<T>, key: T -> Option<K>)
    ensures var g := GroupAll(xs, key);
            (forall k :: k in g.order ==> k in g.byKey) &&
            SumSizes(g.byKey, g.order) == |Filter(xs, Keyed(key))|
    decreases |xs|
  {
    GroupAllShape(xs, key);
    if xs != [] {
      var init, x := xs[..|xs| - 1], xs[|xs| - 1];
      assert xs == init + [x];
      GroupSizesSum(init, key);
      GroupAllShape(init, key);
      var g0 := GroupAll(init, key);
      match key(x)
      case None =>
      case Some(k) =>
        if k in g0.byKey {
          SumSizesReplace(g0.byKey, g0.order, k, g0.byKey[k] + [x]);
        } else {
          SumSizesUnlisted(g0.byKey, g0.order, k, [x]);
          var g := GroupAll(xs, key);
          assert g.order[..|g.order| - 1] == g0.order;
        }
    }
  }
}

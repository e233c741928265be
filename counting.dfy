/**
 * Counting over rows: the SQL `count(case when ... then 1 end)` of one group, the distinct
 * keys of a GROUP BY, and the fact that the per-group counts add up to the whole; and the
 * choice of an arbitrary element, for loops over a dictionary's keys.
 */
module Counting {

  /** How many elements satisfy `p`. */
  function Count<T>(xs: seq<T>, p: T -> bool): (n: nat)
    ensures n <= |xs|
    decreases |xs|
  {
    if xs == [] then 0 else Count(xs[..|xs| - 1], p) + (if p(xs[|xs| - 1]) then 1 else 0)
  }

  /** The elements satisfying `p`, in their order. */
  function Where<T>(xs: seq<T>, p: T -> bool): (r: seq<T>)
    ensures |r| == Count(xs, p)
    ensures forall i :: 0 <= i < |r| ==> p(r[i])
    decreases |xs|
  {
    if xs == [] then []
    else
      var init := Where(xs[..|xs| - 1], p);
      if p(xs[|xs| - 1]) then init + [xs[|xs| - 1]] else init
  }

  /** Filtering depends only on the values the predicate gives on the elements. */
  lemma {:induction false} WhereExt<T>(xs: seq<T>, p: T -> bool, q: T -> bool)
    requires forall i :: 0 <= i < |xs| ==> p(xs[i]) == q(xs[i])
    ensures Where(xs, p) == Where(xs, q)
    decreases |xs|
  {
    if xs != [] {
      WhereExt(xs[..|xs| - 1], p, q);
    }
  }

  /** An element of a filtered sequence comes from the original one. */
  lemma {:induction false} WhereSubset<T>(xs: seq<T>, p: T -> bool, i: nat)
    requires i < |Where(xs, p)|
    ensures Where(xs, p)[i] in xs
    decreases |xs|
  {
    var init := xs[..|xs| - 1];
    if i < |Where(init, p)| {
      WhereSubset(init, p, i);
      assert init[..] <= xs;
    }
  }

  /** An element satisfying `p` is kept by the filter. */
  lemma {:induction false} WhereKeeps<T>(xs: seq<T>, p: T -> bool, i: nat)
    requires i < |xs| && p(xs[i])
    ensures xs[i] in Where(xs, p)
    decreases |xs|
  {
    var init := xs[..|xs| - 1];
    if i < |init| {
      assert init[i] == xs[i];
      WhereKeeps(init, p, i);
    }
  }

  /** The count is positive exactly when some element satisfies `p`. */
  lemma {:induction false} CountPositive<T>(xs: seq<T>, p: T -> bool)
    ensures Count(xs, p) > 0 <==> exists i :: 0 <= i < |xs| && p(xs[i])
    decreases |xs|
  {
    if xs != [] {
      var init := xs[..|xs| - 1];
      CountPositive(init, p);
      if exists i :: 0 <= i < |init| && p(init[i]) {
        var i :| 0 <= i < |init| && p(init[i]);
        assert xs[i] == init[i];
      }
      if exists i :: 0 <= i < |xs| && p(xs[i]) {
        var i :| 0 <= i < |xs| && p(xs[i]);
        if i < |init| {
          assert init[i] == xs[i];
        }
      }
    }
  }

  /** Counting depends only on the values the predicate gives on the elements. */
  lemma {:induction false} CountExt<T>(xs: seq<T>, p: T -> bool, q: T -> bool)
    requires forall i :: 0 <= i < |xs| ==> p(xs[i]) == q(xs[i])
    ensures Count(xs, p) == Count(xs, q)
    decreases |xs|
  {
    if xs != [] {
      CountExt(xs[..|xs| - 1], p, q);
    }
  }

  /** Nothing satisfies `p`: the count is zero. */
  lemma {:induction false} CountNone<T>(xs: seq<T>, p: T -> bool)
    requires forall i :: 0 <= i < |xs| ==> !p(xs[i])
    ensures Count(xs, p) == 0
    decreases |xs|
  {
    if xs != [] {
      CountNone(xs[..|xs| - 1], p);
    }
  }

  /** Counting over a concatenation adds the two counts. */
  lemma {:induction false} CountAppend<T>(xs: seq<T>, ys: seq<T>, p: T -> bool)
    ensures Count(xs + ys, p) == Count(xs, p) + Count(ys, p)
    decreases |ys|
  {
    if ys == [] {
      assert xs + ys == xs;
    } else {
      var init := ys[..|ys| - 1];
      assert (xs + ys)[..|xs + ys| - 1] == xs + init;
      assert (xs + ys)[|xs + ys| - 1] == ys[|ys| - 1];
      CountAppend(xs, init, p);
    }
  }

  /** Counting two disjoint cases of a predicate adds up to counting it. */
  lemma {:induction false} CountSplit<T>(xs: seq<T>, p: T -> bool, yes: T -> bool, no: T -> bool)
    requires forall x :: p(x) == (yes(x) || no(x)) && !(yes(x) && no(x))
    ensures Count(xs, p) == Count(xs, yes) + Count(xs, no)
    decreases |xs|
  {
    if xs != [] {
      CountSplit(xs[..|xs| - 1], p, yes, no);
    }
  }

  /** The keys of a GROUP BY: each key once, in order of first appearance. */
  function Distinct<K(==)>(ks: seq<K>): (d: seq<K>)
    ensures forall i :: 0 <= i < |ks| ==> ks[i] in d
    ensures forall i :: 0 <= i < |d| ==> d[i] in ks
    ensures forall i, j :: 0 <= i < j < |d| ==> d[i] != d[j]
    decreases |ks|
  {
    if ks == [] then []
    else
      var d := Distinct(ks[..|ks| - 1]);
      assert forall i :: 0 <= i < |ks| - 1 ==> ks[..|ks| - 1][i] == ks[i];
      if ks[|ks| - 1] in d then d else d + [ks[|ks| - 1]]
  }

  /** The key of every element. */
  function Keys<T, K>(xs: seq<T>, key: T -> K): (ks: seq<K>)
    ensures |ks| == |xs| && forall i :: 0 <= i < |xs| ==> ks[i] == key(xs[i])
  {
    seq(|xs|, i requires 0 <= i < |xs| => key(xs[i]))
  }

  /** The sum of `f` over a sequence of keys. */
  function SumOf<K>(ks: seq<K>, f: K -> int): int
    decreases |ks|
  {
    if ks == [] then 0 else SumOf(ks[..|ks| - 1], f) + f(ks[|ks| - 1])
  }

  lemma {:induction false} SumOfExt<K>(ks: seq<K>, f: K -> int, g: K -> int)
    requires forall i :: 0 <= i < |ks| ==> f(ks[i]) == g(ks[i])
    ensures SumOf(ks, f) == SumOf(ks, g)
    decreases |ks|
  {
    if ks != [] {
      SumOfExt(ks[..|ks| - 1], f, g);
    }
  }

  lemma {:induction false} SumOfZero<K>(ks: seq<K>)
    ensures SumOf(ks, k => 0) == 0
    decreases |ks|
  {
    if ks != [] {
      SumOfZero(ks[..|ks| - 1]);
    }
  }

  lemma {:induction false} SumOfAdd<K>(ks: seq<K>, h: K -> int, f: K -> int, g: K -> int)
    requires forall i :: 0 <= i < |ks| ==> h(ks[i]) == f(ks[i]) + g(ks[i])
    ensures SumOf(ks, h) == SumOf(ks, f) + SumOf(ks, g)
    decreases |ks|
  {
    if ks != [] {
      SumOfAdd(ks[..|ks| - 1], h, f, g);
    }
  }

  /** Summing an indicator of one key over distinct keys picks out that key's value, if present. */
  lemma {:induction false} SumOfIndicator<K>(ks: seq<K>, c: K, v: int)
    requires forall i, j :: 0 <= i < j < |ks| ==> ks[i] != ks[j]
    ensures SumOf(ks, k => if k == c then v else 0) == if c in ks then v else 0
    decreases |ks|
  {
    if ks != [] {
      var init := ks[..|ks| - 1];
      SumOfIndicator(init, c, v);
      assert c in ks <==> c in init || c == ks[|ks| - 1];
      if c == ks[|ks| - 1] {
        assert forall i :: 0 <= i < |init| ==> init[i] == ks[i] != c;
      }
    }
  }

  /** The sum of a vector's entries. */
  function Total(v: seq<int>): int
    decreases |v|
  {
    if v == [] then 0 else Total(v[..|v| - 1]) + v[|v| - 1]
  }

  /** A vector holding `f` of each key sums to the sum of `f` over the keys. */
  lemma {:induction false} TotalIsSumOf<K>(ks: seq<K>, f: K -> int, v: seq<int>)
    requires |v| == |ks| && forall i :: 0 <= i < |ks| ==> v[i] == f(ks[i])
    ensures Total(v) == SumOf(ks, f)
    decreases |ks|
  {
    if ks != [] {
      TotalIsSumOf(ks[..|ks| - 1], f, v[..|v| - 1]);
    }
  }

  /**
   * The GROUP BY partition: over distinct keys that cover every element, the per-key
   * counts of `p` add up to the count of `p`. `pk(k)` is "key k and p", and `f(k)` its count.
   */
  lemma {:induction false} CountPartition<T, K>(xs: seq<T>, key: T -> K, ks: seq<K>, p: T -> bool,
                                                pk: K -> T -> bool, f: K -> int)
    requires forall i, j :: 0 <= i < j < |ks| ==> ks[i] != ks[j]
    requires forall i :: 0 <= i < |xs| ==> key(xs[i]) in ks
    requires forall k, x :: pk(k)(x) == (key(x) == k && p(x))
    requires forall k :: f(k) == Count(xs, pk(k))
    ensures SumOf(ks, f) == Count(xs, p)
    decreases |xs|
  {
    if xs == [] {
      SumOfExt(ks, f, k => 0);
      SumOfZero(ks);
    } else {
      var init := xs[..|xs| - 1];
      var last := xs[|xs| - 1];
      var fi := k => Count(init, pk(k));
      CountPartition(init, key, ks, p, pk, fi);
      var v := if p(last) then 1 else 0;
      var g := k => if k == key(last) then v else 0;
      forall i | 0 <= i < |ks| ensures f(ks[i]) == fi(ks[i]) + g(ks[i]) {
        assert Count(xs, pk(ks[i])) == Count(init, pk(ks[i])) + (if pk(ks[i])(last) then 1 else 0);
      }
      SumOfAdd(ks, f, fi, g);
      SumOfIndicator(ks, key(last), v);
      assert Count(xs, p) == Count(init, p) + v;
    }
  }

  /** The set of keys that occur, as a loop adding each element's key to a set builds it. */
  function Image<T, K>(xs: seq<T>, key: T -> K): set<K>
    decreases |xs|
  {
    if xs == [] then {} else Image(xs[..|xs| - 1], key) + {key(xs[|xs| - 1])}
  }

  /** A key is in the image exactly when some element has it. */
  lemma {:induction false} ImageIff<T, K>(xs: seq<T>, key: T -> K, k: K)
    ensures k in Image(xs, key) <==> exists i :: 0 <= i < |xs| && key(xs[i]) == k
    decreases |xs|
  {
    if xs != [] {
      var init := xs[..|xs| - 1];
      ImageIff(init, key, k);
      if exists i :: 0 <= i < |init| && key(init[i]) == k {
        var i :| 0 <= i < |init| && key(init[i]) == k;
        assert xs[i] == init[i];
      }
      if exists i :: 0 <= i < |xs| && key(xs[i]) == k {
        var i :| 0 <= i < |xs| && key(xs[i]) == k;
        if i < |init| {
          assert init[i] == xs[i];
        }
      }
    }
  }

  // ------------------------------------------------------------- choosing from a set

  /** Some element of a set that is not empty. */
  method Pick<T>(s: set<T>) returns (x: T)
    requires s != {}
    ensures x in s
  {
    x :| x in s;
  }

  /** Some element of a set that is not empty, for proofs. */
  ghost function Elem<T>(s: set<T>): (x: T)
    requires s != {}
    ensures x in s
  {
    var x :| x in s; x
  }
}

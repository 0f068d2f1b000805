/** The array operations the foreground event assembly relies on, stated on
    sequences: boolean-mask indexing (`a[mask]`), `mask.sum()`,
    `v * np.ones(n)` and `np.concatenate` of a list of arrays. */
module ArrayOps {

  /** `mask.sum()`: the number of true entries of a mask. */
  function Count(m: seq<bool>): (n: nat)
    ensures n <= |m|
  {
    if |m| == 0 then 0
    else Count(m[..|m| - 1]) + (if m[|m| - 1] then 1 else 0)
  }

  /** `xs[mask]`: the entries of `xs` whose mask entry is true. */
  function MaskSelect<T>(xs: seq<T>, m: seq<bool>): (r: seq<T>)
    requires |m| == |xs|
    ensures |r| == Count(m)
  {
    if |xs| == 0 then []
    else MaskSelect(xs[..|xs| - 1], m[..|m| - 1]) + (if m[|m| - 1] then [xs[|xs| - 1]] else [])
  }

  /** The indices at which a mask is true, in increasing order. */
  function Positions(m: seq<bool>): (r: seq<nat>)
    ensures |r| == Count(m)
    ensures forall j :: 0 <= j < |r| ==> r[j] < |m| && m[r[j]]
  {
    if |m| == 0 then []
    else Positions(m[..|m| - 1]) + (if m[|m| - 1] then [|m| - 1] else [])
  }

  predicate StrictlyIncreasing(s: seq<nat>)
  {
    forall j, l :: 0 <= j < l < |s| ==> s[j] < s[l]
  }

  /** `v * np.ones(n)`: n copies of v. */
  function Fill(n: nat, v: real): (r: seq<real>)
    ensures |r| == n
  {
    seq(n, _ => v)
  }

  /** Sum of a sequence of counts. */
  function Sum(ns: seq<nat>): nat
  {
    if |ns| == 0 then 0 else Sum(ns[..|ns| - 1]) + ns[|ns| - 1]
  }

  /** The length of each array of a list. */
  function Lengths<T>(xss: seq<seq<T>>): (r: seq<nat>)
    ensures |r| == |xss|
    // the element facts, stated so that callers get them without unfolding
    ensures forall j :: 0 <= j < |xss| ==> r[j] == |xss[j]|
  {
    seq(|xss|, j requires 0 <= j < |xss| => |xss[j]|)
  }

  /** The arrays of a list joined in order: what `np.concatenate(xss)`
      returns for a non-empty list (it refuses an empty one). */
  function Flatten<T>(xss: seq<seq<T>>): (r: seq<T>)
    ensures |r| == Sum(Lengths(xss))
  {
    if |xss| == 0 then []
    else
      assert Lengths(xss[..|xss| - 1]) == Lengths(xss)[..|xss| - 1];
      Flatten(xss[..|xss| - 1]) + xss[|xss| - 1]
  }

  /** The true entries of a mask are exactly the indices `Positions` lists,
      and it lists them in increasing order. */
  lemma {:induction false} PositionsExact(m: seq<bool>)
    ensures StrictlyIncreasing(Positions(m))
    ensures forall k :: 0 <= k < |m| ==> (m[k] <==> k in Positions(m))
  {
    if |m| > 0 {
      var init := m[..|m| - 1];
      PositionsExact(init);
      var p := Positions(init);
      assert Positions(m) == p + (if m[|m| - 1] then [|m| - 1] else []);
      forall k | 0 <= k < |m| - 1
        ensures m[k] <==> k in Positions(m)
      {
        assert m[k] == init[k];
      }
    }
  }

  /** A mask that is true everywhere selects every index. */
  lemma {:induction false} PositionsAllTrue(m: seq<bool>)
    requires forall k :: 0 <= k < |m| ==> m[k]
    ensures Positions(m) == seq(|m|, k requires 0 <= k < |m| => k)
  {
    if |m| > 0 {
      PositionsAllTrue(m[..|m| - 1]);
    }
  }

  /** Indexing with a mask that is true everywhere keeps the whole array. */
  lemma {:induction false} MaskSelectAllTrue<T>(xs: seq<T>, m: seq<bool>)
    requires |m| == |xs|
    requires forall k :: 0 <= k < |m| ==> m[k]
    ensures MaskSelect(xs, m) == xs
    ensures Count(m) == |m|
  {
    if |xs| > 0 {
      MaskSelectAllTrue(xs[..|xs| - 1], m[..|m| - 1]);
    }
  }

  /** Mask indexing keeps the entries at the mask's true positions, in order. */
  lemma {:induction false} MaskSelectAt<T>(xs: seq<T>, m: seq<bool>)
    requires |m| == |xs|
    ensures forall j :: 0 <= j < Count(m) ==> MaskSelect(xs, m)[j] == xs[Positions(m)[j]]
  {
    if |xs| > 0 {
      var n := |xs|;
      MaskSelectAt(xs[..n - 1], m[..n - 1]);
      forall j | 0 <= j < Count(m)
        ensures MaskSelect(xs, m)[j] == xs[Positions(m)[j]]
      {
        if j < Count(m[..n - 1]) {
          assert Positions(m[..n - 1])[j] < n - 1;
        }
      }
    }
  }

  /** A sum is zero exactly when every term is zero. */
  lemma {:induction false} SumZero(ns: seq<nat>)
    ensures Sum(ns) == 0 <==> forall j :: 0 <= j < |ns| ==> ns[j] == 0
  {
    if |ns| > 0 {
      SumZero(ns[..|ns| - 1]);
      assert forall j :: 0 <= j < |ns| - 1 ==> ns[..|ns| - 1][j] == ns[j];
    }
  }

  /** A prefix sum one term longer adds that term. */
  lemma {:induction false} SumPrefixStep(ns: seq<nat>, i: nat)
    requires i < |ns|
    ensures Sum(ns[..i + 1]) == Sum(ns[..i]) + ns[i]
  {
    assert ns[..i + 1][..i] == ns[..i];
  }

  /** Every position below a sum of counts falls in the span of some count:
      at or after the sum of the counts before it, and before that sum plus
      the count itself. */
  lemma {:induction false} SumLocate(ns: seq<nat>, p: nat)
    requires p < Sum(ns)
    ensures exists i: nat :: i < |ns| && Sum(ns[..i]) <= p < Sum(ns[..i]) + ns[i]
  {
    var n := |ns|;
    var init := ns[..n - 1];
    if p < Sum(init) {
      SumLocate(init, p);
      var i: nat :| i < |init| && Sum(init[..i]) <= p < Sum(init[..i]) + init[i];
      assert init[..i] == ns[..i];
    } else {
      assert ns[..n - 1] == init;
    }
  }

  /** Entry j of array i of a list sits, in the concatenation, after all
      entries of the arrays before it. */
  lemma {:induction false} FlattenAt<T>(xss: seq<seq<T>>, i: nat, j: nat)
    requires i < |xss| && j < |xss[i]|
    ensures Sum(Lengths(xss)[..i]) + j < |Flatten(xss)|
    ensures Flatten(xss)[Sum(Lengths(xss)[..i]) + j] == xss[i][j]
  {
    var n := |xss|;
    var init := xss[..n - 1];
    assert Lengths(init) == Lengths(xss)[..n - 1];
    assert Flatten(xss) == Flatten(init) + xss[n - 1];
    if i < n - 1 {
      FlattenAt(init, i, j);
      assert Lengths(init)[..i] == Lengths(xss)[..i];
    } else {
      assert Lengths(xss)[..i] == Lengths(init);
      assert Sum(Lengths(xss)[..i]) == |Flatten(init)|;
    }
  }

  /** Every entry of the concatenation is entry j of some array i of the list,
      placed after all entries of the arrays before it. */
  lemma {:induction false} FlattenLocate<T>(xss: seq<seq<T>>, p: nat)
    requires p < |Flatten(xss)|
    ensures exists i: nat, j: nat ::
              i < |xss| && j < |xss[i]| && p == Sum(Lengths(xss)[..i]) + j && Flatten(xss)[p] == xss[i][j]
  {
    var n := |xss|;
    var init := xss[..n - 1];
    assert Lengths(init) == Lengths(xss)[..n - 1];
    var i: nat, j: nat;
    if p < |Flatten(init)| {
      FlattenLocate(init, p);
      i, j :| i < |init| && j < |init[i]| && p == Sum(Lengths(init)[..i]) + j && Flatten(init)[p] == init[i][j];
      assert Lengths(init)[..i] == Lengths(xss)[..i];
    } else {
      i, j := n - 1, p - |Flatten(init)|;
      assert Lengths(xss)[..i] == Lengths(init);
    }
    FlattenAt(xss, i, j);
  }
}

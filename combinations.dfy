/**
 * `marker_trait_combinations`: every combination of the marker traits, built by doubling.
 * `Subsets` is the specification; the method builds the same list with the source's loops.
 */
module Combinations {
  import opened Text
  import opened MacroPaths

  /** One combination: its marker paths and its bound text (`M1 + M2 + ...`). */
  datatype Combination = Combination(paths: seq<Path>, tokens: string)

  function Pow2(n: nat): (r: nat)
    ensures r >= 1
  {
    if n == 0 then 1 else 2 * Pow2(n - 1)
  }

  function AppendEach<T>(cs: seq<seq<T>>, x: T): (r: seq<seq<T>>)
    ensures |r| == |cs| && forall i :: 0 <= i < |cs| ==> r[i] == cs[i] + [x]
  {
    seq(|cs|, i requires 0 <= i < |cs| => cs[i] + [x])
  }

  /** After marker `i` the list is the previous list followed by the previous list with `i` appended. */
  function Subsets<T>(ms: seq<T>): seq<seq<T>>
    decreases |ms|
  {
    if |ms| == 0 then [[]]
    else
      var prev := Subsets(ms[..|ms| - 1]);
      prev + AppendEach(prev, ms[|ms| - 1])
  }

  function Renders(ps: seq<Path>): (r: seq<string>)
    ensures |r| == |ps| && forall i :: 0 <= i < |ps| ==> r[i] == RenderPath(ps[i])
  {
    seq(|ps|, i requires 0 <= i < |ps| => RenderPath(ps[i]))
  }

  /** The bound text of a combination: its paths joined by ` + `. */
  function BoundsText(ps: seq<Path>): string
  {
    Join(Renders(ps), " + ")
  }

  /** Whether bit `j` of `i` is set. */
  predicate Bit(i: nat, j: nat)
    decreases j
  {
    if j == 0 then i % 2 == 1 else Bit(i / 2, j - 1)
  }

  /** The markers whose position is a set bit of `i`, in marker order. */
  function Selected<T>(ms: seq<T>, i: nat): seq<T>
    decreases |ms|
  {
    if |ms| == 0 then []
    else Selected(ms[..|ms| - 1], i) + (if Bit(i, |ms| - 1) then [ms[|ms| - 1]] else [])
  }

  /** `xs` is `ms` with some elements left out, the rest in their original order. */
  predicate IsSubsequence<T(==)>(xs: seq<T>, ms: seq<T>)
    decreases |ms|
  {
    if |xs| == 0 then true
    else if |ms| == 0 then false
    else (xs[|xs| - 1] == ms[|ms| - 1] && IsSubsequence(xs[..|xs| - 1], ms[..|ms| - 1]))
         || IsSubsequence(xs, ms[..|ms| - 1])
  }

  function Image<T(==), U>(f: T -> U, xs: seq<T>): set<U>
  {
    set x | x in xs :: f(x)
  }

  /** k markers give exactly 2^k combinations, the first being the empty one. */
  lemma {:induction false} SubsetsShape<T>(ms: seq<T>)
    ensures |Subsets(ms)| == Pow2(|ms|)
    ensures Subsets(ms)[0] == []
    decreases |ms|
  {
    if |ms| > 0 {
      SubsetsShape(ms[..|ms| - 1]);
    }
  }

  /** Removing the bit 2^n from `i` leaves every lower bit as it was. */
  lemma {:induction false} LowBitsKept(i: nat, n: nat, j: nat)
    requires Pow2(n) <= i && j < n
    ensures Bit(i - Pow2(n), j) == Bit(i, j)
    decreases j
  {
    assert Pow2(n) == 2 * Pow2(n - 1);
    if j > 0 {
      assert (i - Pow2(n)) / 2 == i / 2 - Pow2(n - 1);
      LowBitsKept(i / 2, n - 1, j - 1);
    }
  }

  /** Bit n is clear below 2^n and set from 2^n up to 2^(n+1). */
  lemma {:induction false} HighBit(i: nat, n: nat)
    requires i < Pow2(n + 1)
    ensures Bit(i, n) <==> Pow2(n) <= i
    decreases n
  {
    if n > 0 {
      HighBit(i / 2, n - 1);
    }
  }

  lemma {:induction false} SelectedLowBits<T>(ms: seq<T>, i: nat, n: nat)
    requires Pow2(n) <= i && |ms| <= n
    ensures Selected(ms, i - Pow2(n)) == Selected(ms, i)
    decreases |ms|
  {
    if |ms| > 0 {
      SelectedLowBits(ms[..|ms| - 1], i, n);
      LowBitsKept(i, n, |ms| - 1);
    }
  }

  /** Combination `i` holds exactly the markers at the set bits of `i`, in marker order. */
  lemma {:induction false} SubsetsAreBitmasks<T>(ms: seq<T>, i: nat)
    requires i < Pow2(|ms|)
    ensures |Subsets(ms)| == Pow2(|ms|)
    ensures Subsets(ms)[i] == Selected(ms, i)
    decreases |ms|
  {
    SubsetsShape(ms);
    if |ms| > 0 {
      var n := |ms| - 1;
      var pre := ms[..n];
      var h := Pow2(n);
      SubsetsShape(pre);
      if i < h {
        SubsetsAreBitmasks(pre, i);
        HighBit(i, n);
      } else {
        SubsetsAreBitmasks(pre, i - h);
        SelectedLowBits(pre, i, n);
        HighBit(i, n);
      }
    }
  }

  lemma {:induction false} SelectedIsSubsequence<T>(ms: seq<T>, i: nat)
    ensures IsSubsequence(Selected(ms, i), ms)
    decreases |ms|
  {
    if |ms| > 0 {
      var pre := ms[..|ms| - 1];
      SelectedIsSubsequence(pre, i);
      var xs := Selected(ms, i);
      if Bit(i, |ms| - 1) {
        assert xs[..|xs| - 1] == Selected(pre, i);
      } else if |xs| > 0 {
        assert xs == Selected(pre, i);
        SubsequenceOfPrefix(xs, pre, ms);
      }
    }
  }

  lemma SubsequenceOfPrefix<T>(xs: seq<T>, pre: seq<T>, ms: seq<T>)
    requires |xs| > 0 && |ms| > 0 && pre == ms[..|ms| - 1] && IsSubsequence(xs, pre)
    ensures IsSubsequence(xs, ms)
  {
  }

  /** Every combination's path list is an order-preserving subsequence of the markers. */
  lemma SubsetsAreSubsequences<T>(ms: seq<T>, i: nat)
    requires i < |Subsets(ms)|
    ensures IsSubsequence(Subsets(ms)[i], ms)
  {
    SubsetsShape(ms);
    SubsetsAreBitmasks(ms, i);
    SelectedIsSubsequence(ms, i);
  }

  /** Every combination draws its elements from the markers. */
  lemma {:induction false} SubsetsWithin<T>(ms: seq<T>, i: nat)
    requires i < |Subsets(ms)|
    ensures forall x :: x in Subsets(ms)[i] ==> x in ms
    decreases |ms|
  {
    if |ms| > 0 {
      var pre := ms[..|ms| - 1];
      var prev := Subsets(pre);
      if i < |prev| {
        SubsetsWithin(pre, i);
      } else {
        SubsetsWithin(pre, i - |prev|);
      }
    }
  }

  /** Only the first combination is empty. */
  lemma {:induction false} SubsetsNonEmpty<T>(ms: seq<T>, i: nat)
    requires 0 < i < |Subsets(ms)|
    ensures Subsets(ms)[i] != []
    decreases |ms|
  {
    var pre := ms[..|ms| - 1];
    var prev := Subsets(pre);
    if i < |prev| {
      SubsetsNonEmpty(pre, i);
    } else {
      assert Subsets(ms)[i] == prev[i - |prev|] + [ms[|ms| - 1]];
    }
  }

  /** Every set of (images of) markers is the set of some combination. */
  lemma {:induction false} SubsetsCover<T, U>(ms: seq<T>, f: T -> U, s: set<U>) returns (i: nat)
    requires s <= Image(f, ms)
    ensures i < |Subsets(ms)| && Image(f, Subsets(ms)[i]) == s
    decreases |ms|
  {
    if |ms| == 0 {
      assert s == {};
      i := 0;
      assert Subsets(ms)[0] == [];
    } else {
      var pre := ms[..|ms| - 1];
      var m := ms[|ms| - 1];
      assert ms == pre + [m];
      var prev := Subsets(pre);
      if f(m) in s {
        assert s - {f(m)} <= Image(f, pre) by {
          forall y | y in s - {f(m)} ensures y in Image(f, pre) {
            var x :| x in ms && f(x) == y;
            assert x in pre || x == m;
          }
        }
        var j := SubsetsCover(pre, f, s - {f(m)});
        i := |prev| + j;
        assert Subsets(ms)[i] == prev[j] + [m];
        assert Image(f, prev[j] + [m]) == Image(f, prev[j]) + {f(m)};
      } else {
        assert s <= Image(f, pre) by {
          forall y | y in s ensures y in Image(f, pre) {
            var x :| x in ms && f(x) == y;
            assert x in pre || x == m;
          }
        }
        i := SubsetsCover(pre, f, s);
        assert Subsets(ms)[i] == prev[i];
      }
    }
  }

  /** For two markers the order is [], [M1], [M2], [M1, M2]. */
  lemma TwoMarkers<T>(a: T, b: T)
    ensures Subsets([a, b]) == [[], [a], [b], [a, b]]
  {
    assert [a, b][..1] == [a];
    assert [a][..0] == [];
    var empty: seq<T> := [];
    assert Subsets(empty) == [empty];
    var one := AppendEach([empty], a);
    assert one[0] == [a];
    assert one == [[a]];
    assert Subsets([a]) == [[], [a]];
    var two := AppendEach([[], [a]], b);
    assert two[0] == [b] && two[1] == [a, b];
    assert two == [[b], [a, b]];
  }

  lemma {:induction false} BoundsTextSnoc(ps: seq<Path>, m: Path)
    ensures BoundsText(ps + [m]) ==
              if |ps| == 0 then RenderPath(m) else BoundsText(ps) + " + " + RenderPath(m)
  {
    assert Renders(ps + [m]) == Renders(ps) + [RenderPath(m)];
    if |ps| > 0 {
      JoinSnoc(Renders(ps), RenderPath(m), " + ");
    }
  }

  /**
   * The source's loops: `combinations` starts as the single empty combination and, per marker,
   * is extended by a copy of itself with the marker pushed onto every path list.
   */
  method MarkerTraitCombinations(markers: seq<Path>) returns (combinations: seq<Combination>)
    ensures |combinations| == |Subsets(markers)| == Pow2(|markers|)
    ensures forall i :: 0 <= i < |combinations| ==>
              combinations[i].paths == Subsets(markers)[i] && combinations[i].tokens == BoundsText(combinations[i].paths)
  {
    combinations := [Combination([], "")];
    for j := 0 to |markers|
      invariant |combinations| == |Subsets(markers[..j])|
      invariant forall i :: 0 <= i < |combinations| ==>
                  combinations[i].paths == Subsets(markers[..j])[i] && combinations[i].tokens == BoundsText(combinations[i].paths)
    {
      var m := markers[j];
      ghost var prev := Subsets(markers[..j]);
      var newCombinations: seq<Combination> := [];
      for i := 0 to |combinations|
        invariant |newCombinations| == i
        invariant forall k :: 0 <= k < i ==>
                    newCombinations[k].paths == prev[k] + [m] && newCombinations[k].tokens == BoundsText(newCombinations[k].paths)
      {
        var c := combinations[i];
        BoundsTextSnoc(c.paths, m);
        if |c.paths| == 0 {
          newCombinations := newCombinations + [Combination([m], RenderPath(m))];
        } else {
          newCombinations := newCombinations + [Combination(c.paths + [m], c.tokens + " + " + RenderPath(m))];
        }
      }
      CombinationsStep(markers, j, combinations, newCombinations);
      combinations := combinations + newCombinations;
    }
    assert markers[..|markers|] == markers;
    SubsetsShape(markers);
  }

  /** The list for the first `j + 1` markers: the list for `j`, then each of its entries with marker `j` pushed. */
  lemma CombinationsStep(markers: seq<Path>, j: nat, combinations: seq<Combination>, newCombinations: seq<Combination>)
    requires j < |markers|
    requires |combinations| == |Subsets(markers[..j])|
    requires forall i :: 0 <= i < |combinations| ==>
               combinations[i].paths == Subsets(markers[..j])[i] && combinations[i].tokens == BoundsText(combinations[i].paths)
    requires |newCombinations| == |combinations|
    requires forall k :: 0 <= k < |combinations| ==>
               newCombinations[k].paths == Subsets(markers[..j])[k] + [markers[j]]
               && newCombinations[k].tokens == BoundsText(newCombinations[k].paths)
    ensures |combinations + newCombinations| == |Subsets(markers[..j + 1])|
    ensures forall i :: 0 <= i < |combinations + newCombinations| ==>
              (combinations + newCombinations)[i].paths == Subsets(markers[..j + 1])[i]
              && (combinations + newCombinations)[i].tokens == BoundsText((combinations + newCombinations)[i].paths)
  {
    assert markers[..j + 1][..j] == markers[..j];
  }
}

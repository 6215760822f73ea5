/**
 * The effect picker: each effect button toggles its id in the selected list,
 * removing every copy when it is there and appending it when it is not.
 */
module Effects {

  /** An effect identifier such as `vignette` or `speed_up`. */
  type EffectId = string

  /** No element occurs twice. */
  predicate NoDuplicates(xs: seq<EffectId>) {
    forall i, j | 0 <= i < j < |xs| :: xs[i] != xs[j]
  }

  /** The elements of a list, forgetting order and multiplicity. */
  function Elements(xs: seq<EffectId>): set<EffectId> {
    set i | 0 <= i < |xs| :: xs[i]
  }

  /** `xs.filter(e => e !== x)`: every other element, in order. */
  function Without(xs: seq<EffectId>, x: EffectId): (r: seq<EffectId>)
    ensures x !in r
    ensures forall y :: y in r <==> y in xs && y != x
    ensures |r| <= |xs|
    ensures x !in xs ==> r == xs
  {
    if xs == [] then []
    else if xs[0] == x then Without(xs[1..], x)
    else [xs[0]] + Without(xs[1..], x)
  }

  /** The effect toggle: drop `x` when selected, otherwise append it. */
  function Toggle(xs: seq<EffectId>, x: EffectId): (r: seq<EffectId>)
    ensures x in r <==> x !in xs
    ensures forall y :: y != x ==> (y in r <==> y in xs)
    ensures x !in xs ==> r == xs + [x] && |r| == |xs| + 1
    ensures x in xs ==> r == Without(xs, x)
  {
    if x in xs then Without(xs, x) else xs + [x]
  }

  /**
   * Filtering works piece by piece: with `Without`'s own contract on one-element
   * lists, this fixes the result as the other elements in their original order.
   */
  lemma {:induction false} WithoutConcat(a: seq<EffectId>, b: seq<EffectId>, x: EffectId)
    ensures Without(a + b, x) == Without(a, x) + Without(b, x)
    decreases |a|
  {
    if a != [] {
      assert (a + b)[1..] == a[1..] + b;
      WithoutConcat(a[1..], b, x);
    } else {
      assert a + b == b;
    }
  }

  /** Filtering keeps a list free of duplicates. */
  lemma {:induction false} WithoutKeepsNoDuplicates(xs: seq<EffectId>, x: EffectId)
    requires NoDuplicates(xs)
    ensures NoDuplicates(Without(xs, x))
  {
    if xs != [] {
      assert NoDuplicates(xs[1..]) by {
        forall i, j | 0 <= i < j < |xs[1..]| ensures xs[1..][i] != xs[1..][j] {
          assert xs[1..][i] == xs[i + 1] && xs[1..][j] == xs[j + 1];
        }
      }
      WithoutKeepsNoDuplicates(xs[1..], x);
      if xs[0] != x {
        var rest := Without(xs[1..], x);
        assert xs[0] !in xs[1..] by {
          forall k | 0 <= k < |xs[1..]| ensures xs[1..][k] != xs[0] {
            assert xs[1..][k] == xs[k + 1];
          }
        }
        assert xs[0] !in rest;
        var r := [xs[0]] + rest;
        forall i, j | 0 <= i < j < |r| ensures r[i] != r[j] {
          if i == 0 {
            assert r[j] == rest[j - 1];
          } else {
            assert r[i] == rest[i - 1] && r[j] == rest[j - 1];
          }
        }
      }
    }
  }

  /** Toggling keeps a duplicate-free selection duplicate-free. */
  lemma ToggleKeepsNoDuplicates(xs: seq<EffectId>, x: EffectId)
    requires NoDuplicates(xs)
    ensures NoDuplicates(Toggle(xs, x))
  {
    if x in xs {
      WithoutKeepsNoDuplicates(xs, x);
    } else {
      var r := xs + [x];
      forall i, j | 0 <= i < j < |r| ensures r[i] != r[j] {
        if j == |xs| {
          assert r[i] == xs[i];
        } else {
          assert r[i] == xs[i] && r[j] == xs[j];
        }
      }
    }
  }

  /** Removing an element that was just appended to a list lacking it restores the list. */
  lemma {:induction false} WithoutAppended(xs: seq<EffectId>, x: EffectId)
    requires x !in xs
    ensures Without(xs + [x], x) == xs
  {
    if xs == [] {
      assert [x][1..] == [];
    } else {
      assert (xs + [x])[1..] == xs[1..] + [x];
      assert x !in xs[1..];
      WithoutAppended(xs[1..], x);
      assert xs == [xs[0]] + xs[1..];
    }
  }

  /** Toggling an unselected effect twice gives back the original list. */
  lemma ToggleTwiceRestores(xs: seq<EffectId>, x: EffectId)
    requires x !in xs
    ensures Toggle(Toggle(xs, x), x) == xs
  {
    WithoutAppended(xs, x);
  }

  /** Toggling a selected effect twice moves it to the end of the list. */
  lemma ToggleTwiceSelected(xs: seq<EffectId>, x: EffectId)
    requires x in xs
    ensures Toggle(Toggle(xs, x), x) == Without(xs, x) + [x]
  {
  }

  /** Seen as a set, a toggle is symmetric difference with `{x}`. */
  lemma ToggleIsSymmetricDifference(xs: seq<EffectId>, x: EffectId)
    ensures Elements(Toggle(xs, x)) == if x in xs then Elements(xs) - {x} else Elements(xs) + {x}
  {
    var r := Toggle(xs, x);
    forall y ensures y in Elements(r) <==> y in Elements(xs) - {x} || (x !in xs && y == x) {
      ElementsMembership(r, y);
      ElementsMembership(xs, y);
    }
  }

  lemma ElementsMembership(xs: seq<EffectId>, y: EffectId)
    ensures y in Elements(xs) <==> y in xs
  {
  }
}

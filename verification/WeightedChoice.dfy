/** The weighted random choice among providers or accounts. */
module WeightedChoice {
  import opened Options

  function Total(ranks: seq<nat>): nat {
    if ranks == [] then 0 else Total(ranks[..|ranks| - 1]) + ranks[|ranks| - 1]
  }

  lemma {:induction false} TotalMonotone(ranks: seq<nat>, i: nat, j: nat)
    requires i <= j <= |ranks|
    ensures Total(ranks[..i]) <= Total(ranks[..j])
  {
    if i < j {
      TotalMonotone(ranks, i, j - 1);
      assert ranks[..j][..j - 1] == ranks[..j - 1];
    }
  }

  /** The draws that choose position i: a run of `ranks[i]` numbers. */
  predicate Chooses(ranks: seq<nat>, draw: nat, i: nat) {
    i < |ranks| && Total(ranks[..i]) <= draw < Total(ranks[..i + 1])
  }

  /** The accumulating loop: stop at the first position whose running total exceeds the draw.
      An empty list, or one without any rank to draw from, raises. */
  method Choose(ranks: seq<nat>, draw: nat) returns (choice: Option<nat>)
    requires Total(ranks) > 0 ==> draw < Total(ranks)
    ensures choice.None? <==> Total(ranks) == 0
    ensures choice.Some? ==> Chooses(ranks, draw, choice.value)
    ensures choice.Some? ==>
              && choice.value < |ranks|
              && Total(ranks[..choice.value]) <= draw < Total(ranks[..choice.value]) + ranks[choice.value]
    ensures choice.Some? ==> forall j: nat :: Chooses(ranks, draw, j) ==> j == choice.value
  {
    if ranks == [] || Total(ranks) == 0 {
      return None;
    }
    var accumulated, i := 0, 0;
    assert ranks[..|ranks|] == ranks;
    while i < |ranks|
      invariant i <= |ranks| && accumulated == Total(ranks[..i]) <= draw
    {
      assert ranks[..i + 1][..i] == ranks[..i];
      accumulated := accumulated + ranks[i];
      if accumulated > draw {
        break;
      }
      i := i + 1;
    }
    forall j: nat | Chooses(ranks, draw, j)
      ensures j == i
    {
      if j < i {
        TotalMonotone(ranks, j + 1, i);
      } else if i < j {
        TotalMonotone(ranks, i + 1, j);
      }
    }
    return Some(i);
  }

  function Draws(lo: nat, hi: nat): (s: set<nat>)
    ensures forall d: nat :: d in s <==> lo <= d < hi
  {
    if hi <= lo then {} else Draws(lo, hi - 1) + {hi - 1}
  }

  lemma {:induction false} DrawsCount(lo: nat, hi: nat)
    requires lo <= hi
    ensures |Draws(lo, hi)| == hi - lo
    decreases hi
  {
    if lo < hi {
      DrawsCount(lo, hi - 1);
    }
  }

  /** Position i is chosen by exactly `ranks[i]` of the `Total(ranks)` equally likely draws. */
  lemma EachByItsRank(ranks: seq<nat>, i: nat)
    requires i < |ranks|
    ensures |set d: nat | d < Total(ranks) && Chooses(ranks, d, i)| == ranks[i]
  {
    var lo, hi := Total(ranks[..i]), Total(ranks[..i + 1]);
    assert ranks[..i + 1][..i] == ranks[..i];
    assert ranks[..|ranks|] == ranks;
    TotalMonotone(ranks, i + 1, |ranks|);
    DrawsCount(lo, hi);
    assert (set d: nat | d < Total(ranks) && Chooses(ranks, d, i)) == Draws(lo, hi);
  }
}

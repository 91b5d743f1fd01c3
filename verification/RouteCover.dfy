/** What the blocks of one row are: an exact, minimal cover of the range by its maximal blocks. */
module RouteCover {
  import opened Bits
  import opened Routes

  /** Where the decomposition stands: limited by the alignment of base, or by the end of the range. */
  datatype Phase = Rising | Falling(bound: nat)

  /** Everything the blocks before `base` leave behind for the blocks from `base` on. */
  ghost predicate InPhase(start: nat, base: nat, end: nat, phase: Phase) {
    match phase
    case Rising => forall s: nat {:trigger Bit(base, s)} :: Aligned(base, s) && Bit(base, s) ==> base < start + Pow2(s)
    case Falling(t) => Aligned(base, t) && base + Pow2(t) - 1 > end
  }

  function NextPhase(base: nat, s: nat): Phase {
    if Bit(base, s) then Rising else Falling(s)
  }

  lemma StartIsRising(start: nat, end: nat)
    ensures InPhase(start, start, end, Rising)
  {
  }

  /** A falling decomposition stays falling, and its steps shrink. */
  lemma FallingShrinks(base: nat, end: nat, t: nat, s: nat)
    requires Aligned(base, t) && base + Pow2(t) - 1 > end
    requires base + Pow2(s) - 1 <= end
    ensures s < t && !Bit(base, s)
  {
    if t < s {
      Pow2Monotone(t, s);
    } else if s < t {
      AlignmentShrinks(base, s, t);
    }
  }

  lemma FallingNow(start: nat, base: nat, end: nat, t: nat)
    requires InPhase(start, base, end, Falling(t))
    ensures Aligned(base, t) && base + Pow2(t) - 1 > end
  {
  }

  lemma PhaseSteps(start: nat, base: nat, end: nat, phase: Phase)
    requires base <= end && InPhase(start, base, end, phase)
    ensures var s := GrowStep(base, end, 0); InPhase(start, base + Pow2(s), end, NextPhase(base, s))
  {
    var s := GrowStep(base, end, 0);
    AlignmentSteps(base, s);
    if Bit(base, s) {
      if phase.Falling? {
        FallingShrinks(base, end, phase.bound, s);
      }
      var next := base + Pow2(s);
      AlignmentGrows(next, s);
      forall s': nat {:trigger Bit(next, s')} | Aligned(next, s') && Bit(next, s')
        ensures next < start + Pow2(s')
      {
        if s' <= s {
          AlignmentShrinks(next, s', s + 1);
        } else {
          Pow2Monotone(s, s');
        }
      }
    }
  }

  // ---- Exact cover ----

  predicate Covered(bs: seq<Block>, x: nat) {
    exists b <- bs :: b.Has(x)
  }

  /** The blocks cover the range exactly, in order and without overlap. */
  lemma {:induction false} CoversExactly(base: nat, end: nat, x: nat)
    ensures base <= x <= end <==> Covered(Decompose(base, end), x)
    decreases end + 1 - base
  {
    if base <= end {
      var b := Block(base, GrowStep(base, end, 0));
      var rest := Decompose(base + b.Size(), end);
      CoversExactly(base + b.Size(), end, x);
      assert b in Decompose(base, end);
      assert forall c <- rest :: c in Decompose(base, end);
      assert forall c <- Decompose(base, end) :: c == b || c in rest;
    }
  }

  lemma {:induction false} BlocksAscend(base: nat, end: nat)
    ensures var bs := Decompose(base, end);
            && (forall b <- bs :: b.IsAligned() && b.Within(base, end))
            && (forall i :: 0 <= i < |bs| - 1 ==> bs[i + 1].base == bs[i].Last() + 1)
            && (forall i, j :: 0 <= i < j < |bs| ==> bs[i].Last() < bs[j].base)
            && (bs != [] ==> bs[0].base == base && bs[|bs| - 1].Last() == end)
    decreases end + 1 - base
  {
    if base <= end {
      BlocksAscend(base + Pow2(GrowStep(base, end, 0)), end);
    }
  }

  // ---- Maximality ----

  /** c lies inside b. */
  predicate Inside(c: Block, b: Block) {
    b.base <= c.base && c.Last() <= b.Last()
  }

  /** Aligned blocks nest: one that meets another no smaller than itself lies inside it. */
  lemma Nest(b: Block, c: Block, x: nat)
    requires b.IsAligned() && c.IsAligned() && c.step <= b.step
    requires b.Has(x) && c.Has(x)
    ensures Inside(c, b)
  {
    AlignmentShrinks(b.base, c.step, b.step);
    if c.base < b.base {
      AlignedGap(c.base, b.base, c.step);
    }
    AlignmentBlockEnd(b.base, b.step, c.step);
    if b.base + b.Size() > c.base {
      AlignedGap(c.base, b.base + b.Size(), c.step);
    }
  }

  lemma AlignmentBlockEnd(a: nat, s: nat, t: nat)
    requires Aligned(a, s) && t <= s
    ensures Aligned(a + Pow2(s), t)
  {
    AlignmentSteps(a, s);
    AlignmentShrinks(a + Pow2(s), t, s);
  }

  /** No aligned block of the range that meets b reaches beyond b. */
  ghost predicate Dominates(b: Block, lo: nat, hi: nat) {
    forall c: Block, x: nat :: c.IsAligned() && c.Within(lo, hi) && c.Has(x) && b.Has(x) ==> Inside(c, b)
  }

  /** The block chosen at `base` dominates the whole range, earlier addresses included. */
  lemma ChosenDominates(start: nat, base: nat, end: nat, phase: Phase, c: Block, x: nat)
    requires start <= base <= end && InPhase(start, base, end, phase)
    requires c.IsAligned() && c.Within(start, end) && c.Has(x)
    requires Block(base, GrowStep(base, end, 0)).Has(x)
    ensures Inside(c, Block(base, GrowStep(base, end, 0)))
  {
    var s := GrowStep(base, end, 0);
    var b := Block(base, s);
    if c.step <= s {
      Nest(b, c, x);
    } else {
      Nest(c, b, x);
      Pow2Monotone(s, c.step);
      AlignmentShrinks(c.base, s + 1, c.step);
      if Bit(base, s) {
        if phase.Falling? {
          FallingShrinks(base, end, phase.bound, s);
        }
        AlignmentStepsBack(base, s);
        if c.base > base - Pow2(s) {
          AlignedGap(base - Pow2(s), c.base, s + 1);
        }
        assert false;
      } else {
        AlignmentGrows(base, s);
        AlignmentBlockEnd(c.base, c.step, s + 1);
        AlignedGap(base, c.base + c.Size(), s + 1);
        assert false;
      }
    }
  }

  lemma {:induction false} AllDominate(start: nat, base: nat, end: nat, phase: Phase, b: Block)
    requires start <= base && InPhase(start, base, end, phase)
    requires b in Decompose(base, end)
    ensures Dominates(b, start, end)
    decreases end + 1 - base
  {
    var s := GrowStep(base, end, 0);
    if b == Block(base, s) {
      forall c: Block, x: nat | c.IsAligned() && c.Within(start, end) && c.Has(x) && b.Has(x)
        ensures Inside(c, b)
      {
        ChosenDominates(start, base, end, phase, c, x);
      }
    } else {
      PhaseSteps(start, base, end, phase);
      assert b in Decompose(base + Pow2(s), end);
      AllDominate(start, base + Pow2(s), end, NextPhase(base, s), b);
    }
  }

  /** A maximal aligned block of the range: no other aligned block of the range contains it. */
  ghost predicate Maximal(b: Block, lo: nat, hi: nat) {
    && b.IsAligned() && b.Within(lo, hi)
    && forall c: Block :: c.IsAligned() && c.Within(lo, hi) && Inside(b, c) ==> c == b
  }

  lemma SameExtent(b: Block, c: Block)
    requires Inside(b, c) && Inside(c, b)
    ensures b == c
  {
    if b.step < c.step {
      Pow2Monotone(b.step, c.step);
    } else if c.step < b.step {
      Pow2Monotone(c.step, b.step);
    }
  }

  /** The emitted blocks are exactly the maximal aligned blocks of the range. */
  lemma EmittedAreMaximal(start: nat, end: nat, b: Block)
    ensures b in Decompose(start, end) <==> Maximal(b, start, end)
  {
    StartIsRising(start, end);
    BlocksAscend(start, end);
    if b in Decompose(start, end) {
      AllDominate(start, start, end, Rising, b);
      forall c: Block | c.IsAligned() && c.Within(start, end) && Inside(b, c)
        ensures c == b
      {
        assert c.Has(b.base) && b.Has(b.base);
        SameExtent(b, c);
      }
    }
    if Maximal(b, start, end) {
      CoversExactly(start, end, b.base);
      var g :| g in Decompose(start, end) && g.Has(b.base);
      AllDominate(start, start, end, Rising, g);
      assert b.Has(b.base);
      assert Inside(b, g);
    }
  }

  // ---- Minimality ----

  ghost predicate CoversRange(cover: seq<Block>, start: nat, end: nat) {
    && (forall c <- cover :: c.IsAligned())
    && (forall x: nat :: start <= x <= end <==> Covered(cover, x))
  }

  function Elements<T>(s: seq<T>): set<T> {
    set x | x in s
  }

  lemma {:induction false} ElementsAtMost<T>(s: seq<T>)
    ensures |Elements(s)| <= |s|
  {
    if s == [] {
      assert Elements(s) == {};
    } else {
      ElementsAtMost(s[1..]);
      assert Elements(s) == {s[0]} + Elements(s[1..]);
    }
  }

  lemma SubsetSize<T>(a: set<T>, b: set<T>)
    requires a <= b
    ensures |a| <= |b|
  {
    assert b == a + (b - a);
  }

  lemma CoverWithin(cover: seq<Block>, start: nat, end: nat, c: Block)
    requires CoversRange(cover, start, end) && c in cover
    ensures c.Within(start, end)
  {
    assert c.Has(c.base) && c.Has(c.Last());
    var last: nat := c.Last();
    assert Covered(cover, last) && Covered(cover, c.base);
  }

  /** Any cover spends a separate block on each emitted block. */
  lemma {:induction false} PickBlocks(cover: seq<Block>, start: nat, end: nat, n: nat) returns (picks: set<Block>)
    requires CoversRange(cover, start, end) && n <= |Decompose(start, end)|
    ensures picks <= Elements(cover) && |picks| == n
    ensures forall c <- picks :: exists i :: 0 <= i < n && Inside(c, Decompose(start, end)[i])
  {
    if n == 0 {
      picks := {};
      return;
    }
    var bs := Decompose(start, end);
    var rest := PickBlocks(cover, start, end, n - 1);
    BlocksAscend(start, end);
    var b := bs[n - 1];
    assert b in bs && b.Has(b.base);
    assert Covered(cover, b.base);
    var c :| c in cover && c.Has(b.base);
    CoverWithin(cover, start, end, c);
    StartIsRising(start, end);
    AllDominate(start, start, end, Rising, b);
    assert Inside(c, bs[n - 1]);
    assert c !in rest;
    picks := rest + {c};
  }

  /** No list of aligned blocks that covers exactly the range is shorter than the emitted list. */
  lemma Minimal(cover: seq<Block>, start: nat, end: nat)
    requires CoversRange(cover, start, end)
    ensures |Decompose(start, end)| <= |cover|
  {
    var picks := PickBlocks(cover, start, end, |Decompose(start, end)|);
    SubsetSize(picks, Elements(cover));
    ElementsAtMost(cover);
  }

  /** The emitted list is itself such a cover. */
  lemma EmittedCovers(start: nat, end: nat)
    ensures CoversRange(Decompose(start, end), start, end)
  {
    BlocksAscend(start, end);
    forall x: nat
      ensures start <= x <= end <==> Covered(Decompose(start, end), x)
    {
      CoversExactly(start, end, x);
    }
  }

  // ---- Shape and count ----

  ghost predicate RisesThenFalls(bs: seq<Block>, k: nat) {
    && k <= |bs|
    && (forall i, j :: 0 <= i < j < k ==> bs[i].step < bs[j].step)
    && (forall i, j :: k <= i < j < |bs| ==> bs[i].step > bs[j].step)
  }

  /** The shape, with what the blocks' steps are bounded by. */
  ghost predicate Shaped(bs: seq<Block>, k: nat, phase: Phase, lo: nat) {
    && RisesThenFalls(bs, k)
    && (forall i :: 0 <= i < k ==> lo <= bs[i].step)
    && (phase.Falling? ==> k == 0 && forall i :: 0 <= i < |bs| ==> bs[i].step < phase.bound)
  }

  lemma RisesOnce(b: Block, rest: seq<Block>, k: nat, lo: nat)
    requires Shaped(rest, k, Rising, b.step + 1) && lo <= b.step
    ensures Shaped([b] + rest, k + 1, Rising, lo)
  {
  }

  lemma FallsOnce(b: Block, rest: seq<Block>, k: nat, phase: Phase, lo: nat)
    requires Shaped(rest, k, Falling(b.step), b.step) && (phase.Falling? ==> b.step < phase.bound)
    ensures Shaped([b] + rest, 0, phase, lo)
  {
  }

  lemma DecomposeStep(base: nat, end: nat)
    requires base <= end
    ensures var s := GrowStep(base, end, 0); Decompose(base, end) == [Block(base, s)] + Decompose(base + Pow2(s), end)
  {
  }

  /** Steps rise while base limits them, then fall while end does. */
  lemma {:induction false} Shape(start: nat, base: nat, end: nat, phase: Phase, lo: nat) returns (k: nat)
    requires InPhase(start, base, end, phase) && Aligned(base, lo)
    ensures Shaped(Decompose(base, end), k, phase, lo)
    decreases end + 1 - base
  {
    if base > end {
      return 0;
    }
    hide Shaped, InPhase, Pow2, Decompose;
    var s := GrowStep(base, end, 0);
    DecomposeStep(base, end);
    PhaseSteps(start, base, end, phase);
    if phase.Falling? {
      FallingNow(start, base, end, phase.bound);
      FallingShrinks(base, end, phase.bound, s);
    }
    AlignmentSteps(base, s);
    var rest := Decompose(base + Pow2(s), end);
    if Bit(base, s) {
      if s < lo {
        AlignmentShrinks(base, s, lo);
      }
      AlignmentGrows(base + Pow2(s), s);
      k := Shape(start, base + Pow2(s), end, Rising, s + 1);
      RisesOnce(Block(base, s), rest, k, lo);
      k := k + 1;
    } else {
      k := Shape(start, base + Pow2(s), end, Falling(s), s);
      FallsOnce(Block(base, s), rest, k, phase, lo);
      k := 0;
    }
  }

  /** Each block size occurs at most twice in a row. */
  lemma SizesAtMostTwice(start: nat, end: nat, i: nat, j: nat, m: nat)
    requires i < j < m < |Decompose(start, end)|
    ensures var bs := Decompose(start, end); !(bs[i].step == bs[j].step == bs[m].step)
  {
    StartIsRising(start, end);
    var k := Shape(start, start, end, Rising, 0);
  }

  lemma {:induction false} CountBound(start: nat, base: nat, end: nat, phase: Phase, lo: nat)
    requires 0 < base && end < WORD && lo <= 31
    requires InPhase(start, base, end, phase) && Aligned(base, lo)
    ensures |Decompose(base, end)| <= match phase case Rising => 62 - lo case Falling(t) => t
    decreases end + 1 - base
  {
    if base <= end {
      var s := GrowStep(base, end, 0);
      StepBound(base, s);
      PhaseSteps(start, base, end, phase);
      AlignmentSteps(base, s);
      AlignmentGrows(base, s);
      if phase.Falling? {
        FallingShrinks(base, end, phase.bound, s);
      }
      if !Bit(base, s) {
        StepBound(base, s + 1);
        CountBound(start, base + Pow2(s), end, Falling(s), s);
      } else {
        if s < lo {
          AlignmentShrinks(base, s, lo);
        }
        AlignmentGrows(base + Pow2(s), s);
        if s == 31 {
          Pow2Ladder(32);
          AlignmentStepsBack(base, 31);
        } else {
          CountBound(start, base + Pow2(s), end, Rising, s + 1);
        }
      }
    }
  }

  /** A row never yields more than 62 lines. */
  lemma AtMost62(start: nat, end: nat)
    requires 0 < start && end < WORD
    ensures |Decompose(start, end)| <= 62
  {
    StartIsRising(start, end);
    CountBound(start, start, end, Rising, 0);
  }

  /** The step is determined by alignment, fit and the stop test. */
  lemma StepIs(base: nat, end: nat, s: nat)
    requires Aligned(base, s) && base + Pow2(s) - 1 <= end && Stops(base, end, s)
    ensures GrowStep(base, end, 0) == s
  {
    var g := GrowStep(base, end, 0);
    if g < s {
      AlignmentShrinks(base, g, s);
      if g + 1 < s {
        Pow2Monotone(g + 1, s);
      }
    } else if s < g {
      AlignmentShrinks(base, s, g);
      if s + 1 < g {
        Pow2Monotone(s + 1, g);
      }
    }
  }

  lemma {:induction false} PowerIsAligned(k: nat)
    ensures Aligned(Pow2(k), k) && Bit(Pow2(k), k)
  {
    if k > 0 {
      PowerIsAligned(k - 1);
      assert Pow2(k) / 2 == Pow2(k - 1);
    }
  }

  lemma {:induction false} ComplementIsAligned(n: nat, t: nat)
    requires t <= n
    ensures Pow2(t) <= Pow2(n) && Aligned(Pow2(n) - Pow2(t), t)
  {
    if t > 0 {
      ComplementIsAligned(n - 1, t - 1);
      assert (Pow2(n) - Pow2(t)) / 2 == Pow2(n - 1) - Pow2(t - 1);
    } else if n > 0 {
      Pow2Monotone(0, n);
    }
  }

  lemma {:induction false} LongFall(t: nat)
    requires t <= 31
    ensures Pow2(t) <= WORD && |Decompose(WORD - Pow2(t), WORD - 2)| == t
  {
    Pow2Ladder(t);
    if t > 0 {
      LongFall(t - 1);
      ComplementIsAligned(32, t);
      AlignmentShrinks(WORD - Pow2(t), t - 1, t);
      StepIs(WORD - Pow2(t), WORD - 2, t - 1);
    }
  }

  lemma {:induction false} LongRise(k: nat)
    requires k <= 31
    ensures |Decompose(Pow2(k), WORD - 2)| == 62 - k
    decreases 31 - k
  {
    Pow2Ladder(32);
    if k == 31 {
      LongFall(31);
    } else {
      LongRise(k + 1);
      PowerIsAligned(k);
      Pow2Monotone(k, 32);
      if k < 30 {
        Pow2Monotone(k + 1, 31);
      }
      StepIs(Pow2(k), WORD - 2, k);
    }
  }

  /** The bound of 62 lines is reached. */
  lemma Exactly62()
    ensures |Decompose(1, WORD - 2)| == 62
  {
    LongRise(0);
  }

  // ---- What the lines of a file match ----

  /** The address falls under the route: network == address & netmask. */
  predicate Matches(r: Route, x: Address) {
    And(x, FromQuad(r.netmask)) == FromQuad(r.network)
  }

  lemma LineMatches(b: Block, x: Address)
    requires b.base < WORD && b.step <= 31 && b.IsAligned()
    ensures Matches(ToRoute(b), x) <==> b.Has(x)
  {
    Pow2Ladder(b.step);
    MaskMatches(x, b.base, 32, b.step);
  }

  predicate FileMatches(lines: seq<Route>, x: Address) {
    exists r <- lines :: Matches(r, x)
  }

  lemma FileMatchesAppend(a: seq<Route>, b: seq<Route>, x: Address)
    ensures FileMatches(a + b, x) <==> FileMatches(a, x) || FileMatches(b, x)
  {
    assert forall r <- a :: r in a + b;
    assert forall r <- b :: r in a + b;
  }

  lemma {:induction false} LinesMatch(bs: seq<Block>, x: Address)
    requires forall b <- bs :: b.base < WORD && b.step <= 31 && b.IsAligned()
    ensures FileMatches(Lines(bs), x) <==> Covered(bs, x)
  {
    if bs != [] {
      LinesMatch(bs[1..], x);
      LineMatches(bs[0], x);
      FileMatchesAppend([ToRoute(bs[0])], Lines(bs[1..]), x);
      assert bs == [bs[0]] + bs[1..];
    }
  }

  /** A row's lines route exactly the addresses of its range. */
  lemma RowRoutesItsRange(start: Address, end: Address, x: Address)
    requires 0 < start
    ensures FileMatches(RowLines(start, end), x) <==> start <= x <= end
  {
    DecomposeFits(start, end);
    BlocksAscend(start, end);
    LinesMatch(Decompose(start, end), x);
    CoversExactly(start, end, x);
  }
}

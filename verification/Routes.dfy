/** Country route files: every address range of the geolocation table becomes netmask routes. */
module Routes {
  import opened Bits
  import opened Options

  const WORD := 0x1_0000_0000

  /** An IPv4 address as the number its four network-order bytes spell. */
  type Address = n: nat | n < 0x1_0000_0000

  type Octet = n: nat | n < 256

  /** A dotted quad. */
  datatype Quad = Quad(a: Octet, b: Octet, c: Octet, d: Octet)

  /** One line of a route file: network and netmask. */
  datatype Route = Route(network: Quad, netmask: Quad)

  function ToQuad(ip: Address): (q: Quad)
    ensures FromQuad(q) == ip == q.a * 0x100_0000 + q.b * 0x1_0000 + q.c * 0x100 + q.d
  {
    var high := ip / 256;
    var higher := high / 256;
    Quad(higher / 256, higher % 256, high % 256, ip % 256)
  }

  function FromQuad(q: Quad): Address {
    q.a * 0x100_0000 + q.b * 0x1_0000 + q.c * 256 + q.d
  }

  /** A run of 2^step addresses from base. */
  datatype Block = Block(base: nat, step: nat) {
    function Size(): nat { Pow2(step) }
    function Last(): int { base + Pow2(step) - 1 }
    predicate IsAligned() { Aligned(base, step) }
    predicate Has(x: int) { base <= x <= Last() }
    predicate Within(lo: int, hi: int) { lo <= base && Last() <= hi }
  }

  /** The step at which growth stops: bit `step` of base is set, or the doubled block passes end. */
  predicate Stops(base: nat, end: nat, step: nat) {
    Bit(base, step) || base + Pow2(step + 1) - 1 > end
  }

  function GrowStep(base: nat, end: nat, step: nat): (s: nat)
    requires Aligned(base, step) && base + Pow2(step) - 1 <= end
    ensures step <= s && Aligned(base, s) && base + Pow2(s) - 1 <= end && Stops(base, end, s)
    decreases end + 1 - Pow2(step)
  {
    if Stops(base, end, step) then step
    else
      AlignmentGrows(base, step);
      GrowStep(base, end, step + 1)
  }

  /** The blocks one row yields from `base` on. */
  function Decompose(base: nat, end: nat): seq<Block>
    decreases end + 1 - base
  {
    if base > end then []
    else
      var b := Block(base, GrowStep(base, end, 0));
      [b] + Decompose(base + b.Size(), end)
  }

  function MaskFor(step: nat): (m: Address)
    requires step <= 31
    ensures m == WORD - Pow2(step)
  {
    Pow2Ladder(step);
    XorClearsLowBits(32, step);
    Xor(WORD - 1, Pow2(step) - 1)
  }

  /** The line written for a block. */
  function ToRoute(b: Block): Route
    requires b.base < WORD && b.step <= 31
  {
    Route(ToQuad(b.base), ToQuad(MaskFor(b.step)))
  }

  /** A line gives the block's first address and the mask that clears the block's bits. */
  lemma RouteSpells(b: Block)
    requires b.base < WORD && b.step <= 31
    ensures var r := ToRoute(b); FromQuad(r.network) == b.base && FromQuad(r.netmask) == WORD - Pow2(b.step)
  {
    assert FromQuad(ToQuad(b.base)) == b.base;
  }

  lemma Pow2Ladder(s: nat)
    requires s <= 32
    ensures Pow2(32) == WORD && Pow2(s) <= WORD
  {
    assert Pow2(8) == 256;
    assert Pow2(16) == 0x1_0000;
    assert Pow2(24) == 0x100_0000;
    assert Pow2(32) == WORD;
    if s < 32 {
      Pow2Monotone(s, 32);
    }
  }

  function Lines(bs: seq<Block>): (rs: seq<Route>)
    requires forall b <- bs :: b.base < WORD && b.step <= 31
    ensures |rs| == |bs|
  {
    if bs == [] then [] else [ToRoute(bs[0])] + Lines(bs[1..])
  }

  /** A positive base below 2^32 stops growing at step 31 at the latest. */
  lemma StepBound(base: nat, s: nat)
    requires 0 < base < WORD && Aligned(base, s)
    ensures s <= 31
  {
    if s >= 32 {
      Pow2Ladder(32);
      AlignmentShrinks(base, 32, s);
      AlignedZero(32);
      AlignedGap(0, base, 32);
      assert false;
    }
  }

  /** Whether a row is used at all: an address of zero reads as a parse failure. */
  predicate Usable(start: Option<Address>, end: Option<Address>, country: string) {
    start.Some? && start.value != 0 && end.Some? && end.value != 0 && |country| == 2
  }

  lemma {:induction false} DecomposeFits(base: nat, end: nat)
    requires 0 < base && end < WORD
    ensures forall b <- Decompose(base, end) :: b.base < WORD && b.step <= 31
    decreases end + 1 - base
  {
    if base <= end {
      StepBound(base, GrowStep(base, end, 0));
      DecomposeFits(base + Pow2(GrowStep(base, end, 0)), end);
    }
  }

  /** The lines one usable row adds to its country's file. */
  function RowLines(base: nat, end: Address): seq<Route>
    requires 0 < base
  {
    DecomposeFits(base, end);
    Lines(Decompose(base, end))
  }

  lemma RowLinesStep(base: nat, end: Address)
    requires 0 < base <= end
    ensures var s := GrowStep(base, end, 0);
            s <= 31 && RowLines(base, end) == [ToRoute(Block(base, s))] + RowLines(base + Pow2(s), end)
  {
    var s := GrowStep(base, end, 0);
    StepBound(base, s);
    DecomposeFits(base, end);
    var rest := Decompose(base + Pow2(s), end);
    assert Decompose(base, end) == [Block(base, s)] + rest;
    assert ([Block(base, s)] + rest)[1..] == rest;
  }

  /** One turn of the inner loop's tests, in arithmetic. */
  lemma GrowthTests(base: nat, step: nat)
    requires step <= 31 && Aligned(base, step)
    ensures (Or(base, Pow2(step)) == base) == Bit(base, step)
    ensures !Bit(base, step) ==>
              Aligned(base, step + 1)
              && Or(base, ShiftRight(WORD - 1, 31 - step)) == base + Pow2(step + 1) - 1
  {
    OrTestsBit(base, step);
    AlignmentGrows(base, step);
    if !Bit(base, step) {
      Pow2Ladder(32);
      ShiftOnes(step + 1, 31 - step);
      OrFillsLowBits(base, step + 1);
    }
  }

  /** The inner loop: widen the block at `base` while it stays aligned and inside the range. */
  method WidestStep(base: Address, last: Address) returns (step: nat)
    requires 0 < base <= last
    ensures step == GrowStep(base, last, 0)
  {
    step := 0;
    while Or(base, Pow2(step)) != base
      invariant Aligned(base, step) && base + Pow2(step) - 1 <= last && step <= 31
      invariant GrowStep(base, last, 0) == GrowStep(base, last, step)
      decreases 32 - step
    {
      GrowthTests(base, step);
      if Or(base, ShiftRight(WORD - 1, 31 - step)) > last {
        break;
      }
      StepBound(base, step + 1);
      step := step + 1;
    }
    GrowthTests(base, step);
  }

  /** The outer loop: one line per block, until the range is used up. */
  method RangeLines(start: Address, last: Address) returns (lines: seq<Route>)
    requires 0 < start
    ensures lines == RowLines(start, last)
  {
    lines := [];
    var base: nat := start;
    while base <= last
      invariant 0 < base
      invariant RowLines(start, last) == lines + RowLines(base, last)
      decreases last + 1 - base
    {
      var step := WidestStep(base, last);
      RowLinesStep(base, last);
      var line := ToRoute(Block(base, step));
      Assoc(lines, line, RowLines(base + Pow2(step), last));
      lines := lines + [line];
      base := base + Pow2(step);
    }
    assert RowLines(base, last) == [];
  }

  lemma Assoc<T>(a: seq<T>, x: T, b: seq<T>)
    ensures a + ([x] + b) == (a + [x]) + b
  {
  }

  /** The open route files of one conversion, keyed by country code. */
  class RouteFiles {
    var files: map<string, seq<Route>>

    constructor ()
      ensures files == map[]
    {
      files := map[];
    }

    method ConsumeLine(start: Option<Address>, end: Option<Address>, country: string)
      modifies this
      ensures start.None? || end.None? || start == Some(0) || end == Some(0) || |country| != 2 ==> files == old(files)
      ensures start.Some? && end.Some? && start.value > 0 && end.value > 0 && |country| == 2 ==>
                files == old(files)[country :=
                           (if country in old(files) then old(files)[country] else [])
                           + RowLines(start.value, end.value)]
    {
      if !Usable(start, end, country) {
        return;
      }
      if country !in files {
        files := files[country := []];
      }
      var lines := RangeLines(start.value, end.value);
      files := files[country := files[country] + lines];
    }
  }
}

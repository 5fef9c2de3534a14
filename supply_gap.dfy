/**
 * The supply gap: how much unused supply capacity the agent wants to keep
 * in hand, growing with the supply in use and with the number of bases.
 */
module SupplyGap {

  /** Supply in use per step of the supply multiplier. */
  const SupplyPerStep: nat := 40
  /** Base count beyond which more bases no longer widen the gap. */
  const BaseSaturation: nat := 4
  /** Gap per base when the supply multiplier is 1. */
  const GapPerBase: nat := 4

  function Min(a: int, b: int): int {
    if a <= b then a else b
  }

  /** `supply / 40`, but never below 1. */
  function SupplyMultiplier(supply: nat): real {
    if (supply as real) / (SupplyPerStep as real) < 1.0 then 1.0
    else (supply as real) / (SupplyPerStep as real)
  }

  /** The base count, capped at 4. */
  function BaseMultiplier(baseCount: nat): nat {
    if baseCount >= BaseSaturation then BaseSaturation else baseCount
  }

  /**
   * calculateSupplyGap: floor(4 * min(bases, 4) * max(1, supply / 40)).
   * In integer terms the gap is 4 per base while at most 40 supply is in use,
   * and one tenth of (bases * supply), rounded down, from then on.
   */
  function CalculateSupplyGap(supply: nat, baseCount: nat): (gap: int)
    ensures gap >= 0
    ensures supply <= SupplyPerStep ==> gap == GapPerBase * Min(baseCount, BaseSaturation)
    ensures supply >= SupplyPerStep ==> gap == (Min(baseCount, BaseSaturation) * supply) / 10
  {
    var bm := BaseMultiplier(baseCount);
    var sm := SupplyMultiplier(supply);
    var g := (GapPerBase as real) * (bm as real) * sm;
    FloorOfTenth(bm * supply);
    assert supply >= SupplyPerStep ==> g == ((bm * supply) as real) / 10.0;
    g.Floor
  }

  /** For a natural n, the floor of n / 10 computed on reals is integer division. */
  lemma FloorOfTenth(n: nat)
    ensures ((n as real) / 10.0).Floor == n / 10
  {
    var k := n / 10;
    var r := n % 10;
    assert n == 10 * k + r;
    assert (n as real) / 10.0 == (k as real) + (r as real) / 10.0;
  }

  lemma MulMonotone(c: nat, a: nat, b: nat)
    requires a <= b
    ensures c * a <= c * b
  {
    assert c * b - c * a == c * (b - a);
  }

  /** More supply in use never shrinks the gap. */
  lemma GapMonotoneInSupply(s1: nat, s2: nat, baseCount: nat)
    requires s1 <= s2
    ensures CalculateSupplyGap(s1, baseCount) <= CalculateSupplyGap(s2, baseCount)
  {
    var bm := Min(baseCount, BaseSaturation);
    if s2 >= SupplyPerStep {
      MulMonotone(bm, if s1 >= SupplyPerStep then s1 else SupplyPerStep, s2);
      assert bm * SupplyPerStep == 10 * (GapPerBase * bm);
    }
  }

  /** More bases never shrink the gap. */
  lemma GapMonotoneInBases(supply: nat, b1: nat, b2: nat)
    requires b1 <= b2
    ensures CalculateSupplyGap(supply, b1) <= CalculateSupplyGap(supply, b2)
  {
    if supply >= SupplyPerStep {
      MulMonotone(supply, Min(b1, BaseSaturation), Min(b2, BaseSaturation));
      assert Min(b1, BaseSaturation) * supply == supply * Min(b1, BaseSaturation);
      assert Min(b2, BaseSaturation) * supply == supply * Min(b2, BaseSaturation);
    }
  }

  /** From four bases on, further bases do not change the gap. */
  lemma GapSaturatesAtFourBases(supply: nat, baseCount: nat)
    requires baseCount >= BaseSaturation
    ensures CalculateSupplyGap(supply, baseCount) == CalculateSupplyGap(supply, BaseSaturation)
  {
  }

  lemma GapExamples()
    ensures CalculateSupplyGap(0, 1) == 4
    ensures CalculateSupplyGap(13, 1) == 4
    ensures CalculateSupplyGap(80, 1) == 8
    ensures CalculateSupplyGap(0, 4) == 16
    ensures CalculateSupplyGap(0, 10) == 16
    ensures CalculateSupplyGap(200, 10) == 80
  {
  }
}

/**
 * Delivery Stress Index: a pure 0-100 score combining registered COMEX
 * inventory, the coverage ratio of open interest, the Shanghai premium and
 * the change in CME margins.
 */
module StressIndex {
  import opened Common

  datatype Level = Low | Moderate | High | Critical

  datatype Factors = Factors(inventoryScore: int, coverageScore: int, premiumScore: int, marginScore: int)

  datatype StressIndexData = StressIndexData(
    index: int,
    level: Level,
    factors: Factors,
    interpretation: string,
    timestamp: int)

  /** Open interest assumed when the caller gives none (or 0). */
  const DefaultOpenInterest: real := 180000.0
  /** Ounces of silver per futures contract. */
  const OzPerContract: real := 5000.0

  /** Inventory sub-score (0-30): lower registered inventory, more stress. */
  function InventoryScore(inventory: real): (s: int)
    ensures s in {0, 5, 12, 18, 24, 30}
    ensures 0 <= s <= 30
    ensures s == 0 <==> inventory >= 200.0
    ensures s == 5 <==> 150.0 <= inventory < 200.0
    ensures s == 12 <==> 100.0 <= inventory < 150.0
    ensures s == 18 <==> 75.0 <= inventory < 100.0
    ensures s == 24 <==> 50.0 <= inventory < 75.0
    ensures s == 30 <==> inventory < 50.0
  {
    if inventory >= 200.0 then 0
    else if inventory >= 150.0 then 5
    else if inventory >= 100.0 then 12
    else if inventory >= 75.0 then 18
    else if inventory >= 50.0 then 24
    else 30
  }

  /** The open interest actually used: `openInterest || 180000`. */
  function EffectiveOpenInterest(openInterest: Option<real>): (oi: real)
    ensures oi != 0.0
    ensures Truthy(openInterest) ==> oi == openInterest.value
    ensures !Truthy(openInterest) ==> oi == DefaultOpenInterest
  {
    OrElse(openInterest, DefaultOpenInterest)
  }

  /** Registered inventory (million oz) over the million ounces claimed by open interest. */
  function CoverageRatio(inventory: real, openInterest: real): (ratio: real)
    requires openInterest != 0.0
    ensures ratio * (openInterest * OzPerContract / 1000000.0) == inventory
  {
    var totalOzClaimed := openInterest * OzPerContract / 1000000.0;
    inventory / totalOzClaimed
  }

  /** Coverage sub-score (0-35): a lower ratio means more stress. */
  function CoverageScore(inventory: real, openInterest: real): (s: int)
    requires openInterest != 0.0
    ensures s in {0, 15, 25, 35}
    ensures 0 <= s <= 35
    ensures s == 0 <==> CoverageRatio(inventory, openInterest) >= 0.5
    ensures s == 15 <==> 0.3 <= CoverageRatio(inventory, openInterest) < 0.5
    ensures s == 25 <==> 0.15 <= CoverageRatio(inventory, openInterest) < 0.3
    ensures s == 35 <==> CoverageRatio(inventory, openInterest) < 0.15
  {
    var coverageRatio := CoverageRatio(inventory, openInterest);
    if coverageRatio >= 0.5 then 0
    else if coverageRatio >= 0.3 then 15
    else if coverageRatio >= 0.15 then 25
    else 35
  }

  /** Premium sub-score (0-20): a higher Shanghai premium means more stress. */
  function PremiumScore(premium: real): (s: int)
    ensures s in {0, 7, 13, 20}
    ensures 0 <= s <= 20
    ensures s == 0 <==> premium < 0.5
    ensures s == 7 <==> 0.5 <= premium < 2.0
    ensures s == 13 <==> 2.0 <= premium < 5.0
    ensures s == 20 <==> premium >= 5.0
  {
    if premium < 0.5 then 0
    else if premium < 2.0 then 7
    else if premium < 5.0 then 13
    else 20
  }

  /** Margin sub-score (0-15): a larger margin increase means more stress. */
  function MarginScore(changePercent: real): (s: int)
    ensures s in {0, 5, 10, 15}
    ensures 0 <= s <= 15
    ensures s == 0 <==> changePercent < 20.0
    ensures s == 5 <==> 20.0 <= changePercent < 50.0
    ensures s == 10 <==> 50.0 <= changePercent < 100.0
    ensures s == 15 <==> changePercent >= 100.0
  {
    if changePercent < 20.0 then 0
    else if changePercent < 50.0 then 5
    else if changePercent < 100.0 then 10
    else 15
  }

  /** Stress level as a step function of the index. */
  function LevelOf(index: int): (level: Level)
    ensures level == Low <==> index < 40
    ensures level == Moderate <==> 40 <= index < 60
    ensures level == High <==> 60 <= index < 80
    ensures level == Critical <==> index >= 80
  {
    if index < 40 then Low
    else if index < 60 then Moderate
    else if index < 80 then High
    else Critical
  }

  /** Position of a level in the order LOW < MODERATE < HIGH < CRITICAL. */
  function Rank(level: Level): nat {
    match level
    case Low => 0
    case Moderate => 1
    case High => 2
    case Critical => 3
  }

  /** The fixed human-readable text that goes with each level. */
  function Interpretation(level: Level): string {
    match level
    case Low => "Normal market conditions. Adequate inventory and healthy delivery mechanisms."
    case Moderate => "Elevated stress. Inventory declining but delivery system functioning."
    case High => "Significant stress. Inventory critically low. Delivery delays possible."
    case Critical => "Extreme stress. Force majeure risk. Physical shortage imminent."
  }

  function Sum(f: Factors): int {
    f.inventoryScore + f.coverageScore + f.premiumScore + f.marginScore
  }

  /**
   * calculateDeliveryStressIndex. The index is min(100, sum); `Math.round`
   * of an integer sum is the sum itself and is left out.
   */
  function CalculateDeliveryStressIndex(
    registeredInventory: real,
    openInterest: Option<real>,
    shanghaiPremium: real,
    marginChangePercent: real,
    now: int): (r: StressIndexData)
    ensures r.factors == Factors(
      InventoryScore(registeredInventory),
      CoverageScore(registeredInventory, EffectiveOpenInterest(openInterest)),
      PremiumScore(shanghaiPremium),
      MarginScore(marginChangePercent))
    ensures r.index == Sum(r.factors)
    ensures 0 <= r.index <= 100
    ensures r.level == LevelOf(r.index)
    ensures r.interpretation == Interpretation(r.level)
    ensures r.timestamp == now
  {
    var factors := Factors(
      InventoryScore(registeredInventory),
      CoverageScore(registeredInventory, EffectiveOpenInterest(openInterest)),
      PremiumScore(shanghaiPremium),
      MarginScore(marginChangePercent));
    var sum := Sum(factors);
    var index := if sum < 100 then sum else 100;
    var level := LevelOf(index);
    StressIndexData(index, level, factors, Interpretation(level), now)
  }

  lemma InventoryScoreNonIncreasing(a: real, b: real)
    requires a <= b
    ensures InventoryScore(b) <= InventoryScore(a)
  {
  }

  lemma CoverageScoreNonIncreasing(inventoryA: real, inventoryB: real, openInterest: real)
    requires openInterest > 0.0
    requires inventoryA <= inventoryB
    ensures CoverageScore(inventoryB, openInterest) <= CoverageScore(inventoryA, openInterest)
  {
    var claimed := openInterest * OzPerContract / 1000000.0;
    assert claimed > 0.0;
    assert CoverageRatio(inventoryA, openInterest) <= CoverageRatio(inventoryB, openInterest) by {
      assert inventoryA / claimed <= inventoryB / claimed;
    }
  }

  lemma PremiumScoreNonDecreasing(a: real, b: real)
    requires a <= b
    ensures PremiumScore(a) <= PremiumScore(b)
  {
  }

  lemma MarginScoreNonDecreasing(a: real, b: real)
    requires a <= b
    ensures MarginScore(a) <= MarginScore(b)
  {
  }

  lemma LevelMonotone(i: int, j: int)
    requires i <= j
    ensures Rank(LevelOf(i)) <= Rank(LevelOf(j))
  {
  }

  /** Worked examples for the inventory sub-score at the breakpoints. */
  lemma InventoryScoreExamples()
    ensures InventoryScore(200.0) == 0
    ensures InventoryScore(149.9) == 12
  {
  }

  /** 100M oz against 180,000 contracts covers about 11% of the claims: coverage score 35. */
  lemma CoverageExample()
    ensures CoverageScore(100.0, 180000.0) == 35
  {
    assert CoverageRatio(100.0, 180000.0) == 100.0 / 900.0;
  }

  /** 30.2M oz, premium 11.56, margin change 62.5%, default open interest: 95, CRITICAL. */
  lemma EndToEndExample(now: int)
    ensures CalculateDeliveryStressIndex(30.2, None, 11.56, 62.5, now).factors == Factors(30, 35, 20, 10)
    ensures CalculateDeliveryStressIndex(30.2, None, 11.56, 62.5, now).index == 95
    ensures CalculateDeliveryStressIndex(30.2, None, 11.56, 62.5, now).level == Critical
  {
    assert CoverageRatio(30.2, 180000.0) == 30.2 / 900.0;
  }

  /**
   * With a positive open interest, more registered inventory never raises
   * the index: both inventory-driven sub-scores are non-increasing.
   */
  lemma IndexNonIncreasingInInventory(invA: real, invB: real, oi: Option<real>, p: real, m: real, now: int)
    requires invA <= invB
    requires EffectiveOpenInterest(oi) > 0.0
    ensures CalculateDeliveryStressIndex(invB, oi, p, m, now).index <= CalculateDeliveryStressIndex(invA, oi, p, m, now).index
    ensures Rank(CalculateDeliveryStressIndex(invB, oi, p, m, now).level) <= Rank(CalculateDeliveryStressIndex(invA, oi, p, m, now).level)
  {
    InventoryScoreNonIncreasing(invA, invB);
    CoverageScoreNonIncreasing(invA, invB, EffectiveOpenInterest(oi));
    LevelMonotone(CalculateDeliveryStressIndex(invB, oi, p, m, now).index, CalculateDeliveryStressIndex(invA, oi, p, m, now).index);
  }
}

/**
 * The gamification engine: logarithmic levels, the points table for user actions and
 * the achievement catalogue evaluated against a snapshot of the user's statistics.
 * Levels are computed in exact arithmetic: `Math.log(points + 100) / Math.log(1.5)`
 * rounded down is the largest `k` with `1.5^k <= points + 100`.
 */
module Gamification {

  import opened Wrappers

  // ---- Data model ----

  datatype AchievementCategory = InventoryCategory | Recipes | Community | Scanning | WasteReduction

  datatype Tier = Bronze | Silver | Gold | Platinum

  datatype Achievement = Achievement(
    id: string,
    name: string,
    description: string,
    icon: string,
    requiredPoints: int,
    isUnlocked: bool,
    progress: real,
    category: AchievementCategory,
    level: Tier)

  datatype WasteReductionStats = WasteReductionStats(totalKgSaved: real, co2Saved: real, waterSaved: real, moneySaved: real)

  datatype StreakStats = StreakStats(currentStreak: int, longestStreak: int, lastCheckIn: Option<int>)

  datatype InventoryStats = InventoryStats(totalItemsTracked: int, expiryPreventionRate: real)

  datatype CommunityStats = CommunityStats(itemsShared: int, itemsReceived: int, peopleHelped: int)

  datatype UserStats = UserStats(
    totalPoints: int,
    level: int,
    wasteReduction: WasteReductionStats,
    streaks: StreakStats,
    inventory: InventoryStats,
    community: CommunityStats)

  // ---- Levels ----

  /** 1.5 to the power `n`. */
  function Pow(n: nat): (r: real)
    ensures r >= 1.0
  {
    if n == 0 then 1.0 else 1.5 * Pow(n - 1)
  }

  lemma {:induction false} PowGrowsLinearly(n: nat)
    ensures Pow(n) >= 1.0 + (n as real) / 2.0
  {
    if n > 0 {
      PowGrowsLinearly(n - 1);
    }
  }

  lemma {:induction false} PowStrictlyIncreasing(m: nat, n: nat)
    requires m < n
    ensures Pow(m) < Pow(n)
    decreases n - m
  {
    if m + 1 < n {
      PowStrictlyIncreasing(m + 1, n);
    }
  }

  /** The largest exponent `e >= k` with `1.5^e <= x`. */
  function LevelExponent(x: int, k: nat): (e: nat)
    requires Pow(k) <= x as real
    ensures k <= e && Pow(e) <= x as real < Pow(e + 1)
    decreases 2 * x - k
  {
    if x as real < Pow(k + 1) then k
    else
      PowGrowsLinearly(k + 1);
      LevelExponent(x, k + 1)
  }

  /** `calculateLevel`: the level L with 1.5^(L+9) <= points + 100 < 1.5^(L+10). */
  function CalculateLevel(points: int): (level: int)
    requires points > -100
    ensures -9 <= level
    ensures Pow(level + 9) <= (points + 100) as real < Pow(level + 10)
  {
    LevelExponent(points + 100, 0) - 9
  }

  lemma PowMonotone(m: nat, n: nat)
    requires m <= n
    ensures Pow(m) <= Pow(n)
  {
    if m < n {
      PowStrictlyIncreasing(m, n);
    }
  }

  /** The characterisation picks exactly one level. */
  lemma LevelIsUnique(points: int, level: int)
    requires points > -100 && level >= -9
    requires Pow(level + 9) <= (points + 100) as real < Pow(level + 10)
    ensures CalculateLevel(points) == level
  {
    var l := CalculateLevel(points);
    if l < level {
      PowMonotone(l + 10, level + 9);
    } else if l > level {
      PowMonotone(level + 10, l + 9);
    }
  }

  /** More points never mean a lower level. */
  lemma LevelMonotone(p1: int, p2: int)
    requires -100 < p1 <= p2
    ensures CalculateLevel(p1) <= CalculateLevel(p2)
  {
    var l1, l2 := CalculateLevel(p1), CalculateLevel(p2);
    if l1 > l2 {
      PowMonotone(l2 + 10, l1 + 9);
    }
  }

  /** `calculatePointsForNextLevel`: `Math.floor(1.5^(L+10)) - 100`; below exponent 0 the power is in (0, 1). */
  function PointsForNextLevel(level: int): (points: int)
    ensures level + 10 >= 0 ==> (points + 100) as real <= Pow(level + 10) < (points + 101) as real
    ensures level + 10 < 0 ==> points == -100
  {
    if level + 10 >= 0 then Pow(level + 10).Floor - 100 else -100
  }

  function Pow2(n: nat): nat { if n == 0 then 1 else 2 * Pow2(n - 1) }

  function Pow3(n: nat): nat { if n == 0 then 1 else 3 * Pow3(n - 1) }

  lemma {:induction false} PowIsRatio(n: nat)
    ensures Pow(n) * (Pow2(n) as real) == Pow3(n) as real
  {
    if n > 0 {
      PowIsRatio(n - 1);
      calc {
        Pow(n) * (Pow2(n) as real);
        (1.5 * Pow(n - 1)) * (2.0 * Pow2(n - 1) as real);
        3.0 * (Pow(n - 1) * (Pow2(n - 1) as real));
      }
    }
  }

  lemma {:induction false} Pow3IsOdd(n: nat)
    ensures Pow3(n) % 2 == 1
  {
    if n > 0 {
      Pow3IsOdd(n - 1);
      var h := Pow3(n - 1) / 2;
      assert Pow3(n - 1) == 2 * h + 1;
      assert Pow3(n) == 2 * (3 * h + 1) + 1;
      assert (2 * (3 * h + 1) + 1) % 2 == 1;
    }
  }

  /** A whole number equal to 1.5^n, scaled by 2^n, is 3^n. */
  lemma WholePowScaled(x: int, n: nat)
    ensures x as real == Pow(n) ==> x * Pow2(n) == Pow3(n)
  {
    PowIsRatio(n);
    assert (x * Pow2(n)) as real == (x as real) * (Pow2(n) as real);
  }

  lemma {:induction false} TimesPow2IsEven(x: int, n: nat)
    requires n >= 1
    ensures (x * Pow2(n)) % 2 == 0
  {
    var y := x * Pow2(n - 1);
    assert Pow2(n) == 2 * Pow2(n - 1);
    assert x * (2 * Pow2(n - 1)) == 2 * y;
    assert (2 * y) % 2 == 0;
  }

  /** For a positive exponent, 1.5^n is not a whole number: its floor lies strictly below it. */
  lemma PowNotWhole(n: nat)
    requires n >= 1
    ensures (Pow(n).Floor as real) < Pow(n)
  {
    var f := Pow(n).Floor;
    WholePowScaled(f, n);
    TimesPow2IsEven(f, n);
    Pow3IsOdd(n);
  }

  /** The points returned for level L are the last total still at level L; one more reaches L + 1. */
  lemma PointsForNextLevelIsLastOfLevel(level: int)
    requires level >= -9
    ensures PointsForNextLevel(level) > -100
    ensures CalculateLevel(PointsForNextLevel(level)) == level
    ensures CalculateLevel(PointsForNextLevel(level) + 1) == level + 1
  {
    var n: nat := level + 10;
    var p := PointsForNextLevel(level);
    PowNotWhole(n);
    assert Pow(n) == 1.5 * Pow(n - 1);
    assert Pow(n + 1) == 1.5 * Pow(n);
    assert Pow(2) == 2.25;
    if n > 2 {
      PowStrictlyIncreasing(2, n);
    }
    LevelIsUnique(p, level);
    LevelIsUnique(p + 1, level + 1);
  }

  /** Below level -9 the round trip breaks: the points for level -10 already sit at level -9. */
  lemma RoundTripFailsAtMinusTen()
    ensures PointsForNextLevel(-10) == -99
    ensures CalculateLevel(-99) == -9
  {
    assert Pow(0) == 1.0;
    LevelIsUnique(-99, -9);
  }

  // ---- Points ----

  /** The points earned per unit of each listed action. */
  const PointValues: map<string, int> := map[
    "item_added" := 5,
    "item_consumed" := 10,
    "item_shared" := 25,
    "recipe_used" := 15,
    "expiry_prevented" := 20,
    "daily_check_in" := 5,
    "weekly_goal_completed" := 50,
    "challenge_completed" := 100,
    "community_contribution" := 30,
    "feedback_provided" := 10,
    "first_scan" := 20,
    "profile_completed" := 15]

  /** `awardPoints(userId, action, quantity = 1)`: the table value, or 1 for an unlisted action, times `quantity`. */
  function AwardPoints(action: string, quantity: int := 1): (points: int)
    ensures action in PointValues ==> points == PointValues[action] * quantity
    ensures action !in PointValues ==> points == quantity
  {
    var perUnit := if action in PointValues && PointValues[action] != 0 then PointValues[action] else 1;
    perUnit * quantity
  }

  /** Every listed action is worth at least 5 points, so `|| 1` only ever applies to unlisted actions. */
  lemma TableValuesPositive()
    ensures forall a :: a in PointValues ==> PointValues[a] >= 5
  {
  }

  /** The award is linear in the quantity; the default quantity is 1. */
  lemma AwardIsLinear(action: string, q1: int, q2: int)
    ensures AwardPoints(action, q1 + q2) == AwardPoints(action, q1) + AwardPoints(action, q2)
    ensures AwardPoints(action, q1) == q1 * AwardPoints(action)
  {
  }

  lemma AwardExamples()
    ensures AwardPoints("item_shared", 2) == 50
    ensures AwardPoints("unknown_action", 3) == 3
    ensures AwardPoints("challenge_completed") == 100
  {
  }

  // ---- Achievements ----

  /** `Math.min(value / threshold, 1) * 100`: the percentage of the threshold reached, capped at 100. */
  function Progress(value: real, threshold: real): (r: real)
    requires threshold > 0.0
    ensures value >= 0.0 ==> 0.0 <= r
    ensures r <= 100.0
    ensures r == 100.0 <==> value >= threshold
    ensures value <= threshold ==> r * threshold == value * 100.0
  {
    var ratio := value / threshold;
    assert ratio >= 1.0 <==> value >= threshold by {
      assert ratio * threshold == value;
    }
    (if ratio < 1.0 then ratio else 1.0) * 100.0
  }

  /** An achievement that unlocks when `value` reaches `threshold`. */
  function ThresholdAchievement(id: string, name: string, description: string, icon: string,
                                requiredPoints: int, value: real, threshold: real,
                                category: AchievementCategory, tier: Tier): (a: Achievement)
    requires threshold > 0.0
    ensures a.isUnlocked <==> value >= threshold
    ensures a.isUnlocked <==> a.progress == 100.0
  {
    Achievement(id, name, description, icon, requiredPoints, value >= threshold,
                Progress(value, threshold), category, tier)
  }

  const WasteWarriorBronzeId := "waste_warrior_bronze"
  const WasteWarriorSilverId := "waste_warrior_silver"
  const CommunityHeroBronzeId := "community_hero_bronze"
  const InventoryMasterBronzeId := "inventory_master_bronze"
  const ScannerProBronzeId := "scanner_pro_bronze"

  /** `checkAchievements`: the fixed catalogue of five, recomputed from the statistics. */
  function CheckAchievements(stats: UserStats): (r: seq<Achievement>)
    ensures |r| == 5
    ensures r[0].id == WasteWarriorBronzeId && r[1].id == WasteWarriorSilverId
    ensures r[2].id == CommunityHeroBronzeId && r[3].id == InventoryMasterBronzeId
    ensures r[4].id == ScannerProBronzeId
    ensures r[0].isUnlocked <==> stats.wasteReduction.totalKgSaved >= 5.0
    ensures r[1].isUnlocked <==> stats.wasteReduction.totalKgSaved >= 25.0
    ensures r[2].isUnlocked <==> stats.community.itemsShared >= 5
    ensures r[3].isUnlocked <==> stats.inventory.totalItemsTracked >= 20
    ensures forall i :: 0 <= i < 4 ==> (r[i].isUnlocked <==> r[i].progress == 100.0)
    ensures r[0].progress == Progress(stats.wasteReduction.totalKgSaved, 5.0)
    ensures r[1].progress == Progress(stats.wasteReduction.totalKgSaved, 25.0)
    ensures r[2].progress == Progress(stats.community.itemsShared as real, 5.0)
    ensures r[3].progress == Progress(stats.inventory.totalItemsTracked as real, 20.0)
    ensures !r[4].isUnlocked && r[4].progress == 40.0
  {
    var kg := stats.wasteReduction.totalKgSaved;
    [WasteWarriorBronze(kg), WasteWarriorSilver(kg), CommunityHeroBronze(stats.community.itemsShared),
     InventoryMasterBronze(stats.inventory.totalItemsTracked), ScannerProBronze()]
  }

  function WasteWarriorBronze(kg: real): (a: Achievement)
    ensures a.id == WasteWarriorBronzeId && a.progress == Progress(kg, 5.0)
    ensures a.isUnlocked <==> kg >= 5.0
    ensures a.isUnlocked <==> a.progress == 100.0
  {
    ThresholdAchievement(WasteWarriorBronzeId, "Guerrier Anti-Gaspillage Bronze",
      "Sauvez 5kg de nourriture du gaspillage", "award", 100, kg, 5.0, WasteReduction, Bronze)
  }

  function WasteWarriorSilver(kg: real): (a: Achievement)
    ensures a.id == WasteWarriorSilverId && a.progress == Progress(kg, 25.0)
    ensures a.isUnlocked <==> kg >= 25.0
    ensures a.isUnlocked <==> a.progress == 100.0
  {
    ThresholdAchievement(WasteWarriorSilverId, "Guerrier Anti-Gaspillage Argent",
      "Sauvez 25kg de nourriture du gaspillage", "award", 250, kg, 25.0, WasteReduction, Silver)
  }

  function CommunityHeroBronze(itemsShared: int): (a: Achievement)
    ensures a.id == CommunityHeroBronzeId && a.progress == Progress(itemsShared as real, 5.0)
    ensures a.isUnlocked <==> itemsShared >= 5
    ensures a.isUnlocked <==> a.progress == 100.0
  {
    ThresholdAchievement(CommunityHeroBronzeId, "Héros Communautaire Bronze",
      "Partagez 5 articles avec votre communauté", "users", 150,
      itemsShared as real, 5.0, Community, Bronze)
  }

  function InventoryMasterBronze(totalItemsTracked: int): (a: Achievement)
    ensures a.id == InventoryMasterBronzeId && a.progress == Progress(totalItemsTracked as real, 20.0)
    ensures a.isUnlocked <==> totalItemsTracked >= 20
    ensures a.isUnlocked <==> a.progress == 100.0
  {
    ThresholdAchievement(InventoryMasterBronzeId, "Maître d'Inventaire Bronze",
      "Suivez 20 articles dans votre inventaire", "list", 120,
      totalItemsTracked as real, 20.0, InventoryCategory, Bronze)
  }

  /** The scanner achievement is fixed in the source: locked, at 40 %. */
  function ScannerProBronze(): (a: Achievement)
    ensures a.id == ScannerProBronzeId && !a.isUnlocked && a.progress == 40.0
  {
    Achievement(ScannerProBronzeId, "Scanner Pro Bronze",
      "Scannez 10 articles avec la reconnaissance d'image", "camera", 100, false, 40.0, Scanning, Bronze)
  }

  predicate NonNegative(stats: UserStats)
  {
    stats.wasteReduction.totalKgSaved >= 0.0 && stats.community.itemsShared >= 0 &&
    stats.inventory.totalItemsTracked >= 0
  }

  /** With non-negative statistics every progress lies in [0, 100], and silver implies bronze. */
  lemma AchievementsWellFormed(stats: UserStats)
    requires NonNegative(stats)
    ensures forall a :: a in CheckAchievements(stats) ==> 0.0 <= a.progress <= 100.0
    ensures CheckAchievements(stats)[1].isUnlocked ==> CheckAchievements(stats)[0].isUnlocked
  {
    var r := CheckAchievements(stats);
    var kg := stats.wasteReduction.totalKgSaved;
    assert r[0].progress == Progress(kg, 5.0);
    assert r[1].progress == Progress(kg, 25.0);
    assert r[2].progress == Progress(stats.community.itemsShared as real, 5.0);
    assert r[3].progress == Progress(stats.inventory.totalItemsTracked as real, 20.0);
    forall a | a in r
      ensures 0.0 <= a.progress <= 100.0
    {
      var i :| 0 <= i < 5 && r[i] == a;
    }
  }

  /** 2.5 kg saved out of 5 is halfway to the bronze waste warrior, still locked. */
  lemma HalfwayToBronze(stats: UserStats)
    requires stats.wasteReduction.totalKgSaved == 2.5
    ensures CheckAchievements(stats)[0].progress == 50.0
    ensures !CheckAchievements(stats)[0].isUnlocked
  {
    assert CheckAchievements(stats)[0].progress == Progress(2.5, 5.0);
  }
}

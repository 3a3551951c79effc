/**
 * The rule-based food-waste predictor: per inventory item, a waste probability from
 * the days left before expiry and the household's consumption pattern, a risk band,
 * a suggested action with its reasoning text, and the impact of saving the item.
 * The clock is the parameter `now` (milliseconds since the epoch).
 */
module WastePredictor {

  import opened Wrappers
  import Text

  const MsPerDay: int := 1000 * 60 * 60 * 24

  datatype Quantity = Quantity(amount: real, unit: string)

  datatype EnvironmentalData = EnvironmentalData(co2PerKg: real, waterPerKg: real)

  /** The fields of an inventory item that the predictor reads. */
  datatype FoodItem = FoodItem(
    id: string,
    name: string,
    category: string,
    quantity: Quantity,
    expiryDate: int,
    price: Option<real>,
    canBePreserved: bool,
    environmentalData: Option<EnvironmentalData>)

  datatype ConsumptionPattern = ConsumptionPattern(
    category: string,
    frequencyDays: real,
    averageConsumptionAmount: real)

  datatype Risk = Low | Medium | High

  datatype Action = Consume | Preserve | Share | Donate

  datatype Impact = Impact(co2Saved: real, waterSaved: real)

  datatype WastePrediction = WastePrediction(
    itemId: string,
    itemName: string,
    wasteRisk: Risk,
    wasteProbability: real,
    suggestedAction: Action,
    reasoning: string,
    optimalConsumptionDate: int,
    potentialWasteCost: real,
    environmentalImpact: Impact)

  datatype Advice = Advice(action: Action, reasoning: string)

  const ExpiresTodayText: string := "Cet aliment expire très bientôt et devrait être consommé aujourd'hui."
  const ShareText: string := "Cet aliment a un risque élevé d'être gaspillé. Envisagez de le partager avec des voisins."
  const PreserveText: string := "Cet aliment peut être congelé ou préservé pour éviter le gaspillage."
  const PlanMealText: string := "Planifiez un repas avec cet ingrédient dans les prochains jours."
  const OnTimeText: string := "Cet aliment sera probablement consommé à temps selon vos habitudes."

  /** JavaScript's `x || d` on a number: 0 counts as missing. */
  function OrDefault(x: real, d: real): (r: real)
    ensures r == d || r == x
    ensures (r == d) <==> (x == 0.0 || x == d)
  {
    if x == 0.0 then d else x
  }

  /** Whole days until expiry, rounded down (`Math.floor` of the millisecond difference). */
  function DaysUntilExpiry(expiryDate: int, now: int): (d: int)
    ensures d * MsPerDay <= expiryDate - now < (d + 1) * MsPerDay
  {
    (expiryDate - now) / MsPerDay
  }

  /** The first pattern of the given category (`Array.prototype.find`). */
  function FindPattern(patterns: seq<ConsumptionPattern>, category: string): (r: Option<ConsumptionPattern>)
    ensures r.Some? ==> r.value in patterns && r.value.category == category
    ensures r.None? <==> forall i :: 0 <= i < |patterns| ==> patterns[i].category != category
    ensures r.Some? ==> exists i :: 0 <= i < |patterns| && patterns[i] == r.value &&
                          forall j :: 0 <= j < i ==> patterns[j].category != category
    decreases |patterns|
  {
    if patterns == [] then None
    else if patterns[0].category == category then Some(patterns[0])
    else
      var r := FindPattern(patterns[1..], category);
      assert r.Some? ==> exists i :: 1 <= i < |patterns| && patterns[i] == r.value &&
                          forall j :: 0 <= j < i ==> patterns[j].category != category by {
        if r.Some? {
          var i :| 0 <= i < |patterns[1..]| && patterns[1..][i] == r.value &&
                   forall j :: 0 <= j < i ==> patterns[1..][j].category != category;
          assert patterns[i + 1] == r.value;
          assert forall j :: 0 <= j < i + 1 ==> patterns[j].category != category by {
            forall j | 0 <= j < i + 1 ensures patterns[j].category != category {
              if j > 0 { assert patterns[j] == patterns[1..][j - 1]; }
            }
          }
        }
      }
      r
  }

  /** `consumptionPattern?.frequencyDays || 7`: never zero, so safe to divide by. */
  function ConsumptionFrequency(pattern: Option<ConsumptionPattern>): (f: real)
    ensures f != 0.0
    ensures pattern.None? ==> f == 7.0
    ensures pattern.Some? && pattern.value.frequencyDays != 0.0 ==> f == pattern.value.frequencyDays
  {
    match pattern
    case None => 7.0
    case Some(p) => OrDefault(p.frequencyDays, 7.0)
  }

  /** The three-band probability before the surplus bump and the clamp. */
  function BaseProbability(days: int, frequency: real): (p: real)
    requires frequency != 0.0
    ensures days < 0 ==> p == 1.0
    ensures frequency > 0.0 && days >= 0 ==> p <= 0.7
    ensures frequency > 0.0 && days >= 0 && (days as real) < frequency / 2.0 ==> 0.2 < p
    ensures frequency > 0.0 && (days as real) >= frequency / 2.0 ==> p <= 0.225 && (p >= 0.0 <==> (days as real) <= 2.0 * frequency)
  {
    var d := days as real;
    if days < 0 then 1.0
    else if d < frequency / 2.0 then
      assert frequency > 0.0 ==> 0.0 <= d / frequency < 0.5 by {
        if frequency > 0.0 {
          RatioBelow(d, frequency, 0.0);
          RatioBelow(d, frequency, 0.5);
        }
      }
      0.7 - d / frequency
    else
      assert frequency > 0.0 ==> 0.25 <= d / (frequency * 2.0) && (d / (frequency * 2.0) <= 1.0 <==> d <= 2.0 * frequency) by {
        if frequency > 0.0 {
          RatioBelow(d, frequency * 2.0, 0.25);
          RatioBelow(d, frequency * 2.0, 1.0);
        }
      }
      0.3 * (1.0 - d / (frequency * 2.0))
  }

  /** Comparing a quotient with a constant is comparing the dividend with the scaled constant. */
  lemma RatioBelow(x: real, y: real, c: real)
    requires y > 0.0
    ensures x / y < c <==> x < c * y
    ensures x / y <= c <==> x <= c * y
  {
    var r := x / y;
    assert r * y == x;
    if r < c {
      assert r * y < c * y;
    } else {
      assert r * y >= c * y;
    }
    if r <= c {
      assert r * y <= c * y;
    } else {
      assert r * y > c * y;
    }
  }

  /** `item.quantity.amount > consumptionPattern?.averageConsumptionAmount`; false without a pattern. */
  predicate HasSurplus(item: FoodItem, pattern: Option<ConsumptionPattern>)
    ensures pattern.None? ==> !HasSurplus(item, pattern)
  {
    pattern.Some? && item.quantity.amount > pattern.value.averageConsumptionAmount
  }

  /** `Math.max(0, Math.min(1, x))`. */
  function Clamp01(x: real): (r: real)
    ensures 0.0 <= r <= 1.0
    ensures 0.0 <= x <= 1.0 ==> r == x
    ensures x < 0.0 ==> r == 0.0
    ensures x > 1.0 ==> r == 1.0
  {
    if x > 1.0 then 1.0 else if x < 0.0 then 0.0 else x
  }

  /** The clamped waste probability of one item. */
  function Probability(days: int, pattern: Option<ConsumptionPattern>, item: FoodItem): (p: real)
    ensures 0.0 <= p <= 1.0
    ensures days < 0 ==> p == 1.0
  {
    var base := BaseProbability(days, ConsumptionFrequency(pattern));
    Clamp01(if HasSurplus(item, pattern) then base + 0.2 else base)
  }

  /** The risk band: an exact partition of the probability at 0.3 and 0.7. */
  function RiskOf(p: real): (r: Risk)
    ensures r == Low <==> p < 0.3
    ensures r == Medium <==> 0.3 <= p < 0.7
    ensures r == High <==> 0.7 <= p
  {
    if p < 0.3 then Low else if p < 0.7 then Medium else High
  }

  /** The suggested action and its reasoning, first matching rule wins. */
  function AdviceFor(p: real, days: int, canBePreserved: bool): (a: Advice)
    ensures a.action != Donate
    ensures a.action == Share <==> p > 0.7 && days >= 1
    ensures a.action == Preserve <==> 0.4 < p <= 0.7 && canBePreserved
    ensures a.action == Consume <==> (p > 0.7 && days < 1) || (0.4 < p <= 0.7 && !canBePreserved) || p <= 0.4
    ensures a.reasoning == ExpiresTodayText <==> p > 0.7 && days < 1
    ensures a.reasoning == PlanMealText <==> 0.4 < p <= 0.7 && !canBePreserved
    ensures a.reasoning == OnTimeText <==> p <= 0.4
    ensures a.reasoning == ShareText <==> a.action == Share
    ensures a.reasoning == PreserveText <==> a.action == Preserve
  {
    ReasoningTextsDistinct();
    if p > 0.7 then
      if days < 1 then Advice(Consume, ExpiresTodayText) else Advice(Share, ShareText)
    else if p > 0.4 then
      if canBePreserved then Advice(Preserve, PreserveText) else Advice(Consume, PlanMealText)
    else Advice(Consume, OnTimeText)
  }

  /** The five reasoning texts are pairwise different, so the text tells which rule fired. */
  lemma ReasoningTextsDistinct()
    ensures ExpiresTodayText != ShareText && ExpiresTodayText != PreserveText
    ensures ExpiresTodayText != PlanMealText && ExpiresTodayText != OnTimeText
    ensures ShareText != PreserveText && ShareText != PlanMealText && ShareText != OnTimeText
    ensures PreserveText != PlanMealText && PreserveText != OnTimeText
    ensures PlanMealText != OnTimeText
  {
    assert |ExpiresTodayText| == 69 && |ShareText| == 89 && |PreserveText| == 68;
    assert |PlanMealText| == 64 && |OnTimeText| == 67;
  }

  /** Weight in kilograms: `kg` as is, `g` divided by 1000, any other unit an estimated 0.5 kg. */
  function WeightInKg(q: Quantity): (w: real)
    ensures q.unit == "kg" ==> w == q.amount
    ensures q.unit == "g" ==> w * 1000.0 == q.amount
    ensures q.unit != "kg" && q.unit != "g" ==> w == 0.5
  {
    if q.unit == "kg" then q.amount else if q.unit == "g" then q.amount / 1000.0 else 0.5
  }

  /** CO2 and water saved, with the per-kilogram factors defaulting to 2.5 and 1000. */
  function ImpactOf(item: FoodItem): (r: Impact)
    ensures var w := WeightInKg(item.quantity);
      match item.environmentalData
      case None => r == Impact(2.5 * w, 1000.0 * w)
      case Some(e) =>
        r.co2Saved == (if e.co2PerKg == 0.0 then 2.5 else e.co2PerKg) * w &&
        r.waterSaved == (if e.waterPerKg == 0.0 then 1000.0 else e.waterPerKg) * w
  {
    var co2PerKg := match item.environmentalData
                    case None => 2.5
                    case Some(e) => OrDefault(e.co2PerKg, 2.5);
    var waterPerKg := match item.environmentalData
                      case None => 1000.0
                      case Some(e) => OrDefault(e.waterPerKg, 1000.0);
    var w := WeightInKg(item.quantity);
    Impact(co2PerKg * w, waterPerKg * w)
  }

  /** The prediction for one item. */
  function Predict(item: FoodItem, patterns: seq<ConsumptionPattern>, now: int): (r: WastePrediction)
    ensures r.itemId == item.id && r.itemName == item.name
    ensures 0.0 <= r.wasteProbability <= 1.0
    ensures DaysUntilExpiry(item.expiryDate, now) < 0 ==> r.wasteProbability == 1.0 && r.wasteRisk == High
    ensures r.wasteRisk == RiskOf(r.wasteProbability)
    ensures r.suggestedAction != Donate
    ensures var days := DaysUntilExpiry(item.expiryDate, now);
      r.wasteProbability == Probability(days, FindPattern(patterns, item.category), item) &&
      r.suggestedAction == AdviceFor(r.wasteProbability, days, item.canBePreserved).action &&
      r.reasoning == AdviceFor(r.wasteProbability, days, item.canBePreserved).reasoning
    ensures r.environmentalImpact == ImpactOf(item)
    ensures r.potentialWasteCost == item.price.GetOr(0.0)
  {
    var days := DaysUntilExpiry(item.expiryDate, now);
    var pattern := FindPattern(patterns, item.category);
    var p := Probability(days, pattern, item);
    var advice := AdviceFor(p, days, item.canBePreserved);
    WastePrediction(
      item.id, item.name, RiskOf(p), p, advice.action, advice.reasoning,
      now + (days - 1) * MsPerDay,
      item.price.GetOr(0.0),
      ImpactOf(item))
  }

  /** `predictFoodWaste`: one prediction per item, in inventory order. */
  function PredictFoodWaste(inventory: seq<FoodItem>, patterns: seq<ConsumptionPattern>, now: int)
    : (r: seq<WastePrediction>)
    ensures |r| == |inventory|
    ensures forall i :: 0 <= i < |r| ==> r[i] == Predict(inventory[i], patterns, now)
    ensures forall i :: 0 <= i < |r| ==> r[i].itemId == inventory[i].id && r[i].itemName == inventory[i].name
    decreases |inventory|
  {
    if inventory == [] then []
    else [Predict(inventory[0], patterns, now)] + PredictFoodWaste(inventory[1..], patterns, now)
  }

  /**
   * The per-item computation as the source writes it: `wasteProbability` is assigned,
   * bumped and clamped in turn, then the risk and the action are chosen by if-chains.
   */
  method PredictItem(item: FoodItem, patterns: seq<ConsumptionPattern>, now: int) returns (pred: WastePrediction)
    ensures pred == Predict(item, patterns, now)
  {
    var daysUntilExpiry := (item.expiryDate - now) / MsPerDay;
    var consumptionPattern := FindPattern(patterns, item.category);
    var wasteProbability := ComputeProbability(daysUntilExpiry, consumptionPattern, item);

    var wasteRisk := ChooseRisk(wasteProbability);
    var suggestedAction, reasoning := ChooseAction(wasteProbability, daysUntilExpiry, item.canBePreserved);
    var impact := ComputeImpact(item);
    pred := WastePrediction(
      item.id, item.name, wasteRisk, wasteProbability, suggestedAction, reasoning,
      now + (daysUntilExpiry - 1) * MsPerDay,
      if item.price.Some? then item.price.value else 0.0,
      impact);
  }

  /** The risk if-chain of the per-item body. */
  method ChooseRisk(wasteProbability: real) returns (wasteRisk: Risk)
    ensures wasteRisk == RiskOf(wasteProbability)
  {
    if wasteProbability < 0.3 {
      wasteRisk := Low;
    } else if wasteProbability < 0.7 {
      wasteRisk := Medium;
    } else {
      wasteRisk := High;
    }
  }

  /** The impact steps of the per-item body: default factors, overridden by the item's data, times the weight. */
  method ComputeImpact(item: FoodItem) returns (impact: Impact)
    ensures impact == ImpactOf(item)
  {
    var co2PerKg := 2.5;
    var waterPerKg := 1000.0;
    if item.environmentalData.Some? {
      co2PerKg := OrDefault(item.environmentalData.value.co2PerKg, 2.5);
      waterPerKg := OrDefault(item.environmentalData.value.waterPerKg, 1000.0);
    }
    var weightInKg := if item.quantity.unit == "kg" then item.quantity.amount
                      else if item.quantity.unit == "g" then item.quantity.amount / 1000.0
                      else 0.5;
    impact := Impact(co2PerKg * weightInKg, waterPerKg * weightInKg);
  }

  /** The probability steps of the per-item body: default frequency, three bands, bump, clamp. */
  method ComputeProbability(daysUntilExpiry: int, consumptionPattern: Option<ConsumptionPattern>, item: FoodItem)
    returns (wasteProbability: real)
    ensures wasteProbability == Probability(daysUntilExpiry, consumptionPattern, item)
    ensures 0.0 <= wasteProbability <= 1.0
  {
    var consumptionFrequency := 7.0;
    if consumptionPattern.Some? && consumptionPattern.value.frequencyDays != 0.0 {
      consumptionFrequency := consumptionPattern.value.frequencyDays;
    }

    wasteProbability := 0.0;
    if daysUntilExpiry < 0 {
      wasteProbability := 1.0;
    } else if (daysUntilExpiry as real) < consumptionFrequency / 2.0 {
      wasteProbability := 0.7 - (daysUntilExpiry as real) / consumptionFrequency;
    } else {
      wasteProbability := 0.3 * (1.0 - (daysUntilExpiry as real) / (consumptionFrequency * 2.0));
    }

    if consumptionPattern.Some? && item.quantity.amount > consumptionPattern.value.averageConsumptionAmount {
      wasteProbability := wasteProbability + 0.2;
    }

    wasteProbability := if wasteProbability > 1.0 then 1.0 else wasteProbability;
    wasteProbability := if wasteProbability < 0.0 then 0.0 else wasteProbability;
  }

  /** The action if-chain of the per-item body. */
  method ChooseAction(wasteProbability: real, daysUntilExpiry: int, canBePreserved: bool)
    returns (suggestedAction: Action, reasoning: string)
    ensures Advice(suggestedAction, reasoning) == AdviceFor(wasteProbability, daysUntilExpiry, canBePreserved)
    ensures suggestedAction != Donate
  {
    if wasteProbability > 0.7 {
      if daysUntilExpiry < 1 {
        suggestedAction, reasoning := Consume, ExpiresTodayText;
      } else {
        suggestedAction, reasoning := Share, ShareText;
      }
    } else if wasteProbability > 0.4 {
      if canBePreserved {
        suggestedAction, reasoning := Preserve, PreserveText;
      } else {
        suggestedAction, reasoning := Consume, PlanMealText;
      }
    } else {
      suggestedAction, reasoning := Consume, OnTimeText;
    }
  }

  // ---- Properties of the predictor ----

  /** An expired item is certain waste and high risk, whatever its pattern or surplus. */
  lemma ExpiredIsCertainWaste(item: FoodItem, patterns: seq<ConsumptionPattern>, now: int)
    requires item.expiryDate < now
    ensures Predict(item, patterns, now).wasteProbability == 1.0
    ensures Predict(item, patterns, now).wasteRisk == High
  {
    assert DaysUntilExpiry(item.expiryDate, now) < 0;
  }

  /** The clamp is needed: the banded value plus the bump can leave [0, 1] on both sides. */
  lemma ClampIsNeeded()
    ensures BaseProbability(-1, 7.0) + 0.2 > 1.0
    ensures BaseProbability(70, 7.0) + 0.2 < 0.0
  {
  }

  /** Without a pattern for the category the frequency is 7 days and there is never a surplus bump. */
  lemma NoPatternDefaults(item: FoodItem, patterns: seq<ConsumptionPattern>, now: int)
    requires forall i :: 0 <= i < |patterns| ==> patterns[i].category != item.category
    ensures ConsumptionFrequency(FindPattern(patterns, item.category)) == 7.0
    ensures !HasSurplus(item, FindPattern(patterns, item.category))
    ensures Predict(item, patterns, now).wasteProbability ==
            Clamp01(BaseProbability(DaysUntilExpiry(item.expiryDate, now), 7.0))
  {
  }

  /** A zero frequency counts as missing and defaults to 7 days. */
  lemma ZeroFrequencyDefaults(p: ConsumptionPattern)
    requires p.frequencyDays == 0.0
    ensures ConsumptionFrequency(Some(p)) == 7.0
  {
  }

  /** With at least two cycles left and no surplus, the probability is 0 and the risk low. */
  lemma FarFromExpiryIsSafe(item: FoodItem, patterns: seq<ConsumptionPattern>, now: int)
    requires ConsumptionFrequency(FindPattern(patterns, item.category)) > 0.0
    requires (DaysUntilExpiry(item.expiryDate, now) as real) >=
             2.0 * ConsumptionFrequency(FindPattern(patterns, item.category))
    requires !HasSurplus(item, FindPattern(patterns, item.category))
    ensures Predict(item, patterns, now).wasteProbability == 0.0
    ensures Predict(item, patterns, now).wasteRisk == Low
  {
    var days := DaysUntilExpiry(item.expiryDate, now);
    var pattern := FindPattern(patterns, item.category);
    FarProbability(days, pattern, item);
    assert Predict(item, patterns, now).wasteProbability == Probability(days, pattern, item);
  }

  lemma FarProbability(days: int, pattern: Option<ConsumptionPattern>, item: FoodItem)
    requires ConsumptionFrequency(pattern) > 0.0
    requires (days as real) >= 2.0 * ConsumptionFrequency(pattern)
    requires !HasSurplus(item, pattern)
    ensures Probability(days, pattern, item) == 0.0
  {
    var d := days as real;
    var f := ConsumptionFrequency(pattern);
    assert d / (f * 2.0) >= 1.0 by {
      assert d >= f * 2.0;
      DivAtLeastOne(d, f * 2.0);
    }
  }

  lemma DivAtLeastOne(a: real, b: real)
    requires b > 0.0 && a >= b
    ensures a / b >= 1.0
  {
    assert a / b * b == a;
  }

  /** At exactly 0.7 the risk is already high, but the action is still that of the middle band. */
  lemma BoundaryMismatchAtSevenTenths(days: int, canBePreserved: bool)
    ensures RiskOf(0.7) == High
    ensures AdviceFor(0.7, days, canBePreserved).action != Share
    ensures AdviceFor(0.7, days, canBePreserved).action == (if canBePreserved then Preserve else Consume)
  {
  }

  /** Units other than kg and g weigh 0.5 kg, whatever the amount. */
  lemma OtherUnitWeighsHalfKilo(q: Quantity)
    requires q.unit != "kg" && q.unit != "g"
    ensures WeightInKg(q) == 0.5
  {
  }

  /** For kg and g, doubling the amount doubles the CO2 and water saved. */
  lemma ImpactScalesWithAmount(item: FoodItem)
    requires item.quantity.unit == "kg" || item.quantity.unit == "g"
    ensures var doubled := item.(quantity := item.quantity.(amount := 2.0 * item.quantity.amount));
            ImpactOf(doubled).co2Saved == 2.0 * ImpactOf(item).co2Saved &&
            ImpactOf(doubled).waterSaved == 2.0 * ImpactOf(item).waterSaved
  {
  }

  /** The cost is the price when there is one and 0 otherwise; the date is `now + (days - 1)` days. */
  lemma CostAndDate(item: FoodItem, patterns: seq<ConsumptionPattern>, now: int)
    ensures item.price.Some? ==> Predict(item, patterns, now).potentialWasteCost == item.price.value
    ensures item.price.None? ==> Predict(item, patterns, now).potentialWasteCost == 0.0
    ensures Predict(item, patterns, now).optimalConsumptionDate ==
            now + (DaysUntilExpiry(item.expiryDate, now) - 1) * MsPerDay
  {
  }

  /** The worked example: 500 g of tomatoes expiring in two days, eaten every 4 days, 300 per cycle. */
  lemma TomatoScenario(now: int)
    ensures var item := FoodItem("1", "Tomates", "vegetables", Quantity(500.0, "g"), now + 2 * MsPerDay,
                                 None, false, None);
            var r := Predict(item, [ConsumptionPattern("vegetables", 4.0, 300.0)], now);
            r.wasteProbability == 0.425 && r.wasteRisk == Medium &&
            r.suggestedAction == Consume && r.reasoning == PlanMealText &&
            r.environmentalImpact == Impact(1.25, 500.0) && r.potentialWasteCost == 0.0
  {
    var item := FoodItem("1", "Tomates", "vegetables", Quantity(500.0, "g"), now + 2 * MsPerDay,
                         None, false, None);
    assert DaysUntilExpiry(item.expiryDate, now) == 2;
  }
}

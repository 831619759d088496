/** backend/src/risk-assessment.service.ts: the factor tables, the risk
    category bands, the per-driver behaviour history, the premium discount
    clamp and the scenario lookup with its fallback. */
module RiskAssessment {
  import PricingEngine

  /** `calculateAgeRisk`. */
  function AgeRisk(age: real): (r: real)
    ensures age >= 65.0 ==> r == 0.85
    ensures age < 25.0 ==> r == 0.75
    ensures 25.0 <= age < 35.0 ==> r == 0.45
    ensures 35.0 <= age < 50.0 ==> r == 0.25
    ensures 50.0 <= age < 65.0 ==> r == 0.40
  {
    if age >= 65.0 then 0.85
    else if age < 25.0 then 0.75
    else if age >= 25.0 && age < 35.0 then 0.45
    else if age >= 35.0 && age < 50.0 then 0.25
    else 0.40
  }

  /** `calculateExperienceRisk`, given the years since the licence was
      issued (the source computes them from the clock). */
  function ExperienceRisk(years: real): (r: real)
    ensures r == 0.95 <==> years < 1.0
    ensures r == 0.70 <==> 1.0 <= years < 3.0
    ensures r == 0.45 <==> 3.0 <= years < 5.0
    ensures r == 0.20 <==> years >= 5.0
  {
    if years < 1.0 then 0.95
    else if years < 3.0 then 0.70
    else if years < 5.0 then 0.45
    else 0.20
  }

  /** More experience never means more risk. */
  lemma ExperienceRiskNonIncreasing(y1: real, y2: real)
    requires y1 <= y2
    ensures ExperienceRisk(y2) <= ExperienceRisk(y1)
  {
  }

  /** `calculateVehicleRisk`. */
  function VehicleRisk(vehicleType: string): (r: real)
    ensures vehicleType !in {"kei", "standard", "large"} ==> r == 0.50
  {
    if vehicleType == "kei" then 0.20
    else if vehicleType == "standard" then 0.45
    else if vehicleType == "large" then 0.65
    else 0.50
  }

  lemma VehicleRiskTable()
    ensures VehicleRisk("kei") == 0.20 && VehicleRisk("standard") == 0.45 && VehicleRisk("large") == 0.65
  {
  }

  /** `getRiskCategory`. */
  function RiskCategory(score: real): (c: string)
    ensures c in {"low", "medium", "high", "very-high"}
    ensures c == "high" <==> 50.0 <= score < 70.0
  {
    if score < 30.0 then "low"
    else if score < 50.0 then "medium"
    else if score < 70.0 then "high"
    else "very-high"
  }

  /** The order of the categories. */
  function CategoryRank(category: string): nat
  {
    if category == "low" then 0
    else if category == "medium" then 1
    else if category == "high" then 2
    else 3
  }

  /** The bands are [.., 30), [30, 50), [50, 70) and [70, ..), and a higher
      score never gets a lower category. */
  lemma RiskCategoryBands(s1: real, s2: real)
    requires s1 <= s2
    ensures CategoryRank(RiskCategory(s1)) <= CategoryRank(RiskCategory(s2))
    ensures RiskCategory(s1) == "low" <==> s1 < 30.0
    ensures RiskCategory(s1) == "very-high" <==> s1 >= 70.0
    ensures RiskCategory(s1) == "medium" <==> 30.0 <= s1 < 50.0
  {
  }

  /** The fields of `DrivingBehaviorDto` the service reads. */
  datatype Behavior = Behavior(driverId: string, averageSpeed: real, harshBraking: real,
                               harshAcceleration: real, nightDriving: real)

  function Min(a: real, b: real): real
  {
    if a < b then a else b
  }

  /** How many records are kept per driver. */
  const HistoryLimit: nat := 6

  /** `calculateBehaviorRisk` over a driver's history. */
  function BehaviorRisk(history: seq<Behavior>): (r: real)
    ensures history == [] ==> r == 0.50
    ensures r <= 0.865
  {
    if |history| == 0 then 0.50
    else
      var latest := history[|history| - 1];
      var braking := Min(latest.harshBraking / 10.0, 1.0);
      var accel := Min(latest.harshAcceleration / 10.0, 1.0);
      var speed := if latest.averageSpeed > 80.0 then 0.7 else 0.3;
      var night := if latest.nightDriving > 30.0 then 0.6 else 0.2;
      braking * 0.3 + accel * 0.3 + speed * 0.25 + night * 0.15
  }

  /** Only the latest record matters, and for non-negative counts the risk
      lies between 0.105 and 0.865 because the braking and acceleration
      scores are capped at 1. */
  lemma BehaviorRiskLatest(h1: seq<Behavior>, h2: seq<Behavior>)
    requires h1 != [] && h2 != [] && h1[|h1| - 1] == h2[|h2| - 1]
    ensures BehaviorRisk(h1) == BehaviorRisk(h2)
  {
  }

  lemma BehaviorRiskBounds(history: seq<Behavior>)
    requires history != []
    requires history[|history| - 1].harshBraking >= 0.0 && history[|history| - 1].harshAcceleration >= 0.0
    ensures 0.105 <= BehaviorRisk(history) <= 0.865
  {
  }

  /** The premium discount after the premium is computed from the score:
      `Math.max(0, basePremium - adjustedPremium)`. */
  const BasePremium: real := 50000.0

  function RiskDiscount(riskScore: int): (d: int)
    ensures d >= 0
  {
    var adjusted := PricingEngine.CalculatePremium(riskScore as real, BasePremium);
    if BasePremium.Floor - adjusted > 0 then BasePremium.Floor - adjusted else 0
  }

  /** For a whole score the premium is 25000 + 500·score, so a discount is
      given exactly below score 50, and it is 500 per point below 50. */
  lemma RiskDiscountBelowFifty(riskScore: int)
    ensures PricingEngine.CalculatePremium(riskScore as real, BasePremium) == 25000 + 500 * riskScore
    ensures RiskDiscount(riskScore) > 0 <==> riskScore < 50
    ensures riskScore < 50 ==> RiskDiscount(riskScore) == 500 * (50 - riskScore)
  {
    assert BasePremium * (0.5 + riskScore as real / 100.0) == (25000 + 500 * riskScore) as real;
    PricingEngine.RoundOfInt(25000 + 500 * riskScore);
  }

  /** The service's mutable state: the last records of each driver. */
  class RiskAssessmentService {
    var driverBehaviorCache: map<string, seq<Behavior>>

    /** Every driver's history is within the limit. */
    predicate Valid()
      reads this
    {
      forall d :: d in driverBehaviorCache ==> |driverBehaviorCache[d]| <= HistoryLimit
    }

    constructor()
      ensures driverBehaviorCache == map[]
      ensures Valid()
    {
      driverBehaviorCache := map[];
    }

    /** `driverBehaviorCache.get(id) || []`. */
    function History(driverId: string): seq<Behavior>
      reads this
    {
      if driverId in driverBehaviorCache then driverBehaviorCache[driverId] else []
    }

    /** `updateDrivingBehavior`: the record goes last; when that makes more
        than six, the oldest is dropped; other drivers are untouched. */
    method UpdateDrivingBehavior(behavior: Behavior) returns (success: bool, message: string)
      modifies this
      ensures success && message == "Behavior data updated"
      ensures var grown := old(History(behavior.driverId)) + [behavior];
              driverBehaviorCache == old(driverBehaviorCache)[behavior.driverId :=
                if |grown| > HistoryLimit then grown[1..] else grown]
      ensures old(Valid()) ==> Valid()
    {
      var behaviors := History(behavior.driverId);
      behaviors := behaviors + [behavior];
      if |behaviors| > HistoryLimit {
        behaviors := behaviors[1..];
      }
      driverBehaviorCache := driverBehaviorCache[behavior.driverId := behaviors];
      success, message := true, "Behavior data updated";
    }

    /** `calculateBehaviorRisk` for a driver. */
    function DriverBehaviorRisk(driverId: string): real
      reads this
    {
      BehaviorRisk(History(driverId))
    }
  }

  /** After an update the driver's behaviour risk is computed from the new
      record alone. */
  lemma UpdateDecidesBehaviorRisk(before: seq<Behavior>, behavior: Behavior)
    ensures var grown := before + [behavior];
            var kept := if |grown| > HistoryLimit then grown[1..] else grown;
            kept != [] && kept[|kept| - 1] == behavior && BehaviorRisk(kept) == BehaviorRisk([behavior])
  {
    var grown := before + [behavior];
    var kept := if |grown| > HistoryLimit then grown[1..] else grown;
    assert kept[|kept| - 1] == behavior;
    BehaviorRiskLatest(kept, [behavior]);
  }

  /** The values of `simulateRiskScenario`'s table. */
  datatype Scenario = Scenario(age: real, experience: real, premium: real)

  const SafeDriving: Scenario := Scenario(40.0, 15.0, 38000.0)

  /** `scenarios[type] || scenarios.safeDriving`. */
  function ScenarioResult(scenarioType: string): (s: Scenario)
    ensures scenarioType !in {"newDriver", "elderly"} ==> s == SafeDriving
  {
    if scenarioType == "newDriver" then Scenario(22.0, 0.5, 75000.0)
    else if scenarioType == "elderly" then Scenario(68.0, 30.0, 62000.0)
    else SafeDriving
  }

  const SafeDrivingAdvice: seq<string> :=
    ["Eligible for loyalty discount", "Consider usage-based insurance", "Multi-policy discount available"]

  /** `generateRecommendations`: three lines per known scenario, the
      safe-driving ones for any other type. */
  function Recommendations(scenarioType: string): (rs: seq<string>)
    ensures |rs| == 3
    ensures scenarioType !in {"newDriver", "elderly"} ==> rs == SafeDrivingAdvice
  {
    if scenarioType == "newDriver" then
      ["Install dashcam for behavior monitoring", "Enroll in defensive driving course",
       "Consider higher deductible for lower premium"]
    else if scenarioType == "elderly" then
      ["Annual driving assessment recommended", "Consider limited mileage policy",
       "Enroll in senior driver safety program"]
    else SafeDrivingAdvice
  }

  datatype Simulation = Simulation(scenario: string, result: Scenario, recommendations: seq<string>)

  /** `simulateRiskScenario`: the type is echoed back, and an unknown type
      gets the safe-driving result and advice together. */
  function SimulateRiskScenario(scenarioType: string): (r: Simulation)
    ensures r.scenario == scenarioType
    ensures (r.result == SafeDriving) == (r.recommendations == SafeDrivingAdvice)
  {
    Simulation(scenarioType, ScenarioResult(scenarioType), Recommendations(scenarioType))
  }
}

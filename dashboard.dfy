/** `RiskDashboardComponent`: the built-in driver profiles, the premium,
    discount and factor tables keyed by category, the colour and label
    lookups with their defaults, and `analyzeDriver`, which shows the local
    profile's figures whatever the server answers. */
module RiskDashboard {
  import opened JsonValues
  import PricingEngine
  import RiskAssessment

  datatype DriverProfile = DriverProfile(id: string, name: string, age: int, riskScore: int, category: string)

  const DriverProfiles: seq<DriverProfile> := [
    DriverProfile("D001", "Taro Tanaka", 45, 35, "low"),
    DriverProfile("D002", "Hanako Sato", 68, 62, "high"),
    DriverProfile("D003", "Ichiro Suzuki", 23, 75, "very-high")
  ]

  datatype Factors = Factors(ageRisk: int, experienceRisk: int, behaviorRisk: int, vehicleRisk: int, regionRisk: int)

  /** The displayed score, without its timestamp. */
  datatype RiskScore = RiskScore(driverId: string, riskScore: int, riskCategory: string,
                                 recommendedPremium: int, discount: int, factors: Factors)

  /** The first profile with the id, as `Array.find` returns it. */
  function FindDriver(profiles: seq<DriverProfile>, id: string): (r: Option<DriverProfile>)
    ensures r.None? <==> forall i :: 0 <= i < |profiles| ==> profiles[i].id != id
    ensures r.Some? ==> exists i :: 0 <= i < |profiles| && profiles[i] == r.value
                                    && r.value.id == id && forall k :: 0 <= k < i ==> profiles[k].id != id
  {
    if profiles == [] then None
    else if profiles[0].id == id then Some(profiles[0])
    else
      var r := FindDriver(profiles[1..], id);
      if r.Some? then
        ghost var i :| 0 <= i < |profiles[1..]| && profiles[1..][i] == r.value
                       && r.value.id == id && forall k :: 0 <= k < i ==> profiles[1..][k].id != id;
        assert profiles[i + 1] == r.value;
        r
      else r
  }

  const BasePremium: real := 50000.0

  /** The premium multiplier table, with 1.0 for a category not in it. */
  function Multiplier(category: string): (m: real)
    ensures 0.8 <= m <= 1.6
    ensures m == 1.0 <==> category == "medium" || !Known(category)
  {
    if category == "low" then 0.8
    else if category == "medium" then 1.0
    else if category == "high" then 1.3
    else if category == "very-high" then 1.6
    else 1.0
  }

  /** `calculatePremium`. */
  function CalculatePremium(category: string): (p: int)
    ensures p as real - 0.5 <= BasePremium * Multiplier(category) < p as real + 0.5
    ensures 40000 <= p <= 80000
  {
    PricingEngine.Round(BasePremium * Multiplier(category))
  }

  predicate Known(category: string)
  {
    category in {"low", "medium", "high", "very-high"}
  }

  /** The order of the known categories. */
  function Rank(category: string): nat
  {
    if category == "low" then 0 else if category == "medium" then 1 else if category == "high" then 2 else 3
  }

  /** The premiums are 40000, 50000, 65000 and 80000, and 50000 for an
      unknown category. */
  lemma PremiumTable(category: string)
    ensures CalculatePremium("low") == 40000 && CalculatePremium("medium") == 50000
    ensures CalculatePremium("high") == 65000 && CalculatePremium("very-high") == 80000
    ensures !Known(category) ==> CalculatePremium(category) == 50000
  {
    PricingEngine.RoundOfInt(40000);
    PricingEngine.RoundOfInt(50000);
    PricingEngine.RoundOfInt(65000);
    PricingEngine.RoundOfInt(80000);
  }

  /** `calculateDiscount`, with 0 for a category not in the table. */
  function CalculateDiscount(category: string): (d: int)
    ensures !Known(category) ==> d == 0
    ensures d > 0 <==> category == "low" || category == "medium"
  {
    if category == "low" then 15000
    else if category == "medium" then 5000
    else 0
  }

  /** Among known categories a riskier one never costs less nor earns a
      larger discount. */
  lemma TablesFollowRank(c1: string, c2: string)
    requires Known(c1) && Known(c2) && Rank(c1) <= Rank(c2)
    ensures CalculatePremium(c1) <= CalculatePremium(c2)
    ensures CalculateDiscount(c1) >= CalculateDiscount(c2)
  {
    PremiumTable(c1);
  }

  /** `generateRiskFactors`. */
  function GenerateRiskFactors(age: int, category: string): (f: Factors)
    ensures f.vehicleRisk == 25 && f.regionRisk == 15
    ensures f.experienceRisk == 70 <==> age < 25
    ensures f.ageRisk == 60 <==> age > 65
    ensures f.behaviorRisk == 20 <==> category != "high" && category != "very-high"
  {
    Factors(if age < 25 then 80 else if age > 65 then 60 else 30,
            if age < 25 then 70 else 20,
            if category == "very-high" then 90 else if category == "high" then 60 else 20,
            25, 15)
  }

  /** `getRiskColor`. */
  function RiskColor(category: string): (c: string)
    ensures !Known(category) <==> c == "#6b7280"
    ensures category == "low" <==> c == "#10b981"
    ensures category == "medium" <==> c == "#f59e0b"
    ensures category == "high" <==> c == "#ef4444"
    ensures category == "very-high" <==> c == "#dc2626"
  {
    if category == "low" then "#10b981"
    else if category == "medium" then "#f59e0b"
    else if category == "high" then "#ef4444"
    else if category == "very-high" then "#dc2626"
    else "#6b7280"
  }

  /** `getJapaneseRiskLabel`. */
  function RiskLabel(category: string): (l: string)
    ensures !Known(category) <==> l == "Unknown Risk"
    ensures category == "low" <==> l == "Low Risk"
    ensures category == "medium" <==> l == "Medium Risk"
    ensures category == "high" <==> l == "High Risk"
    ensures category == "very-high" <==> l == "Very High Risk"
  {
    if category == "low" then "Low Risk"
    else if category == "medium" then "Medium Risk"
    else if category == "high" then "High Risk"
    else if category == "very-high" then "Very High Risk"
    else "Unknown Risk"
  }

  /** Every category the backend produces has its own colour and label. */
  lemma BackendCategoriesKnown(score: real)
    ensures Known(RiskAssessment.RiskCategory(score))
    ensures RiskColor(RiskAssessment.RiskCategory(score)) != "#6b7280"
    ensures RiskLabel(RiskAssessment.RiskCategory(score)) != "Unknown Risk"
  {
  }

  /** `getFactorArray`: five labelled entries in a fixed order. */
  function FactorArray(f: Factors): (r: seq<(string, int)>)
    ensures |r| == 5
    ensures r[0] == ("Age Risk", f.ageRisk) && r[1] == ("Experience Risk", f.experienceRisk)
    ensures r[2] == ("Driving Behavior Risk", f.behaviorRisk)
    ensures r[3] == ("Vehicle Risk", f.vehicleRisk) && r[4] == ("Regional Risk", f.regionRisk)
  {
    [("Age Risk", f.ageRisk), ("Experience Risk", f.experienceRisk), ("Driving Behavior Risk", f.behaviorRisk),
     ("Vehicle Risk", f.vehicleRisk), ("Regional Risk", f.regionRisk)]
  }

  /** The score shown for a profile. */
  function LocalScore(d: DriverProfile): (s: RiskScore)
    ensures s.driverId == d.id && s.riskScore == d.riskScore && s.riskCategory == d.category
    ensures 40000 <= s.recommendedPremium <= 80000
    ensures s.discount > 0 <==> d.category == "low" || d.category == "medium"
  {
    RiskScore(d.id, d.riskScore, d.category, CalculatePremium(d.category), CalculateDiscount(d.category),
              GenerateRiskFactors(d.age, d.category))
  }

  /** The figures of the youngest profile. */
  lemma YoungDriverScore()
    ensures LocalScore(DriverProfiles[2]) ==
              RiskScore("D003", 75, "very-high", 80000, 0, Factors(80, 70, 90, 25, 15))
  {
    PremiumTable("very-high");
  }

  class RiskDashboardComponent {
    var currentRiskScore: Option<RiskScore>
    var loading: bool

    constructor()
      ensures currentRiskScore == None && !loading
    {
      currentRiskScore := None;
      loading := false;
    }

    /** `analyzeDriver` together with the reply of `analyzeRisk` (a score or
        an error): an unknown id only clears `loading`; a known one shows its
        local score on success and on error alike. */
    method AnalyzeDriver(driverId: string, reply: Result<RiskScore>)
      modifies this
      ensures !loading
      ensures FindDriver(DriverProfiles, driverId).None? ==> currentRiskScore == old(currentRiskScore)
      ensures FindDriver(DriverProfiles, driverId).Some? ==>
                currentRiskScore == Some(LocalScore(FindDriver(DriverProfiles, driverId).value))
    {
      loading := true;
      var selected := FindDriver(DriverProfiles, driverId);
      if selected.None? {
        loading := false;
        return;
      }
      var d := selected.value;
      match reply {
        case Ok(score) =>
          currentRiskScore := Some(score.(driverId := d.id, riskScore := d.riskScore, riskCategory := d.category,
                                          recommendedPremium := CalculatePremium(d.category),
                                          discount := CalculateDiscount(d.category),
                                          factors := GenerateRiskFactors(d.age, d.category)));
          loading := false;
        case Err(_) =>
          currentRiskScore := Some(LocalScore(d));
          loading := false;
      }
    }
  }

  /** The displayed score names the driver that was asked for, with the
      profile's own score and category. */
  lemma ShownScoreMatchesProfile(driverId: string)
    requires FindDriver(DriverProfiles, driverId).Some?
    ensures var s := LocalScore(FindDriver(DriverProfiles, driverId).value);
            && s.driverId == driverId
            && exists i :: 0 <= i < |DriverProfiles| && DriverProfiles[i].riskScore == s.riskScore
                                                     && DriverProfiles[i].category == s.riskCategory
  {
  }
}

/** backend/src/pricing-engine.service.ts: the premium multiplier, the
    pay-as-you-drive rate and the safety discount table. Numbers are exact
    reals and `Math.round` is floor(x + 1/2). */
module PricingEngine {

  /** `Math.round`: the nearest integer, halves upward. */
  function Round(x: real): (n: int)
    ensures n as real - 0.5 <= x < n as real + 0.5
  {
    (x + 0.5).Floor
  }

  lemma RoundMonotone(x: real, y: real)
    requires x <= y
    ensures Round(x) <= Round(y)
  {
  }

  lemma RoundOfInt(n: int)
    ensures Round(n as real) == n
  {
  }

  /** `calculatePremium`: the base scaled by 0.5 + riskScore/100. */
  function CalculatePremium(riskScore: real, basePremium: real): (p: int)
    ensures p as real - 0.5 <= basePremium * (0.5 + riskScore / 100.0) < p as real + 0.5
  {
    Round(basePremium * (0.5 + riskScore / 100.0))
  }

  /** At score 0 the premium is half the base, at score 100 one and a half
      times the base. */
  lemma PremiumEnds(basePremium: real)
    ensures CalculatePremium(0.0, basePremium) == Round(basePremium / 2.0)
    ensures CalculatePremium(100.0, basePremium) == Round(1.5 * basePremium)
  {
  }

  /** For a non-negative base the premium never falls as the score rises. */
  lemma PremiumMonotone(r1: real, r2: real, basePremium: real)
    requires r1 <= r2 && basePremium >= 0.0
    ensures CalculatePremium(r1, basePremium) <= CalculatePremium(r2, basePremium)
  {
    var d := (r2 - r1) / 100.0;
    assert basePremium * d >= 0.0;
    assert basePremium * (0.5 + r2 / 100.0) == basePremium * (0.5 + r1 / 100.0) + basePremium * d;
    RoundMonotone(basePremium * (0.5 + r1 / 100.0), basePremium * (0.5 + r2 / 100.0));
  }

  /** `calculatePayAsYouDrive`: 5 per unit of mileage, scaled by 1 + riskScore/100. */
  function PayAsYouDrive(mileage: real, riskScore: real): (c: int)
    ensures c as real - 0.5 <= mileage * 5.0 * (1.0 + riskScore / 100.0) < c as real + 0.5
  {
    Round(mileage * 5.0 * (1.0 + riskScore / 100.0))
  }

  /** At risk 0 the charge is five times the mileage (exactly, for whole
      mileage). */
  lemma PayAsYouDriveAtZeroRisk(mileage: int)
    ensures PayAsYouDrive(mileage as real, 0.0) == 5 * mileage
  {
    RoundOfInt(5 * mileage);
  }

  /** The charge never falls as mileage rises, for scores of at least -100. */
  lemma PayAsYouDriveMonotone(m1: real, m2: real, riskScore: real)
    requires m1 <= m2 && riskScore >= -100.0
    ensures PayAsYouDrive(m1, riskScore) <= PayAsYouDrive(m2, riskScore)
  {
    var f := 5.0 * (1.0 + riskScore / 100.0);
    assert f >= 0.0;
    assert m1 * 5.0 * (1.0 + riskScore / 100.0) == m1 * f;
    assert m2 * 5.0 * (1.0 + riskScore / 100.0) == m2 * f;
    assert m1 * f <= m2 * f by {
      assert (m2 - m1) * f >= 0.0;
    }
    RoundMonotone(m1 * f, m2 * f);
  }

  /** `calculateDiscount`: 20% above 90, 15% above 80, 10% above 70. */
  function CalculateDiscount(safetyScore: real): (d: real)
    ensures d == 0.0 || d == 0.10 || d == 0.15 || d == 0.20
    ensures d == 0.20 <==> safetyScore > 90.0
    ensures d == 0.0 <==> safetyScore <= 70.0
  {
    if safetyScore > 90.0 then 0.20
    else if safetyScore > 80.0 then 0.15
    else if safetyScore > 70.0 then 0.10
    else 0.0
  }

  /** The bounds are exclusive: exactly 90 earns 15%, exactly 80 earns 10%. */
  lemma DiscountBoundaries()
    ensures CalculateDiscount(90.0) == 0.15
    ensures CalculateDiscount(80.0) == 0.10
    ensures CalculateDiscount(70.0) == 0.0
  {
  }

  /** A higher safety score never earns a smaller discount. */
  lemma DiscountMonotone(s1: real, s2: real)
    requires s1 <= s2
    ensures CalculateDiscount(s1) <= CalculateDiscount(s2)
  {
  }
}

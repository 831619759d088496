/** The flat extraction schema of the PaddleOCR pipelines and the document both
    of them fall back to when the model's answer does not decode
    (OCR/paddleocr_to_json.py and OCR/fast_ocr_processor.py build the same one). */
module FlatSchema {
  import opened JsonValues

  const TopLevelKeys: seq<string> := [
    "policy_number", "effective_dates", "policyholder_details", "policy_information",
    "insured_vehicle", "driver_profile", "coverage_limits_and_deductibles",
    "discounts_applied", "billing_information"]

  const EffectiveDatesKeys: seq<string> := ["start", "end"]
  const PolicyholderKeys: seq<string> := [
    "full_name", "address", "city_state_zip", "phone", "email", "dob", "gender", "marital_status"]
  const PolicyInformationKeys: seq<string> := [
    "policy_type", "issue_date", "term_length", "renewal_date", "agent", "agent_id", "office_phone"]
  const InsuredVehicleKeys: seq<string> := [
    "year", "make", "model", "vin", "license_plate", "body_type", "usage_class", "mileage", "garage_zip"]
  const DriverProfileKeys: seq<string> := [
    "primary_driver_name", "license_no", "license_date", "license_status", "age_group",
    "driving_record", "relationship"]
  const DiscountsKeys: seq<string> := [
    "good_driver", "multi_policy", "vehicle_safety", "federal_employee", "total_savings"]
  const BillingKeys: seq<string> := [
    "payment_method", "payment_plan", "monthly_amount", "next_due_date", "bank_account"]

  /** The fallback's shape: the nine top-level keys over one empty string,
      seven sections of empty strings and one empty list. */
  function FallbackOver(top: seq<string>, dates: seq<string>, holder: seq<string>,
                        policy: seq<string>, vehicle: seq<string>, driver: seq<string>,
                        discounts: seq<string>, billing: seq<string>): Json
    requires |top| == 9
  {
    JObj(Zip(top, FallbackValues(dates, holder, policy, vehicle, driver, discounts, billing)))
  }

  /** The minimal structure returned on a decode error. */
  function FallbackDocument(): Json
  {
    FallbackOver(TopLevelKeys, EffectiveDatesKeys, PolicyholderKeys, PolicyInformationKeys,
                 InsuredVehicleKeys, DriverProfileKeys, DiscountsKeys, BillingKeys)
  }

  /** A value that carries no data: the empty string, the empty list, or an
      object all of whose members carry no data. */
  predicate Blank(j: Json)
  {
    match j
    case JStr(s) => s == ""
    case JArr(items) => items == []
    case JObj(fields) => forall i :: 0 <= i < |fields| ==> Blank(fields[i].1)
    case _ => false
  }

  lemma EmptyStringsBlank(keys: seq<string>)
    ensures Blank(JObj(EmptyStrings(keys)))
  {
  }

  function FallbackValues(dates: seq<string>, holder: seq<string>, policy: seq<string>,
                          vehicle: seq<string>, driver: seq<string>, discounts: seq<string>,
                          billing: seq<string>): (vs: seq<Json>)
    ensures |vs| == 9
  {
    [JStr(""),
     JObj(EmptyStrings(dates)),
     JObj(EmptyStrings(holder)),
     JObj(EmptyStrings(policy)),
     JObj(EmptyStrings(vehicle)),
     JObj(EmptyStrings(driver)),
     JArr([]),
     JObj(EmptyStrings(discounts)),
     JObj(EmptyStrings(billing))]
  }

  lemma {:induction false} FallbackOverShape(top: seq<string>, dates: seq<string>, holder: seq<string>,
                                             policy: seq<string>, vehicle: seq<string>, driver: seq<string>,
                                             discounts: seq<string>, billing: seq<string>)
    requires |top| == 9
    requires forall j :: 0 <= j < 6 ==> top[j] != top[6]
    ensures FallbackOver(top, dates, holder, policy, vehicle, driver, discounts, billing).JObj?
    ensures KeysOf(FallbackOver(top, dates, holder, policy, vehicle, driver, discounts, billing).fields) == top
    ensures Member(FallbackOver(top, dates, holder, policy, vehicle, driver, discounts, billing), top[6])
            == Some(JArr([]))
  {
    var vs := FallbackValues(dates, holder, policy, vehicle, driver, discounts, billing);
    var z := Zip(top, vs);
    assert z[6] == (top[6], JArr([]));
    LookupAt(z, 6);
  }

  /** The fallback has exactly the nine top-level keys of the schema, in the
      schema's order, and its coverage list is empty. */
  lemma FallbackKeys()
    ensures FallbackDocument().JObj?
    ensures KeysOf(FallbackDocument().fields) == TopLevelKeys
    ensures Member(FallbackDocument(), "coverage_limits_and_deductibles") == Some(JArr([]))
  {
    var top := TopLevelKeys;
    assert top[6] == "coverage_limits_and_deductibles";
    assert forall j :: 0 <= j < 6 ==> |top[j]| != |top[6]|;
    FallbackOverShape(TopLevelKeys, EffectiveDatesKeys, PolicyholderKeys, PolicyInformationKeys,
                      InsuredVehicleKeys, DriverProfileKeys, DiscountsKeys, BillingKeys);
  }

  lemma {:induction false} FallbackOverBlank(top: seq<string>, dates: seq<string>, holder: seq<string>,
                                             policy: seq<string>, vehicle: seq<string>, driver: seq<string>,
                                             discounts: seq<string>, billing: seq<string>)
    requires |top| == 9
    ensures Blank(FallbackOver(top, dates, holder, policy, vehicle, driver, discounts, billing))
  {
    var vs := FallbackValues(dates, holder, policy, vehicle, driver, discounts, billing);
    forall i | 0 <= i < 9
      ensures Blank(vs[i])
    {
      if i == 1 { EmptyStringsBlank(dates); }
      else if i == 2 { EmptyStringsBlank(holder); }
      else if i == 3 { EmptyStringsBlank(policy); }
      else if i == 4 { EmptyStringsBlank(vehicle); }
      else if i == 5 { EmptyStringsBlank(driver); }
      else if i == 7 { EmptyStringsBlank(discounts); }
      else if i == 8 { EmptyStringsBlank(billing); }
    }
    var z := Zip(top, vs);
    assert forall i :: 0 <= i < |z| ==> Blank(z[i].1);
  }

  /** Every string in the fallback is empty and every list in it is empty. */
  lemma FallbackBlank()
    ensures Blank(FallbackDocument())
  {
    FallbackOverBlank(TopLevelKeys, EffectiveDatesKeys, PolicyholderKeys, PolicyInformationKeys,
                      InsuredVehicleKeys, DriverProfileKeys, DiscountsKeys, BillingKeys);
  }

  /** What a caller may rely on about the fallback document. */
  predicate IsFallback(d: Json)
  {
    && d.JObj?
    && KeysOf(d.fields) == TopLevelKeys
    && Blank(d)
    && Member(d, "coverage_limits_and_deductibles") == Some(JArr([]))
  }

  lemma FallbackIsFallback()
    ensures IsFallback(FallbackDocument())
  {
    FallbackKeys();
    FallbackBlank();
  }
}

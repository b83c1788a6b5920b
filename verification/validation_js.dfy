/**
 * The JavaScript form validators (frontend/src/utils/validation.js), English
 * messages. The same early-return chains as the TypeScript variant, except
 * that the R-value check treats every falsy value, the number 0 included, as
 * missing.
 */
module ValidationJs {
  import opened Wrappers
  import opened FormInput

  function ValidateLocation(location: string): (err: Option<string>)
    ensures err.None? <==> location != ""
    ensures err.Some? ==> err.value == "Please select a region"
  {
    if location == "" then Some("Please select a region") else None
  }

  const AreaRequired: string := "Please enter roof area"
  const AreaNotANumber: string := "Roof area must be a number"
  const AreaNotPositive: string := "Roof area must be greater than 0"
  const AreaTooLarge: string := "Roof area seems too large (max 10,000 m²)"

  /**
   * A falsy field (the number 0 included) is missing; then the text must
   * parse, the value must exceed 0 and must not exceed 10000.
   */
  function ValidateRoofArea(area: FieldInput): (err: Option<string>)
    ensures err.None? <==> ParsesAboveUpTo(area, 0.0, 10000.0)
    ensures !Truthy(area) <==> err == Some(AreaRequired)
    ensures err == Some(AreaNotANumber) <==> Truthy(area) && ParseFloat(area).None?
    ensures err == Some(AreaNotPositive) <==> Truthy(area) && ParseFloat(area).Some? && ParseFloat(area).value <= 0.0
    ensures err == Some(AreaTooLarge) <==> ParseFloat(area).Some? && ParseFloat(area).value > 10000.0
  {
    if !Truthy(area) then Some(AreaRequired)
    else if ParseFloat(area).None? then Some(AreaNotANumber)
    else if ParseFloat(area).value <= 0.0 then Some(AreaNotPositive)
    else if ParseFloat(area).value > 10000.0 then Some(AreaTooLarge)
    else None
  }

  /** Any falsy value is missing: the number 0 is refused, the text "0" passes. */
  function ValidateRValue(rValue: FieldInput, fieldLabel: string): (err: Option<string>)
    ensures err.None? <==> Truthy(rValue) && ParsesWithin(rValue, 0.0, 20.0)
    ensures !Truthy(rValue) <==> err == Some("Please enter " + fieldLabel)
    ensures err == Some(fieldLabel + " must be a number") <==> Truthy(rValue) && ParseFloat(rValue).None?
    ensures err == Some(fieldLabel + " cannot be negative") <==>
      Truthy(rValue) && ParseFloat(rValue).Some? && ParseFloat(rValue).value < 0.0
    ensures err == Some(fieldLabel + " seems too high (max 20)") <==>
      Truthy(rValue) && ParseFloat(rValue).Some? && ParseFloat(rValue).value > 20.0
  {
    MessagesDiffer(fieldLabel);
    if !Truthy(rValue) then Some("Please enter " + fieldLabel)
    else if ParseFloat(rValue).None? then Some(fieldLabel + " must be a number")
    else if ParseFloat(rValue).value < 0.0 then Some(fieldLabel + " cannot be negative")
    else if ParseFloat(rValue).value > 20.0 then Some(fieldLabel + " seems too high (max 20)")
    else None
  }

  /** The four R-value messages differ in length, so no two of them coincide. */
  lemma MessagesDiffer(fieldLabel: string)
    ensures |"Please enter " + fieldLabel| == |fieldLabel| + 13
    ensures |fieldLabel + " must be a number"| == |fieldLabel| + 17
    ensures |fieldLabel + " cannot be negative"| == |fieldLabel| + 19
    ensures |fieldLabel + " seems too high (max 20)"| == |fieldLabel| + 24
  {
  }

  const ProposedLabel: string := "Proposed R-value"
  const NotGreaterMessage: string := "Proposed R-value must be greater than current R-value"

  /**
   * The basic checks on the proposed value take priority; the comparison
   * error fires only when both values parse and the proposed one is not
   * larger (`parseFloat(undefined)` is NaN, so a missing current value skips it).
   */
  function ValidateProposedRValue(current: FieldInput, proposed: FieldInput): (err: Option<string>)
    ensures ValidateRValue(proposed, ProposedLabel).Some? ==> err == ValidateRValue(proposed, ProposedLabel)
    ensures ValidateRValue(proposed, ProposedLabel).None? ==>
      (err.None? <==> !(ParseFloat(current).Some? && ParseFloat(proposed).value <= ParseFloat(current).value))
    ensures ValidateRValue(proposed, ProposedLabel).None? && err.Some? ==> err == Some(NotGreaterMessage)
  {
    var basic := ValidateRValue(proposed, ProposedLabel);
    if basic.Some? then basic
    else if ParseFloat(current).Some? && ParseFloat(proposed).Some?
            && ParseFloat(proposed).value <= ParseFloat(current).value then Some(NotGreaterMessage)
    else None
  }

  function ValidateHeatingSource(source: string): (err: Option<string>)
    ensures err.None? <==> source != ""
    ensures err.Some? ==> err.value == "Please select a heating source"
  {
    if source == "" then Some("Please select a heating source") else None
  }

  const PriceRequired: string := "Please enter energy price"
  const PriceNotANumber: string := "Energy price must be a number"
  const PriceNotPositive: string := "Energy price must be greater than 0"
  const PriceTooHigh: string := "Energy price seems too high (max €2.00/kWh)"

  function ValidateEnergyPrice(price: FieldInput): (err: Option<string>)
    ensures err.None? <==> ParsesAboveUpTo(price, 0.0, 2.0)
    ensures !Truthy(price) <==> err == Some(PriceRequired)
    ensures err == Some(PriceNotANumber) <==> Truthy(price) && ParseFloat(price).None?
    ensures err == Some(PriceNotPositive) <==> Truthy(price) && ParseFloat(price).Some? && ParseFloat(price).value <= 0.0
    ensures err == Some(PriceTooHigh) <==> ParseFloat(price).Some? && ParseFloat(price).value > 2.0
  {
    if !Truthy(price) then Some(PriceRequired)
    else if ParseFloat(price).None? then Some(PriceNotANumber)
    else if ParseFloat(price).value <= 0.0 then Some(PriceNotPositive)
    else if ParseFloat(price).value > 2.0 then Some(PriceTooHigh)
    else None
  }

  function ValidateInsulationCost(cost: FieldInput): (err: Option<string>)
    ensures err.None? <==> !Truthy(cost) || (ParseFloat(cost).Some? && ParseFloat(cost).value >= 0.0)
    ensures err == Some(CostNotANumber) <==> Truthy(cost) && ParseFloat(cost).None?
    ensures err == Some(CostNegative) <==> Truthy(cost) && ParseFloat(cost).Some? && ParseFloat(cost).value < 0.0
  {
    if !Truthy(cost) then None
    else if ParseFloat(cost).None? then Some(CostNotANumber)
    else if ParseFloat(cost).value < 0.0 then Some(CostNegative)
    else None
  }

  const CostNotANumber: string := "Insulation cost must be a number"
  const CostNegative: string := "Insulation cost cannot be negative"
}

/**
 * The TypeScript form validators (frontend/src/utils/validation.ts), Dutch
 * messages. Each returns the first failing check's message, or None (null)
 * when the field is acceptable.
 */
module ValidationTs {
  import opened Wrappers
  import opened FormInput

  function ValidateLocation(location: string): (err: Option<string>)
    ensures err.None? <==> location != ""
    ensures err.Some? ==> err.value == "Selecteer een regio"
  {
    if location == "" then Some("Selecteer een regio") else None
  }

  const AreaRequired: string := "Voer het dakoppervlakte in"
  const AreaNotANumber: string := "Dakoppervlakte moet een getal zijn"
  const AreaNotPositive: string := "Dakoppervlakte moet groter zijn dan 0"
  const AreaTooLarge: string := "Dakoppervlakte lijkt te groot (max 10.000 m²)"

  /**
   * A falsy field (the number 0 included) is missing; then the text must
   * parse, the value must exceed 0 and must not exceed 10000.
   */
  function ValidateRoofArea(area: FieldInput): (err: Option<string>)
    ensures err.None? <==> ParsesAboveUpTo(area, 0.0, 10000.0)
    ensures !Truthy(area) <==> err == Some(AreaRequired)
    ensures err == Some(AreaNotANumber) <==> Truthy(area) && ParseFloat(area).None?
    ensures err == Some(AreaNotPositive) <==> Truthy(area) && ParseFloat(area).Some? && ParseFloat(area).value <= 0.0
    ensures err == Some(AreaTooLarge) <==> ParseFloat(area).Some? && ParseFloat(area).value > 10000.0
  {
    if !Truthy(area) then Some(AreaRequired)
    else if ParseFloat(area).None? then Some(AreaNotANumber)
    else if ParseFloat(area).value <= 0.0 then Some(AreaNotPositive)
    else if ParseFloat(area).value > 10000.0 then Some(AreaTooLarge)
    else None
  }

  /** Only '', null and undefined count as missing: the number 0 is a valid R-value. */
  function ValidateRValue(rValue: FieldInput, fieldLabel: string): (err: Option<string>)
    ensures err.None? <==> ParsesWithin(rValue, 0.0, 20.0)
    ensures (rValue == Missing || rValue == EmptyText) <==> err == Some("Voer de " + fieldLabel + " in")
    ensures err == Some(fieldLabel + " moet een getal zijn") <==> rValue.Text? && ParseFloat(rValue).None?
    ensures err == Some(fieldLabel + " kan niet negatief zijn") <==> ParseFloat(rValue).Some? && ParseFloat(rValue).value < 0.0
    ensures err == Some(fieldLabel + " lijkt te hoog (max 20)") <==> ParseFloat(rValue).Some? && ParseFloat(rValue).value > 20.0
  {
    MessagesDiffer(fieldLabel);
    if rValue == EmptyText || rValue == Missing then Some("Voer de " + fieldLabel + " in")
    else if ParseFloat(rValue).None? then Some(fieldLabel + " moet een getal zijn")
    else if ParseFloat(rValue).value < 0.0 then Some(fieldLabel + " kan niet negatief zijn")
    else if ParseFloat(rValue).value > 20.0 then Some(fieldLabel + " lijkt te hoog (max 20)")
    else None
  }

  /** The four R-value messages differ in length, so no two of them coincide. */
  lemma MessagesDiffer(fieldLabel: string)
    ensures |"Voer de " + fieldLabel + " in"| == |fieldLabel| + 11
    ensures |fieldLabel + " moet een getal zijn"| == |fieldLabel| + 20
    ensures |fieldLabel + " kan niet negatief zijn"| == |fieldLabel| + 23
    ensures |fieldLabel + " lijkt te hoog (max 20)"| == |fieldLabel| + 23
    ensures fieldLabel + " kan niet negatief zijn" != fieldLabel + " lijkt te hoog (max 20)"
  {
    var a := fieldLabel + " kan niet negatief zijn";
    var b := fieldLabel + " lijkt te hoog (max 20)";
    assert a[|fieldLabel| + 1] == 'k' && b[|fieldLabel| + 1] == 'l';
  }

  const ProposedLabel: string := "Voorgestelde R-waarde"
  const NotGreaterMessage: string := "Voorgestelde R-waarde moet groter zijn dan de huidige R-waarde"

  /**
   * The basic R-value checks on the proposed value come first; the
   * comparison error fires only when both values parse and the proposed one
   * is not larger. The current value must not be null or undefined: the
   * validator calls `toString()` on it.
   */
  function ValidateProposedRValue(current: FieldInput, proposed: FieldInput): (err: Option<string>)
    requires current != Missing
    ensures ValidateRValue(proposed, ProposedLabel).Some? ==> err == ValidateRValue(proposed, ProposedLabel)
    ensures ValidateRValue(proposed, ProposedLabel).None? ==>
      (err.None? <==> !(ParseFloat(current).Some? && ParseFloat(proposed).value <= ParseFloat(current).value))
    ensures ValidateRValue(proposed, ProposedLabel).None? && err.Some? ==> err == Some(NotGreaterMessage)
    ensures err.None? <==> (ParsesWithin(proposed, 0.0, 20.0)
      && (ParseFloat(current).Some? ==> ParseFloat(proposed).value > ParseFloat(current).value))
  {
    var basic := ValidateRValue(proposed, ProposedLabel);
    if basic.Some? then basic
    else if ParseFloat(current).Some? && ParseFloat(proposed).Some?
            && ParseFloat(proposed).value <= ParseFloat(current).value then Some(NotGreaterMessage)
    else None
  }

  function ValidateHeatingSource(source: string): (err: Option<string>)
    ensures err.None? <==> source != ""
    ensures err.Some? ==> err.value == "Selecteer een verwarmingsbron"
  {
    if source == "" then Some("Selecteer een verwarmingsbron") else None
  }

  const PriceRequired: string := "Voer de energieprijs in"
  const PriceNotANumber: string := "Energieprijs moet een getal zijn"
  const PriceNotPositive: string := "Energieprijs moet groter zijn dan 0"
  const PriceTooHigh: string := "Energieprijs lijkt te hoog (max €2.00/kWh)"

  function ValidateEnergyPrice(price: FieldInput): (err: Option<string>)
    ensures err.None? <==> ParsesAboveUpTo(price, 0.0, 2.0)
    ensures !Truthy(price) <==> err == Some(PriceRequired)
    ensures err == Some(PriceNotANumber) <==> Truthy(price) && ParseFloat(price).None?
    ensures err == Some(PriceNotPositive) <==> Truthy(price) && ParseFloat(price).Some? && ParseFloat(price).value <= 0.0
    ensures err == Some(PriceTooHigh) <==> ParseFloat(price).Some? && ParseFloat(price).value > 2.0
  {
    if !Truthy(price) then Some(PriceRequired)
    else if ParseFloat(price).None? then Some(PriceNotANumber)
    else if ParseFloat(price).value <= 0.0 then Some(PriceNotPositive)
    else if ParseFloat(price).value > 2.0 then Some(PriceTooHigh)
    else None
  }

  /** The cost is optional: an empty (falsy) field is fine; otherwise it must parse and not be negative. */
  function ValidateInsulationCost(cost: FieldInput): (err: Option<string>)
    ensures err.None? <==> !Truthy(cost) || (ParseFloat(cost).Some? && ParseFloat(cost).value >= 0.0)
    ensures err == Some(CostNotANumber) <==> Truthy(cost) && ParseFloat(cost).None?
    ensures err == Some(CostNegative) <==> Truthy(cost) && ParseFloat(cost).Some? && ParseFloat(cost).value < 0.0
  {
    if !Truthy(cost) then None
    else if ParseFloat(cost).None? then Some(CostNotANumber)
    else if ParseFloat(cost).value < 0.0 then Some(CostNegative)
    else None
  }

  const CostNotANumber: string := "Isolatiekosten moeten een getal zijn"
  const CostNegative: string := "Isolatiekosten kunnen niet negatief zijn"

  function ValidateRoofType(roofType: string): (err: Option<string>)
    ensures err.None? <==> roofType == "flat" || roofType == "pitched"
    ensures roofType == "" ==> err == Some("Selecteer een daktype")
    ensures roofType != "" && roofType != "flat" && roofType != "pitched" ==> err == Some("Ongeldig daktype")
  {
    if roofType == "" then Some("Selecteer een daktype")
    else if roofType != "flat" && roofType != "pitched" then Some("Ongeldig daktype")
    else None
  }

  function ValidateInsulationMaterial(material: string): (err: Option<string>)
    ensures err.None? <==> material != ""
    ensures err.Some? ==> err.value == "Selecteer een isolatiemateriaal"
  {
    if material == "" then Some("Selecteer een isolatiemateriaal") else None
  }

  /**
   * Truthiness decides which message a zero gets: the number 0 is reported
   * as missing, the text "0" as not greater than zero.
   */
  lemma ZeroRoofAreaMessages()
    ensures ValidateRoofArea(Number(0.0)) == Some("Voer het dakoppervlakte in")
    ensures ValidateRoofArea(Text(Some(0.0))) == Some("Dakoppervlakte moet groter zijn dan 0")
    ensures ValidateRoofArea(Text(None)) == Some("Dakoppervlakte moet een getal zijn")
    ensures ValidateRoofArea(Number(10000.5)) == Some("Dakoppervlakte lijkt te groot (max 10.000 m²)")
  {
  }
}

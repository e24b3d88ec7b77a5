/** The pure part of the services models: service types, the columns of an order
    item, and the price each item gets from the plasma, laser and printing cost
    formulas (backend/services/models.py). */
module Pricing {
  import opened Wrappers
  import Strings

  /** The five service types the shop offers (`TypeService.BASE_TYPES`). */
  const BaseTypes: seq<string> :=
    ["plasma", "laser_engraving", "laser_cutting", "3D_printing", "resin_printing"]

  /** A row of the `TypeService` table. */
  datatype Service = Service(
    id: nat,
    serviceType: string,
    name: string,
    shortDescription: string,
    basePrice: Option<real>,
    active: bool,
    isBaseService: bool,
    orderDisplay: int)

  /** The type `TypeService.save` derives from the name: lower case, with spaces
      and hyphens turned into underscores. */
  function DerivedType(name: string): (t: string)
    ensures |t| == |name|
    ensures forall i :: 0 <= i < |t| ==>
      t[i] == if name[i] == ' ' || name[i] == '-' then '_' else Strings.LowerChar(name[i])
    ensures ' ' !in t && '-' !in t
    ensures forall i :: 0 <= i < |t| ==> !('A' <= t[i] <= 'Z')
  {
    var lowered := Strings.Lower(name);
    Strings.ReplaceChar(Strings.ReplaceChar(lowered, ' ', '_'), '-', '_')
  }

  /** `TypeService.save`: an empty type is replaced by the one derived from the name;
      a given type is kept. */
  function SaveTypeService(s: Service): (r: Service)
    ensures s.serviceType != "" ==> r == s
    ensures s.serviceType == "" ==> r == s.(serviceType := DerivedType(s.name))
  {
    if s.serviceType == "" then s.(serviceType := DerivedType(s.name)) else s
  }

  /** Saving a service twice stores what saving it once stores. */
  lemma SaveTypeServiceIdempotent(s: Service)
    ensures SaveTypeService(SaveTypeService(s)) == SaveTypeService(s)
  {
  }

  /** The columns of one `OrderItem` row. Integer minutes are `Option<int>`, decimal
      columns `Option<real>`; `None` is SQL `NULL`. */
  datatype ItemRow = ItemRow(
    service: Option<Service>,
    description: string,
    hasDesignFile: bool,
    quantity: nat,
    lengthDimensions: Option<real>,
    widthDimensions: Option<real>,
    heightDimensions: Option<real>,
    estimatedUnitPrice: Option<real>,
    finalUnitPrice: Option<real>,
    needsCustomDesign: bool,
    customDesignPrice: Option<real>,
    plasmaDesignProgrammingTime: Option<int>,
    plasmaCuttingTime: Option<int>,
    plasmaPostProcessTime: Option<int>,
    plasmaMaterialCost: Option<real>,
    plasmaConsumables: Option<real>,
    laserDesignProgrammingTime: Option<int>,
    laserCuttingTime: Option<int>,
    laserPostProcessTime: Option<int>,
    laserMaterialCost: Option<real>,
    laserConsumables: Option<real>,
    printingDesignProgrammingTime: Option<int>,
    printingTime: Option<int>,
    printingMaterialUsed: Option<real>,
    printingPostProcessTime: Option<int>,
    printingMaterialCost: Option<real>,
    printingConsumables: Option<real>)

  /** A new item with the model's column defaults: quantity 1, no dimensions, no
      prices, no custom design, and the per-family defaults of the calculation
      columns (plasma 60/30/60 minutes and 162.30 consumables, laser 30/10/10 and
      30.00, printing 60/30 minutes, 60 post-process, 350.00 material, 30.00). */
  function NewItemRow(service: Option<Service>, description: string): (r: ItemRow)
    ensures r.quantity == 1 && r.estimatedUnitPrice == None && r.finalUnitPrice == None
    ensures !r.needsCustomDesign && r.service == service
  {
    ItemRow(service, description, false, 1, None, None, None, None, None, false, None,
      Some(60), Some(30), Some(60), None, Some(162.30),
      Some(30), Some(10), Some(10), None, Some(30.00),
      Some(60), Some(30), None, Some(60), Some(350.00), Some(30.00))
  }

  /** `get_area_square_inches`: length times width when both are set and non-zero. */
  function Area(item: ItemRow): (a: real)
    ensures Truthy(item.lengthDimensions) && Truthy(item.widthDimensions) ==>
      a == item.lengthDimensions.value * item.widthDimensions.value
    ensures !(Truthy(item.lengthDimensions) && Truthy(item.widthDimensions)) ==> a == 0.0
  {
    if Truthy(item.lengthDimensions) && Truthy(item.widthDimensions)
    then item.lengthDimensions.value * item.widthDimensions.value
    else 0.0
  }

  /** The coefficients of the minutes A, B and C in a cutting formula. */
  datatype Coefficients = Coefficients(k1: real, k2: real, k3: real)

  const PlasmaCoefficients := Coefficients(3.33, 16.5, 1.5)
  const LaserCoefficients := Coefficients(1.2, 1.7, 1.0)

  /** The effective inputs of a cutting formula once defaults are applied:
      A, B, C minutes, E material cost, F area, G consumables. */
  datatype CutInputs = CutInputs(a: real, b: real, c: real, e: real, f: real, g: real)

  /** `((A*k1)+(B*k2)+(C*k3)+(D*0.03211)+(((E*F)/4608)*2)+G)*1.3`, then `*1.08`,
      with the power term `D = 0.09524*B`. */
  function CuttingTotal(k: Coefficients, x: CutInputs): real {
    var d := 0.09524 * x.b;
    var subtotal := ((x.a * k.k1) + (x.b * k.k2) + (x.c * k.k3) + (d * 0.03211)
      + (((x.e * x.f) / 4608.0) * 2.0) + x.g) * 1.3;
    subtotal * 1.08
  }

  /** The inputs `calculate_plasma_price` reads: a falsy minute count falls back to
      60/30/60, a falsy material cost to 0 and falsy consumables to 162.30. */
  function PlasmaInputs(item: ItemRow): (x: CutInputs)
    ensures x.a == IntOr(item.plasmaDesignProgrammingTime, 60)
    ensures x.b == IntOr(item.plasmaCuttingTime, 30)
    ensures x.c == IntOr(item.plasmaPostProcessTime, 60)
    ensures x.e == RealOr(item.plasmaMaterialCost, 0.0)
    ensures x.f == Area(item)
    ensures x.g == RealOr(item.plasmaConsumables, 162.30)
  {
    CutInputs(IntOr(item.plasmaDesignProgrammingTime, 60), IntOr(item.plasmaCuttingTime, 30),
      IntOr(item.plasmaPostProcessTime, 60), RealOr(item.plasmaMaterialCost, 0.0),
      Area(item), RealOr(item.plasmaConsumables, 162.30))
  }

  /** The inputs `calculate_laser_price` reads: defaults 30/10/10 minutes, material 0,
      consumables 30.00. */
  function LaserInputs(item: ItemRow): (x: CutInputs)
    ensures x.a == IntOr(item.laserDesignProgrammingTime, 30)
    ensures x.b == IntOr(item.laserCuttingTime, 10)
    ensures x.c == IntOr(item.laserPostProcessTime, 10)
    ensures x.e == RealOr(item.laserMaterialCost, 0.0)
    ensures x.f == Area(item)
    ensures x.g == RealOr(item.laserConsumables, 30.00)
  {
    CutInputs(IntOr(item.laserDesignProgrammingTime, 30), IntOr(item.laserCuttingTime, 10),
      IntOr(item.laserPostProcessTime, 10), RealOr(item.laserMaterialCost, 0.0),
      Area(item), RealOr(item.laserConsumables, 30.00))
  }

  function PlasmaPrice(item: ItemRow): real {
    CuttingTotal(PlasmaCoefficients, PlasmaInputs(item))
  }

  function LaserPrice(item: ItemRow): real {
    CuttingTotal(LaserCoefficients, LaserInputs(item))
  }

  /** The effective inputs of the printing formula: A, B, D minutes, C grams of
      material, F cost of a 1 kg roll, G consumables. */
  datatype PrintInputs = PrintInputs(a: real, b: real, c: real, d: real, f: real, g: real)

  /** The inputs `calculate_printing_price` reads: defaults 60/30 minutes, material
      used 0, 60 post-process minutes, 350.00 per roll, 30.00 consumables. */
  function PrintingInputs(item: ItemRow): (x: PrintInputs)
    ensures x.a == IntOr(item.printingDesignProgrammingTime, 60)
    ensures x.b == IntOr(item.printingTime, 30)
    ensures x.c == RealOr(item.printingMaterialUsed, 0.0)
    ensures x.d == IntOr(item.printingPostProcessTime, 60)
    ensures x.f == RealOr(item.printingMaterialCost, 350.00)
    ensures x.g == RealOr(item.printingConsumables, 30.00)
  {
    PrintInputs(IntOr(item.printingDesignProgrammingTime, 60), IntOr(item.printingTime, 30),
      RealOr(item.printingMaterialUsed, 0.0), IntOr(item.printingPostProcessTime, 60),
      RealOr(item.printingMaterialCost, 350.00), RealOr(item.printingConsumables, 30.00))
  }

  /** `((A*2.7)+(B*1.9)+(C/1000)*F+(D*1.5)+G)*1.3`, then `*1.08`. The formula in the
      admin help text differs; this is the one the program computes. */
  function PrintingTotal(x: PrintInputs): real {
    var subtotal := ((x.a * 2.7) + (x.b * 1.9) + (x.c / 1000.0) * x.f + (x.d * 1.5) + x.g) * 1.3;
    subtotal * 1.08
  }

  function PrintingPrice(item: ItemRow): real {
    PrintingTotal(PrintingInputs(item))
  }

  predicate IsLaserType(t: string) {
    t == "laser_engraving" || t == "laser_cutting"
  }

  predicate IsPrintingType(t: string) {
    t == "3D_printing" || t == "resin_printing"
  }

  /** `calculate_service_price`: dispatch on the service type. */
  function CalculateServicePrice(item: ItemRow): real {
    if item.service.None? then 0.0
    else if item.service.value.serviceType == "plasma" then PlasmaPrice(item)
    else if IsLaserType(item.service.value.serviceType) then LaserPrice(item)
    else if IsPrintingType(item.service.value.serviceType) then PrintingPrice(item)
    else RealOr(item.service.value.basePrice, 0.0)
  }

  /** A quantity times a unit price, or 0 when the unit price is unset or zero. */
  function UnitTotal(unit: Option<real>, quantity: nat): real {
    if Truthy(unit) then unit.value * quantity as real else 0.0
  }

  /** The custom-design charge counted in an item's totals. */
  function DesignCharge(item: ItemRow): real {
    if item.needsCustomDesign && Truthy(item.customDesignPrice) then item.customDesignPrice.value else 0.0
  }

  /** `get_estimated_total_with_design`. */
  function EstimatedTotalWithDesign(item: ItemRow): real {
    UnitTotal(item.estimatedUnitPrice, item.quantity) + DesignCharge(item)
  }

  /** `get_final_total_with_design`. */
  function FinalTotalWithDesign(item: ItemRow): real {
    UnitTotal(item.finalUnitPrice, item.quantity) + DesignCharge(item)
  }

  /** `get_price_difference`: final minus estimated total, reported only when both
      totals are positive. */
  function PriceDifference(item: ItemRow): (r: real)
    ensures EstimatedTotalWithDesign(item) > 0.0 && FinalTotalWithDesign(item) > 0.0 ==>
      r == FinalTotalWithDesign(item) - EstimatedTotalWithDesign(item)
    ensures !(EstimatedTotalWithDesign(item) > 0.0 && FinalTotalWithDesign(item) > 0.0) ==> r == 0.0
  {
    var est := EstimatedTotalWithDesign(item);
    var fin := FinalTotalWithDesign(item);
    if est > 0.0 && fin > 0.0 then fin - est else 0.0
  }

  // ---------------------------------------------------------------------------
  // Properties of the formulas

  lemma MulMonotone(x1: real, x2: real, y1: real, y2: real)
    requires 0.0 <= x1 <= x2 && 0.0 <= y1 <= y2
    ensures x1 * y1 <= x2 * y2
  {
    assert x1 * y1 <= x2 * y1;
    assert x2 * y1 <= x2 * y2;
  }

  /** Every input of a cutting formula is non-negative. */
  predicate NonNegativeCut(x: CutInputs) {
    x.a >= 0.0 && x.b >= 0.0 && x.c >= 0.0 && x.e >= 0.0 && x.f >= 0.0 && x.g >= 0.0
  }

  predicate NonNegativeCoefficients(k: Coefficients) {
    k.k1 >= 0.0 && k.k2 >= 0.0 && k.k3 >= 0.0
  }

  /** Each input of `x` is at most the matching input of `y`. */
  predicate CutBelow(x: CutInputs, y: CutInputs) {
    x.a <= y.a && x.b <= y.b && x.c <= y.c && x.e <= y.e && x.f <= y.f && x.g <= y.g
  }

  /** A cutting price never decreases when any input grows. */
  lemma CuttingTotalMonotone(k: Coefficients, x: CutInputs, y: CutInputs)
    requires NonNegativeCoefficients(k) && NonNegativeCut(x) && CutBelow(x, y)
    ensures CuttingTotal(k, x) <= CuttingTotal(k, y)
  {
    MulMonotone(x.e, y.e, x.f, y.f);
    MulMonotone(x.a, y.a, k.k1, k.k1);
    MulMonotone(x.b, y.b, k.k2, k.k2);
    MulMonotone(x.c, y.c, k.k3, k.k3);
  }

  /** A cutting price of non-negative inputs is at least 1.404 times the consumables. */
  lemma CuttingTotalNonNegative(k: Coefficients, x: CutInputs)
    requires NonNegativeCoefficients(k) && NonNegativeCut(x)
    ensures CuttingTotal(k, x) >= x.g * 1.3 * 1.08 >= 0.0
  {
    var zero := CutInputs(0.0, 0.0, 0.0, 0.0, 0.0, x.g);
    CuttingTotalMonotone(k, zero, x);
  }

  /** With no area the material cost does not enter the price. */
  lemma CuttingMaterialNeedsArea(k: Coefficients, x: CutInputs, e: real)
    requires x.f == 0.0
    ensures CuttingTotal(k, x) == CuttingTotal(k, x.(e := e))
  {
  }

  /** No input is clamped to its "minimum": the price moves linearly with the
      design minutes, so a count below the default lowers the price. */
  lemma CuttingDesignMinutesLinear(k: Coefficients, x: CutInputs, a: real)
    ensures CuttingTotal(k, x.(a := a)) - CuttingTotal(k, x) == (a - x.a) * k.k1 * 1.3 * 1.08
  {
  }

  /** Every input of the printing formula is non-negative. */
  predicate NonNegativePrint(x: PrintInputs) {
    x.a >= 0.0 && x.b >= 0.0 && x.c >= 0.0 && x.d >= 0.0 && x.f >= 0.0 && x.g >= 0.0
  }

  predicate PrintBelow(x: PrintInputs, y: PrintInputs) {
    x.a <= y.a && x.b <= y.b && x.c <= y.c && x.d <= y.d && x.f <= y.f && x.g <= y.g
  }

  /** A printing price never decreases when any input grows. */
  lemma PrintingTotalMonotone(x: PrintInputs, y: PrintInputs)
    requires NonNegativePrint(x) && PrintBelow(x, y)
    ensures PrintingTotal(x) <= PrintingTotal(y)
  {
    MulMonotone(x.c / 1000.0, y.c / 1000.0, x.f, y.f);
  }

  /** A printing price of non-negative inputs is at least 1.404 times the consumables. */
  lemma PrintingTotalNonNegative(x: PrintInputs)
    requires NonNegativePrint(x)
    ensures PrintingTotal(x) >= x.g * 1.3 * 1.08 >= 0.0
  {
    PrintingTotalMonotone(PrintInputs(0.0, 0.0, 0.0, 0.0, 0.0, x.g), x);
  }

  /** The plasma price of an item whose calculation columns are all unset or zero. */
  lemma PlasmaAllDefaults(item: ItemRow)
    requires !TruthyInt(item.plasmaDesignProgrammingTime) && !TruthyInt(item.plasmaCuttingTime)
    requires !TruthyInt(item.plasmaPostProcessTime) && !Truthy(item.plasmaConsumables)
    requires !Truthy(item.plasmaMaterialCost)
    ensures PlasmaPrice(item) == (199.8 + 495.0 + 90.0 + 0.09524 * 30.0 * 0.03211 + 162.30) * 1.3 * 1.08
  {
  }

  /** The laser price of an item whose calculation columns are all unset or zero. */
  lemma LaserAllDefaults(item: ItemRow)
    requires !TruthyInt(item.laserDesignProgrammingTime) && !TruthyInt(item.laserCuttingTime)
    requires !TruthyInt(item.laserPostProcessTime) && !Truthy(item.laserConsumables)
    requires !Truthy(item.laserMaterialCost)
    ensures LaserPrice(item) == (36.0 + 17.0 + 10.0 + 0.09524 * 10.0 * 0.03211 + 30.0) * 1.3 * 1.08
  {
  }

  /** The printing price of an item whose calculation columns are all unset or zero. */
  lemma PrintingAllDefaults(item: ItemRow)
    requires !TruthyInt(item.printingDesignProgrammingTime) && !TruthyInt(item.printingTime)
    requires !Truthy(item.printingMaterialUsed) && !TruthyInt(item.printingPostProcessTime)
    requires !Truthy(item.printingMaterialCost) && !Truthy(item.printingConsumables)
    ensures PrintingPrice(item) == (162.0 + 57.0 + 90.0 + 30.0) * 1.3 * 1.08
  {
  }

  /** The column defaults of a new item price it exactly as if every calculation
      column were unset, in all three families. */
  lemma NewItemPricesAsUnset(service: Option<Service>, description: string)
    ensures var r := NewItemRow(service, description);
      PlasmaPrice(r) == (199.8 + 495.0 + 90.0 + 0.09524 * 30.0 * 0.03211 + 162.30) * 1.3 * 1.08
      && LaserPrice(r) == (36.0 + 17.0 + 10.0 + 0.09524 * 10.0 * 0.03211 + 30.0) * 1.3 * 1.08
      && PrintingPrice(r) == (162.0 + 57.0 + 90.0 + 30.0) * 1.3 * 1.08
  {
  }

  /** A zero in a minute column prices the item as if the column were `NULL`. */
  lemma ZeroMinutesCountAsUnset(item: ItemRow)
    ensures PlasmaPrice(item.(plasmaDesignProgrammingTime := Some(0)))
         == PlasmaPrice(item.(plasmaDesignProgrammingTime := None))
    ensures LaserPrice(item.(laserCuttingTime := Some(0))) == LaserPrice(item.(laserCuttingTime := None))
    ensures PrintingPrice(item.(printingTime := Some(0))) == PrintingPrice(item.(printingTime := None))
  {
    assert PlasmaInputs(item.(plasmaDesignProgrammingTime := Some(0)))
        == PlasmaInputs(item.(plasmaDesignProgrammingTime := None));
    assert LaserInputs(item.(laserCuttingTime := Some(0))) == LaserInputs(item.(laserCuttingTime := None));
    assert PrintingInputs(item.(printingTime := Some(0))) == PrintingInputs(item.(printingTime := None));
  }

  /** Which formula prices an item, by service type. */
  lemma ServicePriceDispatch(item: ItemRow)
    ensures item.service.None? ==> CalculateServicePrice(item) == 0.0
    ensures item.service.Some? && item.service.value.serviceType == "plasma" ==>
      CalculateServicePrice(item) == PlasmaPrice(item)
    ensures item.service.Some? && IsLaserType(item.service.value.serviceType) ==>
      CalculateServicePrice(item) == LaserPrice(item)
    ensures item.service.Some? && IsPrintingType(item.service.value.serviceType) ==>
      CalculateServicePrice(item) == PrintingPrice(item)
    ensures item.service.Some? && item.service.value.serviceType !in BaseTypes ==>
      CalculateServicePrice(item) == RealOr(item.service.value.basePrice, 0.0)
  {
  }

  /** The height of an item never enters its price. */
  lemma HeightNeverPriced(item: ItemRow, h: Option<real>)
    ensures CalculateServicePrice(item.(heightDimensions := h)) == CalculateServicePrice(item)
  {
    assert PlasmaInputs(item.(heightDimensions := h)) == PlasmaInputs(item);
    assert LaserInputs(item.(heightDimensions := h)) == LaserInputs(item);
  }

  /** A plasma item's price reads only the plasma columns, the dimensions and the
      service: the laser and printing columns never enter it. */
  lemma PlasmaReadsOnlyPlasmaColumns(x: ItemRow, y: ItemRow)
    requires x.service == y.service && x.service.Some? && x.service.value.serviceType == "plasma"
    requires x.lengthDimensions == y.lengthDimensions && x.widthDimensions == y.widthDimensions
    requires x.plasmaDesignProgrammingTime == y.plasmaDesignProgrammingTime
    requires x.plasmaCuttingTime == y.plasmaCuttingTime && x.plasmaPostProcessTime == y.plasmaPostProcessTime
    requires x.plasmaMaterialCost == y.plasmaMaterialCost && x.plasmaConsumables == y.plasmaConsumables
    ensures CalculateServicePrice(x) == CalculateServicePrice(y)
  {
    assert PlasmaInputs(x) == PlasmaInputs(y);
  }

  /** Columns that are non-negative where they are set. */
  predicate NonNegativeColumns(item: ItemRow) {
    (item.lengthDimensions.Some? ==> item.lengthDimensions.value >= 0.0)
    && (item.widthDimensions.Some? ==> item.widthDimensions.value >= 0.0)
    && (item.plasmaDesignProgrammingTime.Some? ==> item.plasmaDesignProgrammingTime.value >= 0)
    && (item.plasmaCuttingTime.Some? ==> item.plasmaCuttingTime.value >= 0)
    && (item.plasmaPostProcessTime.Some? ==> item.plasmaPostProcessTime.value >= 0)
    && (item.plasmaMaterialCost.Some? ==> item.plasmaMaterialCost.value >= 0.0)
    && (item.plasmaConsumables.Some? ==> item.plasmaConsumables.value >= 0.0)
    && (item.laserDesignProgrammingTime.Some? ==> item.laserDesignProgrammingTime.value >= 0)
    && (item.laserCuttingTime.Some? ==> item.laserCuttingTime.value >= 0)
    && (item.laserPostProcessTime.Some? ==> item.laserPostProcessTime.value >= 0)
    && (item.laserMaterialCost.Some? ==> item.laserMaterialCost.value >= 0.0)
    && (item.laserConsumables.Some? ==> item.laserConsumables.value >= 0.0)
    && (item.printingDesignProgrammingTime.Some? ==> item.printingDesignProgrammingTime.value >= 0)
    && (item.printingTime.Some? ==> item.printingTime.value >= 0)
    && (item.printingMaterialUsed.Some? ==> item.printingMaterialUsed.value >= 0.0)
    && (item.printingPostProcessTime.Some? ==> item.printingPostProcessTime.value >= 0)
    && (item.printingMaterialCost.Some? ==> item.printingMaterialCost.value >= 0.0)
    && (item.printingConsumables.Some? ==> item.printingConsumables.value >= 0.0)
    && (item.service.Some? && item.service.value.basePrice.Some? ==> item.service.value.basePrice.value >= 0.0)
  }

  /** An item whose columns are non-negative gets a non-negative price. */
  lemma ServicePriceNonNegative(item: ItemRow)
    requires NonNegativeColumns(item)
    ensures CalculateServicePrice(item) >= 0.0
  {
    if item.service.Some? {
      var t := item.service.value.serviceType;
      if t == "plasma" {
        PlasmaPriceNonNegative(item);
      } else if IsLaserType(t) {
        LaserPriceNonNegative(item);
      } else if IsPrintingType(t) {
        PrintingPriceNonNegative(item);
      }
    }
  }

  /** The plasma branch of `ServicePriceNonNegative`. */
  lemma PlasmaPriceNonNegative(item: ItemRow)
    requires NonNegativeColumns(item)
    ensures PlasmaPrice(item) >= 0.0
  {
    MulMonotone(0.0, RealOr(item.lengthDimensions, 0.0), 0.0, RealOr(item.widthDimensions, 0.0));
    CuttingTotalNonNegative(PlasmaCoefficients, PlasmaInputs(item));
  }

  /** The laser branch of `ServicePriceNonNegative`. */
  lemma LaserPriceNonNegative(item: ItemRow)
    requires NonNegativeColumns(item)
    ensures LaserPrice(item) >= 0.0
  {
    MulMonotone(0.0, RealOr(item.lengthDimensions, 0.0), 0.0, RealOr(item.widthDimensions, 0.0));
    CuttingTotalNonNegative(LaserCoefficients, LaserInputs(item));
  }

  /** The printing branch of `ServicePriceNonNegative`. */
  lemma PrintingPriceNonNegative(item: ItemRow)
    requires NonNegativeColumns(item)
    ensures PrintingPrice(item) >= 0.0
  {
    PrintingTotalNonNegative(PrintingInputs(item));
  }

  /** `get_formatted_total_price`: the final total with design as "$<amount> MXN",
      or "Not calculated" when that total is not positive. `money` is the
      two-decimal, thousands-separated rendering of the amount. */
  function FormattedTotalPrice(item: ItemRow, money: real -> string): (r: string)
    ensures FinalTotalWithDesign(item) > 0.0 ==> r == "$" + money(FinalTotalWithDesign(item)) + " MXN"
    ensures FinalTotalWithDesign(item) <= 0.0 ==> r == "Not calculated"
  {
    var total := FinalTotalWithDesign(item);
    if total > 0.0 then "$" + money(total) + " MXN" else "Not calculated"
  }

  /** An item without a final unit price and without a design charge shows
      "Not calculated", whatever its estimate. */
  lemma UnpricedItemNotCalculated(item: ItemRow, money: real -> string)
    requires !Truthy(item.finalUnitPrice) && DesignCharge(item) == 0.0
    ensures FormattedTotalPrice(item, money) == "Not calculated"
  {
    UnsetUnitContributesNothing(item);
  }

  // ---------------------------------------------------------------------------
  // Properties of the item totals

  /** The custom-design charge is added once, not per unit: changing the quantity
      changes a total by the unit price times the change. */
  lemma DesignChargedOnce(item: ItemRow, q: nat)
    ensures EstimatedTotalWithDesign(item.(quantity := q)) - EstimatedTotalWithDesign(item)
         == (if Truthy(item.estimatedUnitPrice) then item.estimatedUnitPrice.value * (q as real - item.quantity as real) else 0.0)
    ensures FinalTotalWithDesign(item.(quantity := q)) - FinalTotalWithDesign(item)
         == (if Truthy(item.finalUnitPrice) then item.finalUnitPrice.value * (q as real - item.quantity as real) else 0.0)
  {
  }

  /** The design price is counted only when custom design is needed and priced. */
  lemma DesignChargeOnlyWhenNeeded(item: ItemRow)
    ensures !item.needsCustomDesign ==>
      EstimatedTotalWithDesign(item) == UnitTotal(item.estimatedUnitPrice, item.quantity)
    ensures item.needsCustomDesign && Truthy(item.customDesignPrice) ==>
      FinalTotalWithDesign(item) == UnitTotal(item.finalUnitPrice, item.quantity) + item.customDesignPrice.value
  {
  }

  /** With an unset unit price an item's total is its design charge alone. */
  lemma UnsetUnitContributesNothing(item: ItemRow)
    requires !Truthy(item.finalUnitPrice)
    ensures FinalTotalWithDesign(item) == DesignCharge(item)
    ensures PriceDifference(item) == 0.0 || DesignCharge(item) > 0.0
  {
  }

  /** The price difference is positive exactly when the final total exceeds a
      positive estimate. */
  lemma PriceDifferenceSign(item: ItemRow)
    requires EstimatedTotalWithDesign(item) > 0.0
    ensures PriceDifference(item) > 0.0 <==> FinalTotalWithDesign(item) > EstimatedTotalWithDesign(item)
  {
  }
}

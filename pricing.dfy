/**
 The price rule of the order form: a per-kilogram base, an express multiplier on
 that base only, and three optional add-ons. Amounts are exact reals (rupiah).
 */
module Pricing {

  const BasePerKg: real := 7000.0
  const ExpressMultiplier: real := 1.5
  const IroningPerKg: real := 3000.0
  const StainFixFlat: real := 5000.0
  const DeliveryFlat: real := 10000.0

  datatype Service = Regular | Express
  datatype PayMethod = Cash | Transfer

  /** The weight field as JavaScript's `Number` reads it: a finite number or NaN
      (NaN for text that is not a number). An empty field reads as `Num(0.0)`. */
  datatype WeightField = Num(value: real) | NaN

  /** The order form as the user fills it in. Timestamps are ISO strings. */
  datatype OrderForm = OrderForm(
    name: string,
    phone: string,
    address: string,
    service: Service,
    kg: WeightField,
    ironing: bool,
    stain: bool,
    delivery: bool,
    pickupAt: string,
    note: string,
    payMethod: PayMethod)

  /** `Number(form.kg) || 0`: NaN and zero are falsy and give 0; any other number,
      negative ones included, is used as it is. */
  function Kg(w: WeightField): (kg: real)
    ensures kg == 0.0 <==> w.NaN? || w.value == 0.0
    ensures w.Num? && w.value != 0.0 ==> kg == w.value
  {
    match w
    case NaN => 0.0
    case Num(x) => if x == 0.0 then 0.0 else x
  }

  /** The sum of the flat fees the form selects (stain removal, delivery). */
  function FlatFees(f: OrderForm): (fees: real)
    ensures 0.0 <= fees <= 15000.0
  {
    (if f.stain then StainFixFlat else 0.0) + (if f.delivery then DeliveryFlat else 0.0)
  }

  /** The total price, computed as the form computes it: base, express scaling, then add-ons.
      In closed form: the base rate is 7000 per kilogram, 10500 for express; ironing costs
      3000 per kilogram and is not scaled by express; the flat fees are added as they are. */
  function Total(f: OrderForm): (r: real)
    ensures r == (if f.service == Express then 10500.0 else 7000.0) * Kg(f.kg)
                 + (if f.ironing then 3000.0 * Kg(f.kg) else 0.0)
                 + (if f.stain then 5000.0 else 0.0)
                 + (if f.delivery then 10000.0 else 0.0)
  {
    var kg := Kg(f.kg);
    var base := BasePerKg * kg;
    var base := if f.service == Express then base * ExpressMultiplier else base;
    var add := 0.0;
    var add := if f.ironing then add + IroningPerKg * kg else add;
    var add := if f.stain then add + StainFixFlat else add;
    var add := if f.delivery then add + DeliveryFlat else add;
    base + add
  }

  /** Express adds half the regular base (3500 per kilogram) and nothing else. */
  lemma ExpressScalesOnlyBase(f: OrderForm)
    ensures Total(f.(service := Express)) == Total(f.(service := Regular)) + 3500.0 * Kg(f.kg)
  {
  }

  /** Ironing adds 3000 per kilogram, whatever the other options are. */
  lemma IroningAddsPerKg(f: OrderForm)
    ensures Total(f.(ironing := true)) == Total(f.(ironing := false)) + IroningPerKg * Kg(f.kg)
  {
  }

  /** Stain removal adds 5000, whatever the other options are. */
  lemma StainAddsFlat(f: OrderForm)
    ensures Total(f.(stain := true)) == Total(f.(stain := false)) + StainFixFlat
  {
  }

  /** Delivery adds 10000, whatever the other options are. */
  lemma DeliveryAddsFlat(f: OrderForm)
    ensures Total(f.(delivery := true)) == Total(f.(delivery := false)) + DeliveryFlat
  {
  }

  /** A weight that is not a number, or zero, prices only the selected flat fees. */
  lemma NoWeightPricesFlatFeesOnly(f: OrderForm)
    requires f.kg.NaN? || f.kg.value == 0.0
    ensures Total(f) == FlatFees(f)
  {
  }

  /** A non-negative weight gives a price no smaller than the flat fees. */
  lemma TotalAtLeastFlatFees(f: OrderForm)
    requires f.kg.Num? && f.kg.value >= 0.0
    ensures Total(f) >= FlatFees(f) >= 0.0
  {
  }

  /** A negative weight is not clamped: one kilogram below zero, regular, no add-ons costs -7000. */
  lemma NegativeWeightIsNotClamped(f: OrderForm)
    requires f.kg == Num(-1.0) && f.service == Regular && !f.ironing && !f.stain && !f.delivery
    ensures Total(f) == -7000.0
  {
  }

  /** 3 kg, regular, no add-ons: 21000. */
  lemma ThreeKgRegular(f: OrderForm)
    requires f.kg == Num(3.0) && f.service == Regular && !f.ironing && !f.stain && !f.delivery
    ensures Total(f) == 21000.0
  {
  }

  /** 3 kg, express, ironing and delivery: 1.5 * 21000 + 9000 + 10000 = 50500. */
  lemma ThreeKgExpressIroningDelivery(f: OrderForm)
    requires f.kg == Num(3.0) && f.service == Express && f.ironing && !f.stain && f.delivery
    ensures Total(f) == 50500.0
  {
  }
}

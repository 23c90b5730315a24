/**
 * The booking quote engine: the voucher catalogue and `calculateDiscount`,
 * the location rate table, billable hours, and the quote the booking page
 * derives from them.
 */
module Pricing {
  import opened Wrappers
  import opened Lists
  import opened Money

  datatype DiscountType = Percentage | FixedAmount

  datatype Voucher = Voucher(
    id: string,
    code: string,
    discountType: DiscountType,
    discountValue: real,
    expiresAt: string,
    maxUsesPerUser: nat,
    maxUsesTotal: nat,
    description: string,
    isActive: bool)

  /** The three hard-coded test vouchers. Expiry and usage limits are data only. */
  const TestVouchers: seq<Voucher> := [
    Voucher("promo_save20", "SAVE20", Percentage, 20.0, "2025-12-31T23:59:59Z", 3, 1000,
            "20% off your booking", true),
    Voucher("promo_save30", "SAVE30", Percentage, 30.0, "2025-12-31T23:59:59Z", 3, 1000,
            "30% off your booking", true),
    Voucher("promo_get15off", "GET15OFF", FixedAmount, 15.0, "2025-12-31T23:59:59Z", 1, 500,
            "$15 off your booking", true)
  ]

  /** A voucher whose value is a sensible discount: non-negative, at most 100 for a percentage. */
  predicate WellFormedVoucher(v: Voucher) {
    v.discountValue >= 0.0 && (v.discountType == Percentage ==> v.discountValue <= 100.0)
  }

  /** The discount before rounding: the percentage of the price, or the fixed amount
      capped at the price. */
  function RawDiscount(price: real, v: Voucher): (raw: real)
    ensures v.discountType == Percentage ==> raw * 100.0 == price * v.discountValue
    ensures v.discountType == FixedAmount ==>
              raw <= v.discountValue && raw <= price && (raw == v.discountValue || raw == price)
  {
    match v.discountType
    case Percentage => price * v.discountValue / 100.0
    case FixedAmount => if v.discountValue <= price then v.discountValue else price
  }

  /** A well-formed voucher's unrounded discount lies between 0 and a non-negative price. */
  lemma RawDiscountWithinPrice(price: real, v: Voucher)
    ensures price >= 0.0 && WellFormedVoucher(v) ==> 0.0 <= RawDiscount(price, v) <= price
  {
    if price >= 0.0 && WellFormedVoucher(v) && v.discountType == Percentage {
      assert price * v.discountValue <= price * 100.0 by {
        assert price * (100.0 - v.discountValue) >= 0.0;
      }
    }
  }

  datatype Discount = Discount(discountAmount: real, finalPrice: real)

  /** Rounding keeps a discount between 0 and the price, and a final price below the price. */
  lemma RoundedBounds(price: real, raw: real, fin: real)
    ensures 0.0 <= raw <= price ==> 0.0 <= RoundCents(raw) <= RoundCents(price)
    ensures fin <= price ==> RoundCents(fin) <= RoundCents(price)
    ensures raw <= price && IsWholeCents(price) ==> RoundCents(raw) <= price
  {
    if 0.0 <= raw <= price {
      RoundCentsMonotone(0.0, raw);
      RoundCentsMonotone(raw, price);
    }
    if fin <= price {
      RoundCentsMonotone(fin, price);
    }
    if raw <= price && IsWholeCents(price) {
      RoundCentsMonotone(raw, price);
      RoundCentsOfCents(price);
    }
  }

  /** `calculateDiscount`: the final price comes from the unrounded discount and is
      floored at 0; both figures are then rounded half-up to cents. */
  function CalculateDiscount(price: real, v: Voucher): (d: Discount)
    ensures IsWholeCents(d.discountAmount) && IsWholeCents(d.finalPrice)
    ensures d.finalPrice >= 0.0
    ensures price >= 0.0 && WellFormedVoucher(v) ==>
              0.0 <= d.discountAmount <= RoundCents(price) && d.finalPrice <= RoundCents(price)
    ensures v.discountType == FixedAmount && IsWholeCents(price) ==>
              d.discountAmount <= price
    ensures d.discountAmount == RoundCents(RawDiscount(price, v))
    ensures RawDiscount(price, v) <= price ==> d.finalPrice == RoundCents(price - RawDiscount(price, v))
    ensures RawDiscount(price, v) >= price ==> d.finalPrice == 0.0
  {
    var raw := RawDiscount(price, v);
    var fin := if price - raw > 0.0 then price - raw else 0.0;
    RawDiscountWithinPrice(price, v);
    RoundedBounds(price, raw, fin);
    IntegerIsWholeCents(0);
    RoundCentsOfCents(0.0);
    Discount(RoundCents(raw), RoundCents(fin))
  }

  /** The rounded discount and final price add back to the price to within a cent. */
  lemma DiscountSplitWithinCent(price: real, v: Voucher)
    requires price >= 0.0 && WellFormedVoucher(v)
    ensures var d := CalculateDiscount(price, v);
            price - 0.01 < d.discountAmount + d.finalPrice <= price + 0.01
  {
    var raw := RawDiscount(price, v);
    RawDiscountWithinPrice(price, v);
  }

  /** When the price and the unrounded discount are whole cents, they add back exactly. */
  lemma DiscountSplitExact(price: real, v: Voucher)
    requires price >= 0.0 && WellFormedVoucher(v)
    requires IsWholeCents(price) && IsWholeCents(RawDiscount(price, v))
    ensures var d := CalculateDiscount(price, v);
            d.discountAmount + d.finalPrice == price
  {
    var raw := RawDiscount(price, v);
    RawDiscountWithinPrice(price, v);
    WholeCentsSub(price, raw);
    RoundCentsOfCents(raw);
    RoundCentsOfCents(price - raw);
  }

  datatype Location = Location(id: string, name: string, price: real, address: string)

  /** The hourly rate table. */
  const Locations: seq<Location> := [
    Location("bukit", "Bukit Panjang", 25.0, "123 Bukit Panjang Plaza, Singapore 670123"),
    Location("kovan", "Kovan", 30.0, "456 Kovan Road, Singapore 560456"),
    Location("amk", "Ang Mo Kio", 28.0, "789 Ang Mo Kio Avenue 3, Singapore 560789")
  ]

  /** `locations.find(loc => loc.id === id)`. */
  function FindLocation(id: string): (r: Option<Location>)
    ensures r.Some? ==> r.value in Locations && r.value.id == id
    ensures r.None? <==> forall i :: 0 <= i < |Locations| ==> Locations[i].id != id
  {
    Find(Locations, (l: Location) => l.id == id)
  }

  const HourMs: int := 1000 * 60 * 60

  /** `Math.ceil(d / 1h)` for a whole number of milliseconds. */
  function CeilHours(d: int): (h: int)
    ensures (h - 1) * HourMs < d <= h * HourMs
  {
    -((-d) / HourMs)
  }

  /** Billable hours: 0 unless both instants are set, otherwise the span rounded up
      to whole hours with a one-hour minimum, even when the end is not after the start. */
  function BillableHours(start: Option<int>, end: Option<int>): (h: nat)
    ensures start.None? || end.None? ==> h == 0
    ensures start.Some? && end.Some? ==>
              h >= 1
              && (end.value - start.value <= HourMs ==> h == 1)
              && (end.value - start.value > HourMs ==>
                    (h - 1) * HourMs < end.value - start.value <= h * HourMs)
  {
    if start.Some? && end.Some? then
      var c := CeilHours(end.value - start.value);
      if c > 1 then c else 1
    else 0
  }

  /** An hourly rate for a number of hours and people. */
  function BaseAmount(price: real, hours: nat, people: int): (b: real)
    ensures price >= 0.0 && people >= 0 ==> b >= 0.0
  {
    assert price >= 0.0 ==> price * (hours as real) >= 0.0;
    price * (hours as real) * (people as real)
  }

  /** `selectedLocation.price * totalHours * people`, or 0 for an unknown location id. */
  function BaseSubtotal(locationId: string, hours: nat, people: int): (b: real)
    ensures FindLocation(locationId).None? ==> b == 0.0
    ensures FindLocation(locationId).Some? ==>
              b == BaseAmount(FindLocation(locationId).value.price, hours, people)
    ensures people >= 0 ==> b >= 0.0
  {
    match FindLocation(locationId)
    case Some(l) =>
      assert l.price >= 0.0;
      BaseAmount(l.price, hours, people)
    case None => 0.0
  }

  /** Every figure the booking page shows for the current form. */
  datatype Quote = Quote(
    hours: nat,
    baseSubtotal: real,
    discountAmount: real,
    subtotal: real,
    tax: real,
    total: real)

  /** The applied voucher's discount on `base`; without a voucher nothing is taken off. */
  function VoucherDiscount(base: real, voucher: Option<Voucher>): (d: Discount)
    ensures voucher.None? ==> d == Discount(0.0, base)
    ensures voucher.Some? ==> d.finalPrice >= 0.0 && IsWholeCents(d.finalPrice)
    ensures voucher.Some? ==> d == CalculateDiscount(base, voucher.value)
  {
    match voucher
    case Some(v) => CalculateDiscount(base, v)
    case None => Discount(0.0, base)
  }

  /** The quote: rate x hours x people, the applied voucher's discount, then 9% tax
      on the discounted, unrounded subtotal. */
  function ComputeQuote(locationId: string, start: Option<int>, end: Option<int>,
                        people: int, voucher: Option<Voucher>): (q: Quote)
    ensures q.hours == BillableHours(start, end)
    ensures FindLocation(locationId).None? ==> q.baseSubtotal == 0.0
    ensures FindLocation(locationId).Some? ==>
              q.baseSubtotal == BaseAmount(FindLocation(locationId).value.price, q.hours, people)
    ensures voucher.None? ==> q.subtotal == q.baseSubtotal && q.discountAmount == 0.0
    ensures voucher.Some? ==> q.subtotal >= 0.0 && IsWholeCents(q.subtotal)
    ensures voucher.Some? ==>
              q.discountAmount == CalculateDiscount(q.baseSubtotal, voucher.value).discountAmount
              && q.subtotal == CalculateDiscount(q.baseSubtotal, voucher.value).finalPrice
    ensures q.total == q.subtotal + q.tax && q.total * 100.0 == q.subtotal * 109.0
    ensures people >= 0 ==> 0.0 <= q.subtotal <= q.total
  {
    var hours := BillableHours(start, end);
    var base := BaseSubtotal(locationId, hours, people);
    var d := VoucherDiscount(base, voucher);
    var c := ChargeFor(d.finalPrice);
    Quote(hours, base, d.discountAmount, c.subtotal, c.tax, c.total)
  }

  /** Bukit Panjang for four hours for two people with SAVE20. */
  lemma ExampleQuote()
    ensures ComputeQuote("bukit", Some(0), Some(4 * HourMs), 2, Some(TestVouchers[0]))
         == Quote(4, 200.0, 40.0, 160.0, 14.4, 174.4)
  {
    assert FindLocation("bukit") == Some(Locations[0]);
    IntegerIsWholeCents(40);
    IntegerIsWholeCents(160);
    RoundCentsOfCents(40.0);
    RoundCentsOfCents(160.0);
  }
}

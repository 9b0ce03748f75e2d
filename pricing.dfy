/**
 * The backend's pricing rule: the fixed promo table of `calculateDiscount`
 * and the subtotal / taxes / discount / total of a booking.
 */
module Pricing {
  import opened Wrappers
  import opened Text

  /** A promo rule: a percentage of the subtotal, or a flat amount. */
  datatype PromoRule = Percentage(percent: nat) | Flat(amount: nat)

  /** The promo table, keyed by upper-case code. */
  const PromoCodes: map<string, PromoRule> :=
    map["SAVE10" := Percentage(10), "FLAT100" := Flat(100), "FIRST20" := Percentage(20)]

  /**
   * `Math.round(x / 100)` for an integer `x`: the nearest integer, halves
   * rounded up (towards positive infinity, as JavaScript does).
   */
  function RoundHundredths(x: int): (r: int)
    ensures 100 * r <= x + 50 < 100 * r + 100
  {
    (x + 50) / 100
  }

  /** Rounding is monotonic. */
  lemma RoundHundredthsMonotonic(x: int, y: int)
    requires x <= y
    ensures RoundHundredths(x) <= RoundHundredths(y)
  {
  }

  /** `calculateDiscount(promoCode, subtotal)`. */
  function Discount(code: string, subtotal: int): (d: int)
    ensures ToUpper(code) !in PromoCodes ==> d == 0
    ensures ToUpper(code) == "FLAT100" ==> d == 100
    ensures ToUpper(code) == "SAVE10" ==> 100 * d <= 10 * subtotal + 50 < 100 * d + 100
    ensures ToUpper(code) == "FIRST20" ==> 100 * d <= 20 * subtotal + 50 < 100 * d + 100
  {
    var key := ToUpper(code);
    if key !in PromoCodes then 0
    else match PromoCodes[key]
      case Percentage(p) => RoundHundredths(subtotal * p)
      case Flat(a) => a
  }

  /** The lookup ignores case: codes that upper-case alike give the same discount. */
  lemma DiscountIgnoresCase(code: string, other: string, subtotal: int)
    requires ToUpper(code) == ToUpper(other)
    ensures Discount(code, subtotal) == Discount(other, subtotal)
  {
  }

  /** A code already upper-cased gives the same discount as the code as typed. */
  lemma DiscountOfUpperCased(code: string, subtotal: int)
    ensures Discount(ToUpper(code), subtotal) == Discount(code, subtotal)
  {
    ToUpperIdempotent(code);
  }

  /**
   * The percentage codes never give more than the subtotal or less than
   * nothing on a non-negative subtotal; the flat code gives 100 whatever
   * the subtotal, so on a subtotal below 100 it exceeds it.
   */
  lemma DiscountBounds(code: string, subtotal: int)
    requires subtotal >= 0
    ensures ToUpper(code) != "FLAT100" ==> 0 <= Discount(code, subtotal) <= subtotal
    ensures ToUpper(code) == "FLAT100" && subtotal < 100 ==> Discount(code, subtotal) > subtotal
  {
  }

  /** A larger subtotal never earns a smaller discount, for any code. */
  lemma DiscountGrowsWithSubtotal(code: string, subtotal: int, larger: int)
    requires subtotal <= larger
    ensures Discount(code, subtotal) <= Discount(code, larger)
  {
    var key := ToUpper(code);
    if key in PromoCodes && PromoCodes[key].Percentage? {
      var p := PromoCodes[key].percent;
      assert subtotal * p <= larger * p;
      RoundHundredthsMonotonic(subtotal * p, larger * p);
    }
  }

  /** Taxes: `Math.round(subtotal * 0.06)`, computed as six hundredths. */
  function Taxes(subtotal: int): (t: int)
    ensures 100 * t <= 6 * subtotal + 50 < 100 * t + 100
    ensures subtotal >= 0 ==> 0 <= t <= subtotal
  {
    RoundHundredths(subtotal * 6)
  }

  /** The four amounts stored on a booking. */
  datatype Quote = Quote(subtotal: int, taxes: int, discount: int, total: int)

  /** The booking's price for `quantity` seats at `price`, with an optional promo code. */
  function PriceBooking(price: int, quantity: int, promo: Option<string>): (q: Quote)
  {
    var subtotal := price * quantity;
    var taxes := Taxes(subtotal);
    var discount := if promo.Some? && promo.value != "" then Discount(promo.value, subtotal) else 0;
    Quote(subtotal, taxes, discount, subtotal + taxes - discount)
  }

  /**
   * The total is the subtotal with 6% added and the discount taken off,
   * within half a unit either way; the subtotal is price times quantity.
   */
  lemma TotalIsTaxedSubtotalLessDiscount(price: int, quantity: int, promo: Option<string>)
    ensures var q := PriceBooking(price, quantity, promo);
      && q.subtotal == price * quantity
      && 106 * q.subtotal - 100 * q.discount - 50 < 100 * q.total <= 106 * q.subtotal - 100 * q.discount + 50
  {
  }

  /** Without a usable promo code the total is the subtotal plus taxes. */
  lemma NoPromoTotal(price: int, quantity: int, promo: Option<string>)
    requires promo.None? || promo.value == "" || ToUpper(promo.value) !in PromoCodes
    ensures PriceBooking(price, quantity, promo).discount == 0
    ensures PriceBooking(price, quantity, promo).total == price * quantity + Taxes(price * quantity)
  {
  }

  /** The worked examples: 1000 at quantity 1 with SAVE10, FLAT100 and an unknown code. */
  lemma QuoteExamples()
    ensures PriceBooking(1000, 1, Some("SAVE10")) == Quote(1000, 60, 100, 960)
    ensures PriceBooking(1000, 1, Some("save10")) == Quote(1000, 60, 100, 960)
    ensures PriceBooking(1000, 1, Some("FLAT100")) == Quote(1000, 60, 100, 960)
    ensures PriceBooking(1000, 1, Some("BOGUS")) == Quote(1000, 60, 0, 1060)
    ensures PriceBooking(1000, 1, None) == Quote(1000, 60, 0, 1060)
  {
    assert ToUpper("save10") == "SAVE10";
    assert ToUpper("SAVE10") == "SAVE10";
    assert ToUpper("FLAT100") == "FLAT100";
    assert ToUpper("BOGUS") == "BOGUS";
  }

  /**
   * With a percentage code and a non-negative subtotal the total is never
   * below the taxes; with FLAT100 a cheap booking gets a negative total.
   */
  lemma TotalSign(price: int, quantity: int, code: string)
    requires price >= 0 && quantity >= 0
    ensures ToUpper(code) != "FLAT100" ==> PriceBooking(price, quantity, Some(code)).total >= PriceBooking(price, quantity, Some(code)).taxes
    ensures ToUpper(code) == "FLAT100" && price * quantity < 50 ==> PriceBooking(price, quantity, Some(code)).total < 0
  {
    DiscountBounds(code, price * quantity);
  }
}

/**
 * The decision of `POST /api/promo/validate`: a 400 when the code or the
 * subtotal is missing or falsy, otherwise the discount of the promo table,
 * reported invalid when it is zero.
 */
module PromoValidation {
  import opened Wrappers
  import opened Text
  import opened Pricing

  datatype PromoData = PromoData(valid: bool, discount: int, newTotal: int)

  /** The JSON response: HTTP status, `success`, optional `data`, `message`. */
  datatype PromoResponse = PromoResponse(status: int, success: bool, data: Option<PromoData>, message: string)

  /** JavaScript truthiness of the two body fields: absent, "" and 0 are falsy. */
  predicate CodeGiven(code: Option<string>)
  {
    code.Some? && code.value != ""
  }

  predicate SubtotalGiven(subtotal: Option<int>)
  {
    subtotal.Some? && subtotal.value != 0
  }

  function ValidatePromo(code: Option<string>, subtotal: Option<int>): (r: PromoResponse)
    ensures r.status == 400 <==> !CodeGiven(code) || !SubtotalGiven(subtotal)
    ensures r.status == 400 ==> !r.success && r.data.None? && r.message == "Code and subtotal are required"
    ensures r.status != 400 ==>
      && r.status == 200
      && r.data.Some?
      && r.data.value.valid == r.success
      && r.data.value.newTotal == subtotal.value - r.data.value.discount
      && (r.success <==> Discount(code.value, subtotal.value) != 0)
      && (r.success ==> r.data.value.discount == Discount(code.value, subtotal.value))
      && (!r.success ==> r.data.value.discount == 0 && r.data.value.newTotal == subtotal.value)
      && r.message == (if r.success then "Promo code applied successfully" else "Invalid promo code")
  {
    if !CodeGiven(code) || !SubtotalGiven(subtotal) then
      PromoResponse(400, false, None, "Code and subtotal are required")
    else
      var discount := Discount(code.value, subtotal.value);
      if discount == 0 then
        PromoResponse(200, false, Some(PromoData(false, 0, subtotal.value)), "Invalid promo code")
      else
        PromoResponse(200, true, Some(PromoData(true, discount, subtotal.value - discount)), "Promo code applied successfully")
  }

  /**
   * From a subtotal of 5 up, a code is reported valid exactly when it is in
   * the table, whatever its case.
   */
  lemma ValidIffRecognised(code: string, subtotal: int)
    requires code != "" && subtotal >= 5
    ensures ValidatePromo(Some(code), Some(subtotal)).success <==> ToUpper(code) in PromoCodes
  {
    var d := Discount(code, subtotal);
    if ToUpper(code) in PromoCodes {
      assert ToUpper(code) == "SAVE10" || ToUpper(code) == "FLAT100" || ToUpper(code) == "FIRST20";
      assert d != 0;
    }
  }

  /**
   * A recognised percentage code whose rounded discount is zero is reported
   * invalid: SAVE10 on a subtotal from 1 to 4.
   */
  lemma SmallSubtotalRejectsSave10(code: string, subtotal: int)
    requires ToUpper(code) == "SAVE10" && 0 < subtotal < 5
    ensures var r := ValidatePromo(Some(code), Some(subtotal));
      r.status == 200 && !r.success && r.data == Some(PromoData(false, 0, subtotal))
  {
  }

  /** FLAT100 is accepted on any non-zero subtotal, and the new total may go below zero. */
  lemma Flat100AlwaysAccepted(code: string, subtotal: int)
    requires ToUpper(code) == "FLAT100" && subtotal != 0
    ensures ValidatePromo(Some(code), Some(subtotal)).data == Some(PromoData(true, 100, subtotal - 100))
  {
  }

  /** The endpoint's discount is the one a booking with the same code and subtotal gets. */
  lemma AgreesWithBookingPrice(code: string, price: int, quantity: int)
    requires code != "" && price * quantity != 0
    ensures var r := ValidatePromo(Some(code), Some(price * quantity));
      r.data.Some? && r.data.value.discount == PriceBooking(price, quantity, Some(code)).discount
  {
  }
}

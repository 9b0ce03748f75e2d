/**
 * The checkout page: the 12-hour clock used for a default time slot, the
 * form state with its promo "Apply" and "Pay and Confirm" handlers, and the
 * total it displays.
 */
module Checkout {
  import opened Wrappers
  import opened Text
  import opened Pricing
  import opened PromoValidation

  // ---------------------------------------------------------------- clock

  /** The hour on a 12-hour clock face: 1 to 12, the same hour modulo 12. */
  function TwelveHour(hours: int): (h: int)
    requires 0 <= hours < 24
    ensures 1 <= h <= 12 && h % 12 == hours % 12
  {
    if hours % 12 != 0 then hours % 12 else 12
  }

  function Meridiem(hours: int): (s: string)
    ensures s == "am" || s == "pm"
    ensures s == "am" <==> hours < 12
  {
    if hours >= 12 then "pm" else "am"
  }

  /** Minutes as two digits, with one leading '0' below ten. */
  function TwoDigitMinutes(minutes: int): (s: string)
    requires 0 <= minutes < 60
    ensures |s| == 2 && AllDigits(s) && DecimalValue(s) == minutes
  {
    DecimalRoundTrip(minutes);
    if minutes < 10 then
      assert DecimalValue("0" + NatToDecimal(minutes)) == DecimalValue(NatToDecimal(minutes)) by {
        assert ("0" + NatToDecimal(minutes))[..1] == "0";
      }
      "0" + NatToDecimal(minutes)
    else
      TwoDigitLength(minutes);
      NatToDecimal(minutes)
  }

  /** "h:mm am" or "h:mm pm" for a time of day. */
  function ClockText(hours: int, minutes: int): (text: string)
    requires 0 <= hours < 24 && 0 <= minutes < 60
  {
    NatToDecimal(TwelveHour(hours)) + ":" + TwoDigitMinutes(minutes) + " " + Meridiem(hours)
  }

  /** `getCurrentTime`, with the clock's hours and minutes as inputs. */
  method CurrentTime(hours: int, minutes: int) returns (text: string)
    requires 0 <= hours < 24 && 0 <= minutes < 60
    ensures text == ClockText(hours, minutes)
  {
    var h := hours;
    var ampm := if h >= 12 then "pm" else "am";
    h := h % 12;
    h := if h != 0 then h else 12;
    var minutesStr := if minutes < 10 then "0" + NatToDecimal(minutes) else NatToDecimal(minutes);
    text := NatToDecimal(h) + ":" + minutesStr + " " + ampm;
  }

  /** The number of decimal digits at the start of a string. */
  function LeadingDigits(s: string): (n: nat)
    ensures n <= |s| && AllDigits(s[..n])
    ensures n < |s| ==> !IsDigit(s[n])
  {
    if s == [] || !IsDigit(s[0]) then 0
    else
      var n := 1 + LeadingDigits(s[1..]);
      assert s[..n] == [s[0]] + s[1..][..n - 1];
      n
  }

  lemma {:induction false} LeadingDigitsOfConcat(d: string, rest: string)
    requires AllDigits(d)
    requires rest != [] && !IsDigit(rest[0])
    ensures LeadingDigits(d + rest) == |d|
  {
    if d != [] {
      assert (d + rest)[1..] == d[1..] + rest;
      LeadingDigitsOfConcat(d[1..], rest);
    } else {
      assert d + rest == rest;
    }
  }

  /** Reads a clock text back as a 24-hour (hours, minutes) pair. */
  function ParseClock(text: string): (r: Option<(int, int)>)
  {
    var n := LeadingDigits(text);
    if n == 0 || |text| != n + 6 || text[n] != ':' || !AllDigits(text[n + 1..n + 3]) || text[n + 3] != ' ' then None
    else
      var h := DecimalValue(text[..n]);
      var m := DecimalValue(text[n + 1..n + 3]);
      var suffix := text[n + 4..];
      if !(1 <= h <= 12) || 60 <= m then None
      else if suffix == "am" then Some((h % 12, m))
      else if suffix == "pm" then Some((h % 12 + 12, m))
      else None
  }

  /** Where the parts of "h:mm xm" sit once the hour digits are known. */
  lemma ClockTextLayout(hd: string, md: string, suffix: string)
    requires |hd| >= 1 && AllDigits(hd) && |md| == 2 && AllDigits(md) && |suffix| == 2
    ensures var text := hd + ":" + md + " " + suffix;
      var n := |hd|;
      && LeadingDigits(text) == n
      && |text| == n + 6
      && text[n] == ':' && text[n + 3] == ' '
      && text[..n] == hd && text[n + 1..n + 3] == md && text[n + 4..] == suffix
  {
    var text := hd + ":" + md + " " + suffix;
    var rest := ":" + md + " " + suffix;
    assert text == hd + rest;
    LeadingDigitsOfConcat(hd, rest);
  }

  /** The clock text loses nothing: it reads back as the time it shows. */
  lemma ClockTextRoundTrip(hours: int, minutes: int)
    requires 0 <= hours < 24 && 0 <= minutes < 60
    ensures ParseClock(ClockText(hours, minutes)) == Some((hours, minutes))
  {
    var h := TwelveHour(hours);
    var hd := NatToDecimal(h);
    ClockTextLayout(hd, TwoDigitMinutes(minutes), Meridiem(hours));
    DecimalRoundTrip(h);
    assert DecimalValue(hd) == h;
  }

  // ---------------------------------------------------------------- form

  /** What the details page handed over: the chosen slot and its price. */
  datatype BookingDetails = BookingDetails(
    experience: string,
    date: string,
    time: string,
    quantity: int,
    subtotal: int,
    taxes: int,
    total: int)

  /** What "Pay and Confirm" stores for the confirmation page. */
  datatype Confirmation = Confirmation(details: BookingDetails, userName: string, userEmail: string)

  /**
   * The discount a promo reply applies, or the alert it raises. A thrown
   * request (no reply) and a successful reply without `data` (reading
   * `data.valid` throws) both end in the handler's catch.
   */
  function ReplyOutcome(reply: Option<PromoResponse>): (r: Result<int, string>)
    ensures r.Success? <==> reply.Some? && reply.value.success && reply.value.data.Some? && reply.value.data.value.valid
    ensures r.Success? ==> r.value == reply.value.data.value.discount
    ensures r.Failure? ==> r.error == "Invalid promo code" || r.error == "Failed to validate promo code"
    ensures r.Failure? ==>
      (r.error == "Failed to validate promo code" <==> reply.None? || (reply.value.success && reply.value.data.None?))
  {
    match reply
    case None => Failure("Failed to validate promo code")
    case Some(resp) =>
      if !resp.success then Failure("Invalid promo code")
      else match resp.data
        case None => Failure("Failed to validate promo code")
        case Some(data) => if data.valid then Success(data.discount) else Failure("Invalid promo code")
  }

  /** The "Pay and Confirm" checks in order; the first that fails gives the alert. */
  function PayCheck(fullName: string, email: string, agreedToTerms: bool): (alert: Option<string>)
    ensures alert.None? <==> fullName != "" && '@' in email && agreedToTerms
    ensures fullName == "" || email == "" ==> alert == Some("Please fill all fields")
    ensures fullName != "" && email != "" && '@' !in email ==> alert == Some("Please enter a valid email address")
    ensures fullName != "" && '@' in email && !agreedToTerms ==> alert == Some("Please agree to terms")
  {
    if fullName == "" || email == "" then Some("Please fill all fields")
    else if '@' !in email then Some("Please enter a valid email address")
    else if !agreedToTerms then Some("Please agree to terms")
    else None
  }

  class CheckoutForm {
    var fullName: string
    var email: string
    var promoCode: string
    var agreedToTerms: bool
    var discount: int
    var promoApplied: bool
    const details: BookingDetails
    var confirmation: Option<Confirmation>

    /** No discount is shown until a promo has been applied. */
    ghost predicate Valid()
      reads this
    {
      !promoApplied ==> discount == 0
    }

    constructor (details: BookingDetails)
      ensures Valid()
      ensures this.details == details
      ensures fullName == "" && email == "" && promoCode == "" && !agreedToTerms
      ensures discount == 0 && !promoApplied && confirmation.None?
    {
      this.details := details;
      fullName, email, promoCode := "", "", "";
      agreedToTerms := false;
      discount, promoApplied := 0, false;
      confirmation := None;
    }

    method EnterFullName(value: string)
      modifies this`fullName
      ensures fullName == value
    {
      fullName := value;
    }

    method EnterEmail(value: string)
      modifies this`email
      ensures email == value
    {
      email := value;
    }

    /** The promo field keeps what was typed, upper-cased. */
    method EnterPromoCode(value: string)
      modifies this`promoCode
      ensures promoCode == ToUpper(value)
      ensures forall i :: 0 <= i < |promoCode| ==> !('a' <= promoCode[i] <= 'z')
    {
      promoCode := ToUpper(value);
    }

    method SetAgreedToTerms(checked: bool)
      modifies this`agreedToTerms
      ensures agreedToTerms == checked
    {
      agreedToTerms := checked;
    }

    /** The total shown: subtotal plus taxes less the applied discount. */
    function DisplayedTotal(): (total: int)
      reads this
    {
      details.subtotal + details.taxes - discount
    }

    /**
     * Pressing "Apply", up to the `await`: the two guards, read from the
     * state the press sees. No alert means the validation request is sent;
     * nothing changes until its reply arrives.
     */
    method PressApply() returns (alert: Option<string>)
      ensures promoCode == "" ==> alert == Some("Please enter a promo code")
      ensures promoCode != "" && promoApplied ==> alert == Some("Promo code already applied")
      ensures alert.None? <==> promoCode != "" && !promoApplied
    {
      if promoCode == "" {
        return Some("Please enter a promo code");
      }
      if promoApplied {
        return Some("Promo code already applied");
      }
      return None;
    }

    /**
     * The rest of the handler, once the reply of a sent request arrives (or
     * the request throws, `reply` None). It does not look at `promoApplied`
     * again: a reply that lands after another applied promo replaces its
     * discount.
     */
    method ReceiveReply(reply: Option<PromoResponse>) returns (alert: Option<string>)
      requires Valid()
      modifies this`discount, this`promoApplied
      ensures Valid()
      ensures ReplyOutcome(reply).Failure? ==> alert == Some(ReplyOutcome(reply).error)
      ensures alert.None? <==> ReplyOutcome(reply).Success?
      ensures alert.None? ==> promoApplied && discount == ReplyOutcome(reply).value
      ensures alert.Some? ==> discount == old(discount) && promoApplied == old(promoApplied)
    {
      if reply.None? {
        return Some("Failed to validate promo code");
      }
      var resp := reply.value;
      if resp.success && resp.data.None? {
        return Some("Failed to validate promo code");
      }
      if resp.success && resp.data.value.valid {
        discount := resp.data.value.discount;
        promoApplied := true;
        return None;
      }
      return Some("Invalid promo code");
    }

    /**
     * The "Apply" button when its reply arrives before anything else happens.
     * `reply` is the validation endpoint's answer for (promoCode, subtotal),
     * or None when the request threw. Only a reply that is both successful
     * and valid applies its discount.
     */
    method ApplyPromo(reply: Option<PromoResponse>) returns (alert: Option<string>)
      requires Valid()
      modifies this`discount, this`promoApplied
      ensures Valid()
      ensures promoCode == "" ==> alert == Some("Please enter a promo code")
      ensures promoCode != "" && old(promoApplied) ==> alert == Some("Promo code already applied")
      ensures promoCode != "" && !old(promoApplied) && ReplyOutcome(reply).Failure? ==> alert == Some(ReplyOutcome(reply).error)
      ensures alert.None? <==> promoCode != "" && !old(promoApplied) && ReplyOutcome(reply).Success?
      ensures alert.None? ==> promoApplied && discount == ReplyOutcome(reply).value
      ensures alert.Some? ==> discount == old(discount) && promoApplied == old(promoApplied)
    {
      alert := PressApply();
      if alert.None? {
        alert := ReceiveReply(reply);
      }
    }

    /** "Pay and Confirm": the confirmation is stored only when every check passes. */
    method PayAndConfirm() returns (alert: Option<string>)
      modifies this`confirmation
      ensures alert == PayCheck(fullName, email, agreedToTerms)
      ensures alert.None? ==> confirmation == Some(Confirmation(details, fullName, email))
      ensures alert.Some? ==> confirmation == old(confirmation)
    {
      if fullName == "" || email == "" {
        return Some("Please fill all fields");
      }
      if '@' !in email {
        return Some("Please enter a valid email address");
      }
      if !agreedToTerms {
        return Some("Please agree to terms");
      }
      confirmation := Some(Confirmation(details, fullName, email));
      return None;
    }
  }

  /**
   * Applying a code to a subtotal of price × quantity with the taxes the
   * backend would charge. On a non-zero subtotal the checkout's total equals
   * the backend's booking total for that code, whether the code is accepted
   * or not. On a zero subtotal the endpoint refuses the request, so the
   * checkout shows 0 while a FLAT100 booking totals -100.
   */
  lemma CheckoutTotalMatchesBooking(code: string, price: int, quantity: int)
    requires code != ""
    ensures var subtotal := price * quantity;
      var outcome := ReplyOutcome(Some(ValidatePromo(Some(code), Some(subtotal))));
      var shown := subtotal + Taxes(subtotal) - (if outcome.Success? then outcome.value else 0);
      && (subtotal != 0 ==>
            (outcome.Success? <==> Discount(code, subtotal) != 0)
            && shown == PriceBooking(price, quantity, Some(code)).total)
      && (subtotal == 0 ==>
            outcome.Failure? && shown == 0
            && PriceBooking(price, quantity, Some(code)).total == -Discount(code, 0))
      && (subtotal == 0 && ToUpper(code) == "FLAT100" ==> PriceBooking(price, quantity, Some(code)).total == -100)
  {
  }

  /**
   * The form itself: type a code, press "Apply" with the endpoint's answer
   * for the form's code and subtotal; the total the form then shows is the
   * total the backend stores for a booking with that code, except on a zero
   * subtotal, where the form shows 0.
   */
  method ApplyPromoShowsBookingTotal(code: string, price: int, quantity: int) returns (shown: int)
    requires code != ""
    ensures price * quantity != 0 ==> shown == PriceBooking(price, quantity, Some(code)).total
    ensures price * quantity == 0 ==> shown == 0
  {
    var subtotal := price * quantity;
    var form := new CheckoutForm(BookingDetails("", "", "", quantity, subtotal, Taxes(subtotal), subtotal + Taxes(subtotal)));
    form.EnterPromoCode(code);
    var alert := form.ApplyPromo(Some(ValidatePromo(Some(form.promoCode), Some(subtotal))));
    CheckoutTotalMatchesBooking(form.promoCode, price, quantity);
    DiscountOfUpperCased(code, subtotal);
    shown := form.DisplayedTotal();
  }

  /**
   * Two presses before the first reply arrives: both pass the guards and both
   * requests are sent; the reply that lands last sets the discount.
   */
  method DoublePressScenario(details: BookingDetails, first: PromoResponse, second: PromoResponse)
    returns (firstPress: Option<string>, secondPress: Option<string>, shown: int)
    requires first.success && first.data.Some? && first.data.value.valid
    requires second.success && second.data.Some? && second.data.value.valid
    ensures firstPress.None? && secondPress.None?
    ensures shown == details.subtotal + details.taxes - second.data.value.discount
  {
    var form := new CheckoutForm(details);
    form.EnterPromoCode("save10");
    firstPress := form.PressApply();
    form.EnterPromoCode("first20");
    secondPress := form.PressApply();
    var a := form.ReceiveReply(Some(first));
    var b := form.ReceiveReply(Some(second));
    shown := form.DisplayedTotal();
  }

  /** Once a promo is applied, every further "Apply" is refused and changes nothing. */
  method ApplyTwiceScenario(details: BookingDetails, first: PromoResponse, second: PromoResponse)
    returns (alert: Option<string>, shown: int)
    requires first.success && first.data.Some? && first.data.value.valid
    ensures alert == Some("Promo code already applied")
    ensures shown == details.subtotal + details.taxes - first.data.value.discount
  {
    var form := new CheckoutForm(details);
    form.EnterPromoCode("save10");
    var a := form.ApplyPromo(Some(first));
    form.EnterPromoCode("first20");
    alert := form.ApplyPromo(Some(second));
    shown := form.DisplayedTotal();
  }
}

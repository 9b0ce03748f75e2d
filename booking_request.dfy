/**
 * The body of `POST /api/bookings` and the bounds of its validation schema.
 * The library's uuid and email format checks are given as predicates.
 */
module BookingRequests {
  import opened Wrappers

  datatype BookingRequest = BookingRequest(
    slotId: string,
    quantity: int,
    userName: string,
    userEmail: string,
    promoCode: Option<string>)

  /** The schema's fields, in declaration order. */
  datatype Field = SlotIdField | QuantityField | UserNameField | UserEmailField

  const MinQuantity: int := 1
  const MaxQuantity: int := 8
  const MinNameLength: nat := 2

  /** The position of a field in the schema. */
  function FieldIndex(f: Field): (i: nat)
  {
    match f
    case SlotIdField => 0
    case QuantityField => 1
    case UserNameField => 2
    case UserEmailField => 3
  }

  /**
   * The fields whose check fails, in schema order; the request is accepted
   * exactly when there is none.
   */
  function Issues(req: BookingRequest, isUuid: string -> bool, isEmail: string -> bool): (r: seq<Field>)
    ensures SlotIdField in r <==> !isUuid(req.slotId)
    ensures QuantityField in r <==> !(MinQuantity <= req.quantity <= MaxQuantity)
    ensures UserNameField in r <==> |req.userName| < MinNameLength
    ensures UserEmailField in r <==> !isEmail(req.userEmail)
    ensures |r| <= 4
    ensures r == [] <==> Accepted(req, isUuid, isEmail)
  {
    (if isUuid(req.slotId) then [] else [SlotIdField])
    + (if MinQuantity <= req.quantity <= MaxQuantity then [] else [QuantityField])
    + (if |req.userName| >= MinNameLength then [] else [UserNameField])
    + (if isEmail(req.userEmail) then [] else [UserEmailField])
  }

  /** The issues come in the schema's field order, each at most once. */
  lemma IssuesInSchemaOrder(req: BookingRequest, isUuid: string -> bool, isEmail: string -> bool)
    ensures var r := Issues(req, isUuid, isEmail);
      forall i, j :: 0 <= i < j < |r| ==> FieldIndex(r[i]) < FieldIndex(r[j])
  {
    var a := if isUuid(req.slotId) then [] else [SlotIdField];
    var b := if MinQuantity <= req.quantity <= MaxQuantity then [] else [QuantityField];
    var c := if |req.userName| >= MinNameLength then [] else [UserNameField];
    var d := if isEmail(req.userEmail) then [] else [UserEmailField];
    assert Issues(req, isUuid, isEmail) == a + b + c + d;
    Ordered4(a, b, c, d);
  }

  lemma Ordered4(a: seq<Field>, b: seq<Field>, c: seq<Field>, d: seq<Field>)
    requires a == [] || a == [SlotIdField]
    requires b == [] || b == [QuantityField]
    requires c == [] || c == [UserNameField]
    requires d == [] || d == [UserEmailField]
    ensures var r := a + b + c + d;
      forall i, j :: 0 <= i < j < |r| ==> FieldIndex(r[i]) < FieldIndex(r[j])
  {
    var r := a + b + c + d;
    forall i, j | 0 <= i < j < |r|
      ensures FieldIndex(r[i]) < FieldIndex(r[j])
    {
      // every element of each part has the index of its part, which grows from a to d
      assert forall k :: 0 <= k < |r| ==> FieldIndex(r[k]) == (if k < |a| then 0 else if k < |a| + |b| then 1 else if k < |a| + |b| + |c| then 2 else 3);
      assert FieldIndex(r[i]) <= FieldIndex(r[j]);
    }
  }

  /** All four field checks pass. */
  predicate Accepted(req: BookingRequest, isUuid: string -> bool, isEmail: string -> bool)
  {
    && isUuid(req.slotId)
    && MinQuantity <= req.quantity <= MaxQuantity
    && |req.userName| >= MinNameLength
    && isEmail(req.userEmail)
  }
}

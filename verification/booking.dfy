/** `POST /api/bookings/confirmation`: reject the request with 400 unless
    `userName`, `hotelName` and `paymentStatus` are all truthy; otherwise build
    a three-field `BookingConfirmation` and save it, answering 201 when the
    write succeeds and 500 when it fails. A field holding a JSON array, or an
    object without a non-empty string `_id`, passes the check but cannot be
    cast to the schema's `String`, so its save always fails; an object with
    such an `_id` is stored as that string. Whether a well-typed write
    succeeds is a parameter: the store is a foreign collaborator. */
module Booking {

  /** A field of the parsed JSON request body, as JavaScript sees it.
      `Absent` is a field the body does not have (`undefined`); `Composite`
      is a JSON object or array, of whose contents only `stringId` matters:
      the object's `_id` when that is a string, and `""` otherwise (always
      `""` for an array). */
  datatype Value = Absent | Null | Bool(b: bool) | Number(n: int) | Text(s: string) | Composite(stringId: string)

  /** JavaScript truthiness: `undefined`, `null`, `false`, `0` and `""` are
      falsy, everything else is truthy. */
  predicate Truthy(v: Value) {
    match v
    case Absent => false
    case Null => false
    case Bool(b) => b
    case Number(n) => n != 0
    case Text(s) => s != ""
    case Composite(_) => true
  }

  /** The schema declares the three fields `String`. Mongoose's cast (its
      source is not part of this model) converts numbers and booleans, takes
      an object's `_id` when that is a non-empty string, and rejects every
      other object and every array, which makes the save fail. */
  predicate CastsToString(v: Value) {
    !v.Composite? || v.stringId != ""
  }

  /** The value stored for a castable field: an object is replaced by its
      `_id`; every other value is kept as given. */
  function Cast(v: Value): (c: Value)
    requires CastsToString(v)
    ensures !c.Composite?
    ensures Truthy(v) ==> Truthy(c)
    ensures !v.Composite? ==> c == v
  {
    if v.Composite? then Text(v.stringId) else v
  }

  datatype ConfirmationRequest = ConfirmationRequest(userName: Value, hotelName: Value, paymentStatus: Value)

  /** The document saved in the `BookingConfirmation` collection. */
  datatype BookingConfirmation = BookingConfirmation(userName: Value, hotelName: Value, paymentStatus: Value)

  const MissingFieldsMessage: string := "Missing required fields"
  const SavedMessage: string := "Booking confirmation saved successfully"
  const SaveFailedMessage: string := "Failed to save booking confirmation"

  datatype Reply =
    | Created(message: string, record: BookingConfirmation)
    | BadRequest(message: string)
    | ServerError(message: string)
  {
    function Status(): nat {
      match this
      case Created(_, _) => 201
      case BadRequest(_) => 400
      case ServerError(_) => 500
    }
  }

  /** The reply sent and the collection's contents afterwards. */
  datatype Handled = Handled(reply: Reply, saved: seq<BookingConfirmation>)

  predicate HasRequiredFields(req: ConfirmationRequest) {
    Truthy(req.userName) && Truthy(req.hotelName) && Truthy(req.paymentStatus)
  }

  predicate Storable(req: ConfirmationRequest) {
    CastsToString(req.userName) && CastsToString(req.hotelName) && CastsToString(req.paymentStatus)
  }

  /** The handler, run against a collection holding `saved`; `writeSucceeds`
      is whether the store accepts a write of well-typed fields. */
  function PostConfirmation(saved: seq<BookingConfirmation>, req: ConfirmationRequest, writeSucceeds: bool): (h: Handled)
    ensures h.reply.Status() == 400 <==> !HasRequiredFields(req)
    ensures h.reply.Status() == 400 ==> h.reply.message == MissingFieldsMessage && h.saved == saved
    ensures h.reply.Status() == 201 <==> HasRequiredFields(req) && Storable(req) && writeSucceeds
    ensures h.reply.Status() == 500 <==> HasRequiredFields(req) && (!Storable(req) || !writeSucceeds)
    ensures h.reply.Status() == 201 ==>
              && h.reply.message == SavedMessage
              && h.saved == saved + [h.reply.record]
              && Storable(req)
              && h.reply.record.userName == Cast(req.userName)
              && h.reply.record.hotelName == Cast(req.hotelName)
              && h.reply.record.paymentStatus == Cast(req.paymentStatus)
    ensures h.reply.Status() == 500 ==> h.reply.message == SaveFailedMessage && h.saved == saved
  {
    if !Truthy(req.userName) || !Truthy(req.hotelName) || !Truthy(req.paymentStatus) then
      Handled(BadRequest(MissingFieldsMessage), saved)
    else
      if CastsToString(req.userName) && CastsToString(req.hotelName) && CastsToString(req.paymentStatus)
         && writeSucceeds
      then
        var record := BookingConfirmation(Cast(req.userName), Cast(req.hotelName), Cast(req.paymentStatus));
        Handled(Created(SavedMessage, record), saved + [record])
      else
        Handled(ServerError(SaveFailedMessage), saved)
  }

  /** A stored record with every required field truthy and none an object
      or array. */
  predicate IsComplete(c: BookingConfirmation) {
    && Truthy(c.userName) && Truthy(c.hotelName) && Truthy(c.paymentStatus)
    && !c.userName.Composite? && !c.hotelName.Composite? && !c.paymentStatus.Composite?
  }

  /** The handler keeps the collection append-only and complete: earlier
      records are untouched, at most one record is added, and the added
      record is the request's three fields as cast, all truthy and none an
      object or array. */
  lemma {:induction false} ConfirmationsStayComplete(saved: seq<BookingConfirmation>, req: ConfirmationRequest, writeSucceeds: bool)
    requires forall i :: 0 <= i < |saved| ==> IsComplete(saved[i])
    ensures var h := PostConfirmation(saved, req, writeSucceeds);
            && saved <= h.saved
            && |h.saved| <= |saved| + 1
            && (forall i :: 0 <= i < |h.saved| ==> IsComplete(h.saved[i]))
            && (|h.saved| > |saved| ==>
                  && Storable(req)
                  && h.saved[|saved|] == BookingConfirmation(Cast(req.userName), Cast(req.hotelName), Cast(req.paymentStatus)))
  {
    var h := PostConfirmation(saved, req, writeSucceeds);
    if h.reply.Status() == 201 {
      assert h.saved[|saved|] == h.reply.record;
    }
  }

  /** A `userName` sent as the JSON object `{}` is truthy and passes the
      check, but the save is rejected: the reply is 500 and nothing is
      stored, even when the store would accept a well-typed write. */
  lemma ScenarioObjectFieldFailsSave(saved: seq<BookingConfirmation>)
    ensures PostConfirmation(saved, ConfirmationRequest(Composite(""), Text("Grand"), Text("paid")), true)
            == Handled(ServerError(SaveFailedMessage), saved)
  {
  }

  /** A `userName` sent as `{"_id": "ann"}` is cast to its `_id`: the reply is
      201 and the stored record holds `"ann"`. */
  lemma ScenarioObjectWithIdSaved(saved: seq<BookingConfirmation>)
    ensures var record := BookingConfirmation(Text("ann"), Text("Grand"), Text("paid"));
            PostConfirmation(saved, ConfirmationRequest(Composite("ann"), Text("Grand"), Text("paid")), true)
            == Handled(Created(SavedMessage, record), saved + [record])
  {
  }
}

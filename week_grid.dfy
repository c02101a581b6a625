/** The seven day cells of one week (src/components/calendar/WeekGrid.tsx):
    which cards a cell renders, its loading and empty states, the single
    highlighted drop target, and the decoding of a dropped card's payload. */
module WeekGrid {
  import opened Wrappers
  import opened Entities
  import opened Json
  import opened Dates
  import opened BookingCard

  /** One rendered card: a booking and the endpoint it stands for. */
  datatype Card = Card(booking: Booking, endpoint: Endpoint)

  /** The cards of one listed booking in a cell for `day`: a pickup card when
      the booking starts on that calendar day, then a return card when it ends
      on it. */
  function CardsOf(day: int, b: Booking): (cards: seq<Card>)
    ensures Card(b, Pickup) in cards <==> SameDay(b.startDate, day)
    ensures Card(b, Return) in cards <==> SameDay(b.endDate, day)
    ensures forall c :: c in cards ==> c.booking == b
  {
    (if SameDay(b.startDate, day) then [Card(b, Pickup)] else [])
    + (if SameDay(b.endDate, day) then [Card(b, Return)] else [])
  }

  /** The cards of a cell, booking by booking in the order listed. */
  function CardsFor(day: int, bs: seq<Booking>): (cards: seq<Card>)
    ensures forall b :: Card(b, Pickup) in cards <==> b in bs && SameDay(b.startDate, day)
    ensures forall b :: Card(b, Return) in cards <==> b in bs && SameDay(b.endDate, day)
    ensures forall c :: c in cards ==> c.booking in bs && SameDay(ShownDate(c.booking, c.endpoint), day)
  {
    if bs == [] then [] else CardsOf(day, bs[0]) + CardsFor(day, bs[1..])
  }

  /** A card belongs in the cell for `day`: the date it shows falls on that day. */
  predicate ShowsOn(c: Card, day: int) {
    SameDay(ShownDate(c.booking, c.endpoint), day)
  }

  /** A listed booking yields each of its cards for the day once. */
  lemma CardsOfCounts(day: int, b: Booking)
    ensures forall c :: multiset(CardsOf(day, b))[c] == if c.booking == b && ShowsOn(c, day) then 1 else 0
  {
  }

  /** Every card of the day appears once per listing of its booking. */
  lemma {:induction false} CardsForCounts(day: int, bs: seq<Booking>)
    ensures forall c :: multiset(CardsFor(day, bs))[c] == if ShowsOn(c, day) then multiset(bs)[c.booking] else 0
  {
    if bs != [] {
      CardsOfCounts(day, bs[0]);
      CardsForCounts(day, bs[1..]);
      assert bs == [bs[0]] + bs[1..];
    }
  }

  /** What one day cell shows. */
  datatype CellView = CellView(
    isToday: bool,
    spinner: bool,
    cards: seq<Card>,
    noBookings: bool)

  /** A cell for `day`, given the bookings the lookup returned for it; `now` is
      the clock reading that decides the "today" styling. The spinner needs a
      station, the cards only need loading to be over, and "No bookings"
      needs both. */
  function Cell(day: int, dayBookings: seq<Booking>, isLoading: bool, station: Option<Station>, now: int): (v: CellView)
    ensures v.spinner <==> isLoading && station.Some?
    ensures isLoading ==> v.cards == []
    ensures forall b :: Card(b, Pickup) in v.cards <==> !isLoading && b in dayBookings && SameDay(b.startDate, day)
    ensures forall b :: Card(b, Return) in v.cards <==> !isLoading && b in dayBookings && SameDay(b.endDate, day)
    ensures v.noBookings <==> !isLoading && dayBookings == [] && station.Some?
    ensures v.isToday <==> SameDay(day, now)
  {
    CellView(
      SameDay(day, now),
      isLoading && station.Some?,
      if isLoading then [] else CardsFor(day, dayBookings),
      !isLoading && |dayBookings| == 0 && station.Some?)
  }

  /** All cells, one per entry of `weekDays`, each fed by `lookup`. */
  function Cells(weekDays: seq<int>, lookup: int -> seq<Booking>, isLoading: bool, station: Option<Station>, now: int): (cells: seq<CellView>)
    ensures |cells| == |weekDays|
    ensures forall i :: 0 <= i < |weekDays| ==> cells[i] == Cell(weekDays[i], lookup(weekDays[i]), isLoading, station, now)
  {
    seq(|weekDays|, i requires 0 <= i < |weekDays| => Cell(weekDays[i], lookup(weekDays[i]), isLoading, station, now))
  }

  /** A dropped payload, destructured. */
  datatype DropPayload = DropPayload(booking: Booking, endpoint: Endpoint)

  /** What `onRescheduleBooking` is called with. */
  datatype RescheduleRequest = RescheduleRequest(booking: Booking, newDate: int, endpoint: Endpoint)

  function DecodeBooking(j: Json): (r: Option<Booking>)
    ensures r.Some? ==> j.JObject?
    ensures r.Some? ==> GetString(j.members, "id") == Some(r.value.id)
    ensures r.Some? ==> GetString(j.members, "customerName") == Some(r.value.customerName)
    ensures r.Some? ==> GetString(j.members, "pickupReturnStationId") == Some(r.value.pickupReturnStationId)
    ensures r.Some? ==> GetNumber(j.members, "startDate") == Some(r.value.startDate)
    ensures r.Some? ==> GetNumber(j.members, "endDate") == Some(r.value.endDate)
    ensures (j.JObject? && GetString(j.members, "id").Some? && GetString(j.members, "customerName").Some?
             && GetString(j.members, "pickupReturnStationId").Some?
             && GetNumber(j.members, "startDate").Some? && GetNumber(j.members, "endDate").Some?)
      ==> r.Some?
  {
    match j
    case JObject(ms) =>
      (match (GetString(ms, "id"), GetString(ms, "customerName"), GetString(ms, "pickupReturnStationId"),
              GetNumber(ms, "startDate"), GetNumber(ms, "endDate"))
       case (Some(id), Some(name), Some(st), Some(s), Some(e)) => Some(Booking(id, name, st, s, e))
       case _ => None)
    case _ => None
  }

  /** The `type` member, read as `handleRescheduleBooking` reads it: exactly
      "pickup" means the pickup endpoint, anything else the return endpoint. */
  function DecodeEndpoint(t: Option<Json>): (e: Endpoint)
    ensures e == Pickup <==> t == Some(JString(EndpointName(Pickup)))
  {
    if t == Some(JString("pickup")) then Pickup else Return
  }

  /** `JSON.parse(getData('application/json'))` followed by `{ booking, type }`;
      `None` is the caught parse or destructuring failure. */
  function ReadPayload(transfer: map<string, Json>): (r: Option<DropPayload>)
    ensures r.Some? ==> DragFormat in transfer && transfer[DragFormat].JObject?
    ensures r.Some? ==> var booking := Get(transfer[DragFormat].members, "booking");
      booking.Some? && DecodeBooking(booking.value) == Some(r.value.booking)
    ensures r.Some? ==> r.value.endpoint == DecodeEndpoint(Get(transfer[DragFormat].members, "type"))
    ensures DragFormat in transfer && transfer[DragFormat].JObject? ==>
      var ms := transfer[DragFormat].members;
      Get(ms, "booking").Some? && DecodeBooking(Get(ms, "booking").value).Some? ==>
        r == Some(DropPayload(DecodeBooking(Get(ms, "booking").value).value, DecodeEndpoint(Get(ms, "type"))))
  {
    if DragFormat !in transfer then None
    else match transfer[DragFormat]
      case JObject(ms) =>
        (match Get(ms, "booking")
         case Some(bj) =>
           (match DecodeBooking(bj)
            case Some(b) => Some(DropPayload(b, DecodeEndpoint(Get(ms, "type"))))
            case None => None)
         case None => None)
      case _ => None
  }

  /** The name a card writes for an endpoint is read back as that endpoint. */
  lemma DecodeEndpointName(e: Endpoint)
    ensures DecodeEndpoint(Some(JString(EndpointName(e)))) == e
  {
    if e == Return {
      assert EndpointName(Return) != EndpointName(Pickup);
    }
  }

  /** The booking a card encodes decodes back to itself. */
  lemma DecodeEncodedBooking(b: Booking)
    ensures DecodeBooking(EncodeBooking(b)) == Some(b)
  {
    var ms := EncodeBooking(b).members;
    GetUnique(ms, 0, "id");
    GetUnique(ms, 1, "customerName");
    GetUnique(ms, 2, "pickupReturnStationId");
    GetUnique(ms, 3, "startDate");
    GetUnique(ms, 4, "endDate");
    assert GetString(ms, "id") == Some(b.id);
    assert GetString(ms, "customerName") == Some(b.customerName);
    assert GetString(ms, "pickupReturnStationId") == Some(b.pickupReturnStationId);
    assert GetNumber(ms, "startDate") == Some(b.startDate);
    assert GetNumber(ms, "endDate") == Some(b.endDate);
  }

  /** What a card's drag start writes, a drop reads back: the same booking and
      the same endpoint, whether or not the card had an `onDragStart`. */
  lemma PayloadRoundTrip(b: Booking, e: Endpoint, hasOnDragStart: bool)
    ensures ReadPayload(DragStart(b, e, hasOnDragStart).transfer) == Some(DropPayload(b, e))
  {
    var ms := EncodePayload(b, e).members;
    assert Get(ms, "booking") == Some(EncodeBooking(b));
    assert Get(ms, "type") == Some(JString(EndpointName(e)));
    DecodeEncodedBooking(b);
  }

  /** The drag-and-drop state of the grid: the index of the cell currently
      under a drag, if any. */
  class DropTarget {
    var draggedOver: Option<int>

    constructor ()
      ensures draggedOver == None
    {
      draggedOver := None;
    }

    predicate IsDraggedOver(index: int)
      reads this
    {
      draggedOver == Some(index)
    }

    /** `handleDragOver(e, dayIndex)`. */
    method DragOver(dayIndex: int)
      modifies this
      ensures draggedOver == Some(dayIndex)
      ensures forall j :: IsDraggedOver(j) <==> j == dayIndex
    {
      draggedOver := Some(dayIndex);
    }

    /** `handleDragLeave()`. */
    method DragLeave()
      modifies this
      ensures draggedOver == None
      ensures forall j :: !IsDraggedOver(j)
    {
      draggedOver := None;
    }

    /** `handleDrop(e, targetDate)`: clear the highlight, then call back with
        the payload's booking and type and the cell's date; a payload that
        does not decode makes no call. */
    method Drop(transfer: map<string, Json>, targetDate: int) returns (call: Option<RescheduleRequest>)
      modifies this
      ensures draggedOver == None
      ensures call.Some? <==> ReadPayload(transfer).Some?
      ensures call.Some? ==> call.value == RescheduleRequest(ReadPayload(transfer).value.booking, targetDate, ReadPayload(transfer).value.endpoint)
    {
      draggedOver := None;
      match ReadPayload(transfer)
      case Some(p) => call := Some(RescheduleRequest(p.booking, targetDate, p.endpoint));
      case None => call := None;
    }
  }

  /** A card dragged onto a cell and dropped there asks for exactly that
      booking's endpoint to move to the cell's date, and leaves no cell
      highlighted. */
  method DragOntoCell(b: Booking, e: Endpoint, cellIndex: int, cellDate: int) returns (call: Option<RescheduleRequest>, highlightedAfter: bool)
    ensures call == Some(RescheduleRequest(b, cellDate, e))
    ensures !highlightedAfter
  {
    var grid := new DropTarget();
    var started := DragStart(b, e, true);
    grid.DragOver(cellIndex);
    call := grid.Drop(started.transfer, cellDate);
    highlightedAfter := grid.IsDraggedOver(cellIndex);
    PayloadRoundTrip(b, e, true);
  }
}

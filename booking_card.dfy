/** One draggable chip for the pickup or the return endpoint of a booking
    (src/components/calendar/BookingCard.tsx). The card keeps no state: what it
    shows and what it hands out on click and drag start are functions of its
    booking and endpoint. */
module BookingCard {
  import opened Wrappers
  import opened Entities
  import opened Json

  /** The timestamp the card shows: the start for a pickup, the end for a return. */
  function ShownDate(b: Booking, e: Endpoint): int {
    match e
    case Pickup => b.startDate
    case Return => b.endDate
  }

  function Label(e: Endpoint): string {
    match e
    case Pickup => "Pickup"
    case Return => "Return"
  }

  /** The colour classes of `typeColors`, keyed by the endpoint: the
      background class, then the text and border classes. */
  function ColorClass(e: Endpoint): string {
    BackgroundClass(e) + TextAndBorderClasses(e)
  }

  function BackgroundClass(e: Endpoint): string {
    match e
    case Pickup => "bg-green-100"
    case Return => "bg-blue-100"
  }

  function TextAndBorderClasses(e: Endpoint): string {
    match e
    case Pickup => " text-green-800 border-green-200"
    case Return => " text-blue-800 border-blue-200"
  }

  /** `cls` is the first class of the space-separated class list `classes`. */
  predicate LeadingClass(classes: string, cls: string) {
    |cls| <= |classes| && classes[..|cls|] == cls && (|cls| == |classes| || classes[|cls|] == ' ')
  }

  /** What a rendered card shows, with locale formatting of the date left out. */
  datatype CardView = CardView(
    typeLabel: string,
    shownDate: int,
    colorClass: string,
    customerName: string,
    bookingId: string)

  function Render(b: Booking, e: Endpoint): (v: CardView)
    ensures v.shownDate == (if e == Pickup then b.startDate else b.endDate)
    ensures v.typeLabel == (if e == Pickup then "Pickup" else "Return")
    ensures e == Pickup ==> LeadingClass(v.colorClass, "bg-green-100")
    ensures e == Return ==> LeadingClass(v.colorClass, "bg-blue-100")
    ensures v.customerName == b.customerName && v.bookingId == b.id
  {
    ColorLeads(e);
    CardView(Label(e), ShownDate(b, e), ColorClass(e), b.customerName, b.id)
  }

  /** A class followed by a space-separated remainder leads the list. */
  lemma LeadsConcat(cls: string, rest: string)
    requires rest == [] || rest[0] == ' '
    ensures LeadingClass(cls + rest, cls)
  {
    assert (cls + rest)[..|cls|] == cls;
  }

  /** Each colour class list starts with its background class. */
  lemma ColorLeads(e: Endpoint)
    ensures LeadingClass(ColorClass(e), BackgroundClass(e))
  {
    LeadsConcat(BackgroundClass(e), TextAndBorderClasses(e));
  }

  /** The argument `onClick` receives when the card is clicked. */
  function ClickArgument(b: Booking, e: Endpoint): Booking { b }

  /** The drag format under which the payload is stored. */
  const DragFormat: string := "application/json"

  function EndpointName(e: Endpoint): string {
    match e
    case Pickup => "pickup"
    case Return => "return"
  }

  /** The booking as `JSON.stringify` writes it (dates as their timestamps). */
  function EncodeBooking(b: Booking): Json {
    JObject([
      ("id", JString(b.id)),
      ("customerName", JString(b.customerName)),
      ("pickupReturnStationId", JString(b.pickupReturnStationId)),
      ("startDate", JNumber(b.startDate)),
      ("endDate", JNumber(b.endDate))])
  }

  /** The drag payload `{ booking, type }`. */
  function EncodePayload(b: Booking, e: Endpoint): Json {
    JObject([("booking", EncodeBooking(b)), ("type", JString(EndpointName(e)))])
  }

  /** What `handleDragStart` does: it writes the payload into the drag data,
      allows a move, and calls `onDragStart(booking, type)` when that callback
      was given. */
  datatype DragStartEffect = DragStartEffect(
    transfer: map<string, Json>,
    effectAllowed: string,
    notified: Option<(Booking, Endpoint)>)

  function DragStart(b: Booking, e: Endpoint, hasOnDragStart: bool): (r: DragStartEffect)
    ensures r.transfer.Keys == {DragFormat}
    ensures r.transfer[DragFormat] == EncodePayload(b, e)
    ensures r.effectAllowed == "move"
    ensures r.notified.Some? <==> hasOnDragStart
    ensures r.notified.Some? ==> r.notified.value == (b, e)
  {
    DragStartEffect(
      map[DragFormat := EncodePayload(b, e)],
      "move",
      if hasOnDragStart then Some((b, e)) else None)
  }
}

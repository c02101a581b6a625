/** The detail page of one booking (src/components/calendar/BookingDetailView.tsx):
    the fetched-or-fallback details, the loading flag and the duration in days. */
module BookingDetailView {
  import opened Wrappers
  import opened Entities
  import opened Dates

  function Abs(x: int): nat { if x < 0 then -x else x }

  /** `calculateDuration`: `Math.ceil(|end - start| / 86400000)`, in integers. */
  function Duration(startDate: int, endDate: int): (days: nat)
    ensures days * MsPerDay >= Abs(endDate - startDate)
    ensures days > 0 ==> (days - 1) * MsPerDay < Abs(endDate - startDate)
  {
    (Abs(endDate - startDate) + MsPerDay - 1) / MsPerDay
  }

  lemma DurationSymmetric(a: int, b: int)
    ensures Duration(a, b) == Duration(b, a)
  {
    assert Abs(b - a) == Abs(a - b);
  }

  lemma DurationZeroIff(a: int, b: int)
    ensures Duration(a, b) == 0 <==> a == b
  {
  }

  /** Any positive difference of at most one day counts as one day. */
  lemma DurationWithinOneDay(a: int, b: int)
    requires 0 < Abs(b - a) <= MsPerDay
    ensures Duration(a, b) == 1
  {
  }

  /** A longer span never has a shorter duration. */
  lemma DurationMonotone(a: int, b: int, c: int, d: int)
    requires Abs(b - a) <= Abs(d - c)
    ensures Duration(a, b) <= Duration(c, d)
  {
  }

  /** 2025-08-07T10:00Z to 2025-08-09T15:00Z is two days and five hours: 3 days. */
  lemma SampleDuration()
    ensures Duration(1754560800000, 1754751600000) == 3
  {
  }

  /** What the page shows once loading is over. */
  datatype Screen =
    | Spinner
    | Summary(customerName: string, bookingId: string, pickupDate: int, returnDate: int,
              durationDays: nat, stationName: string, stationId: string)

  /** The page state: its props, the fetched details and the loading flag. */
  class BookingDetailView {
    const booking: Booking
    const station: Station
    var bookingDetails: Option<Booking>
    var isLoading: bool

    constructor (booking: Booking, station: Station)
      ensures this.booking == booking && this.station == station
      ensures bookingDetails == None && isLoading
    {
      this.booking := booking;
      this.station := station;
      bookingDetails := None;
      isLoading := true;
    }

    /** The settled `fetchBookingDetails`: the response, or on failure the
        booking passed in; loading ends on both paths. */
    method FetchSettled(response: Fetch<Booking>)
      modifies this
      ensures bookingDetails == Some(match response case Success(d) => d case Failure => booking)
      ensures !isLoading
    {
      match response {
        case Success(d) => bookingDetails := Some(d);
        case Failure => bookingDetails := Some(booking);
      }
      isLoading := false;
    }

    /** `bookingDetails || booking`. */
    function Details(): (d: Booking)
      reads this
      ensures bookingDetails.Some? ==> d == bookingDetails.value
      ensures bookingDetails.None? ==> d == booking
    {
      bookingDetails.GetOr(booking)
    }

    /** The spinner while loading; otherwise the details, with the station
        taken from the props. */
    function View(): (s: Screen)
      reads this
      ensures isLoading <==> s == Spinner
      ensures s.Summary? ==> s.stationName == station.name && s.stationId == station.id
      ensures s.Summary? ==> s.bookingId == Details().id && s.durationDays == Duration(Details().startDate, Details().endDate)
      ensures s.Summary? ==> s.customerName == Details().customerName
      ensures s.Summary? ==> s.pickupDate == Details().startDate && s.returnDate == Details().endDate
    {
      if isLoading then Spinner
      else
        var d := Details();
        Summary(d.customerName, d.id, d.startDate, d.endDate, Duration(d.startDate, d.endDate), station.name, station.id)
    }
  }

  /** A failed fetch shows the booking the page was opened with. */
  method OpenWithFailedFetch(b: Booking, s: Station) returns (before: Screen, after: Screen)
    ensures before == Spinner
    ensures after == Summary(b.customerName, b.id, b.startDate, b.endDate, Duration(b.startDate, b.endDate), s.name, s.id)
  {
    var page := new BookingDetailView(b, s);
    before := page.View();
    page.FetchSettled(Failure);
    after := page.View();
  }

  /** A successful fetch shows the fetched booking, but the station of the props. */
  method OpenWithFetchedDetails(b: Booking, s: Station, fetched: Booking) returns (after: Screen)
    ensures after == Summary(fetched.customerName, fetched.id, fetched.startDate, fetched.endDate,
                             Duration(fetched.startDate, fetched.endDate), s.name, s.id)
  {
    var page := new BookingDetailView(b, s);
    page.FetchSettled(Success(fetched));
    after := page.View();
  }
}

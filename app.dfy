/** The application shell (src/App.jsx): which station and booking are
    selected and which page is shown. */
module App {
  import opened Wrappers
  import opened Entities
  import BookingCard

  /** What the main area renders. */
  datatype Main =
    | SelectStationPrompt
    | WeekCalendar(station: Station)
    | DetailPage(booking: Booking, station: Station)
    | Nothing

  class Shell {
    var selectedStation: Option<Station>
    var selectedBooking: Option<Booking>
    var currentView: View

    /** The detail page is only ever entered with a booking selected. */
    ghost predicate Valid()
      reads this
    {
      currentView == BookingDetail ==> selectedBooking.Some?
    }

    constructor ()
      ensures Valid()
      ensures selectedStation == None && selectedBooking == None && currentView == Calendar
    {
      selectedStation := None;
      selectedBooking := None;
      currentView := Calendar;
    }

    /** `selectHandler(station)`. */
    method SelectStation(station: Station)
      modifies this
      ensures Valid()
      ensures selectedStation == Some(station) && selectedBooking == None && currentView == Calendar
    {
      selectedStation := Some(station);
      selectedBooking := None;
      currentView := Calendar;
    }

    /** `handleBookingClick(booking)`. */
    method BookingClick(booking: Booking)
      modifies this
      ensures Valid()
      ensures selectedBooking == Some(booking) && currentView == BookingDetail
      ensures selectedStation == old(selectedStation)
    {
      selectedBooking := Some(booking);
      currentView := BookingDetail;
    }

    /** `handleBackToCalendar()`. */
    method BackToCalendar()
      modifies this
      ensures Valid()
      ensures selectedBooking == None && currentView == Calendar
      ensures selectedStation == old(selectedStation)
    {
      selectedBooking := None;
      currentView := Calendar;
    }

    /** The conditions of the main area: the calendar page shows the prompt
        without a station and the week view with one; the detail page needs
        both a booking and a station, and shows nothing otherwise. */
    function MainContent(): (m: Main)
      reads this
      ensures m.SelectStationPrompt? <==> currentView == Calendar && selectedStation.None?
      ensures m.WeekCalendar? <==> currentView == Calendar && selectedStation.Some?
      ensures m.DetailPage? <==> currentView == BookingDetail && selectedBooking.Some? && selectedStation.Some?
      ensures m.WeekCalendar? ==> m.station == selectedStation.value
      ensures m.DetailPage? ==> m.booking == selectedBooking.value && m.station == selectedStation.value
    {
      match currentView
      case Calendar =>
        if selectedStation.None? then SelectStationPrompt else WeekCalendar(selectedStation.value)
      case BookingDetail =>
        if selectedBooking.Some? && selectedStation.Some?
        then DetailPage(selectedBooking.value, selectedStation.value)
        else Nothing
    }
  }

  /** The user's actions that reach the shell. */
  datatype Event = StationSelected(station: Station) | BookingClicked(booking: Booking) | BackClicked

  /** Starting from the initial state and handling `events` in order, the
      detail page is never current without a selected booking. */
  method Run(events: seq<Event>) returns (view: View, booking: Option<Booking>, main: Main)
    ensures view == BookingDetail ==> booking.Some?
    ensures main.DetailPage? ==> booking == Some(main.booking)
  {
    var shell := new Shell();
    var k := 0;
    while k < |events|
      invariant 0 <= k <= |events|
      invariant shell.Valid()
    {
      match events[k] {
        case StationSelected(s) => shell.SelectStation(s);
        case BookingClicked(b) => shell.BookingClick(b);
        case BackClicked => shell.BackToCalendar();
      }
      k := k + 1;
    }
    view, booking, main := shell.currentView, shell.selectedBooking, shell.MainContent();
  }

  /** Selecting a new station while a booking's details are open returns to
      the calendar of that station and drops the booking. */
  method SelectWhileOnDetail(first: Station, b: Booking, second: Station) returns (before: Main, after: Main, booking: Option<Booking>)
    ensures before == DetailPage(b, first)
    ensures after == WeekCalendar(second) && booking == None
  {
    var shell := new Shell();
    shell.SelectStation(first);
    shell.BookingClick(b);
    before := shell.MainContent();
    shell.SelectStation(second);
    after, booking := shell.MainContent(), shell.selectedBooking;
  }

  /** Back from the details keeps the station and shows its calendar again. */
  method BackKeepsStation(s: Station, b: Booking) returns (after: Main)
    ensures after == WeekCalendar(s)
  {
    var shell := new Shell();
    shell.SelectStation(s);
    shell.BookingClick(b);
    shell.BackToCalendar();
    after := shell.MainContent();
  }

  /** Before any station is chosen the prompt is shown. */
  method InitialScreen() returns (main: Main)
    ensures main == SelectStationPrompt
  {
    var shell := new Shell();
    main := shell.MainContent();
  }

  /** Clicking a card opens the details of exactly the card's booking, at
      the station already selected. */
  method ClickCardOpensDetail(s: Station, b: Booking, e: Endpoint) returns (main: Main)
    ensures main == DetailPage(b, s)
  {
    var shell := new Shell();
    shell.SelectStation(s);
    shell.BookingClick(BookingCard.ClickArgument(b, e));
    main := shell.MainContent();
  }
}

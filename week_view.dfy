/** The week calendar of one station (src/components/calendar/WeekView.tsx):
    the Sunday-to-Saturday window around an anchor date, week navigation, the
    per-day booking lookup, the local-only reschedule and the month label. */
module WeekView {
  import opened Wrappers
  import opened Entities
  import opened Dates
  import opened Sequences
  import opened BookingCard
  import opened WeekGrid

  /** `new Date('2025-08-07')`: midnight UTC of Thursday, 7 August 2025. */
  const DefaultAnchor: int := 1754524800000

  /** `weekDays`: the Sunday on or before the anchor and the six days after
      it, each carrying the anchor's time of day. */
  function WeekDays(anchor: int): (w: seq<int>)
    ensures |w| == 7
    ensures forall i :: 0 <= i < 6 ==> w[i + 1] == w[i] + MsPerDay
    ensures forall i :: 0 <= i < 7 ==> Weekday(w[i]) == i && TimeOfDay(w[i]) == TimeOfDay(anchor)
    ensures w[Weekday(anchor)] == anchor
  {
    var w := seq(7, i requires 0 <= i < 7 => anchor + (i - Weekday(anchor)) * MsPerDay);
    forall i | 0 <= i < 7
      ensures Weekday(w[i]) == i && TimeOfDay(w[i]) == TimeOfDay(anchor)
    {
      WeekdayShift(anchor, i - Weekday(anchor));
      DayShift(anchor, i - Weekday(anchor));
    }
    w
  }

  /** Every anchor whose calendar day lies in a window gives a window of the
      same calendar days; with the same time of day it is the same window. */
  lemma SameWeekSameWindow(a: int, b: int)
    requires Day(WeekDays(a)[0]) <= Day(b) <= Day(WeekDays(a)[6])
    ensures forall i :: 0 <= i < 7 ==> Day(WeekDays(b)[i]) == Day(WeekDays(a)[i])
    ensures TimeOfDay(a) == TimeOfDay(b) ==> WeekDays(a) == WeekDays(b)
  {
    var wa, wb := WeekDays(a), WeekDays(b);
    var j := Day(b) - Day(wa[0]);
    assert 0 <= j < 7;
    DayShift(wa[0], j);
    assert Day(wa[0] + j * MsPerDay) == Day(b);
    WeekdayShift(wa[0], j);
    assert Weekday(b) == j;
    forall i | 0 <= i < 7
      ensures Day(wb[i]) == Day(wa[i])
    {
      DayShift(wa[0], i);
      DayShift(b, i - j);
      assert wa[i] == wa[0] + i * MsPerDay;
      assert wb[i] == b + (i - j) * MsPerDay;
    }
    if TimeOfDay(a) == TimeOfDay(b) {
      forall i | 0 <= i < 7
        ensures wa[i] == wb[i]
      {
        Split(wa[i]);
        Split(wb[i]);
      }
    }
  }

  /** The default anchor shows Sunday 3 August to Saturday 9 August 2025. */
  lemma DefaultWindow()
    ensures WeekDays(DefaultAnchor)[0] == 1754179200000
    ensures WeekDays(DefaultAnchor)[6] == 1754697600000
    ensures CivilFromDays(Day(WeekDays(DefaultAnchor)[0])) == Civil(2025, 8, 3)
    ensures CivilFromDays(Day(WeekDays(DefaultAnchor)[6])) == Civil(2025, 8, 9)
  {
    var w := WeekDays(DefaultAnchor);
    DivUnique(DefaultAnchor, 20307, 0);
    assert Weekday(DefaultAnchor) == 4;
    assert w[0] == 1754179200000;
    assert w[6] == 1754697600000;
    DivUnique(w[0], 20303, 0);
    DivUnique(w[6], 20309, 0);
    August3of2025();
    August9of2025();
  }

  /** Moving the anchor by `direction` weeks moves every day of the window by
      exactly that many weeks. */
  lemma NavigatedWindow(anchor: int, direction: int)
    ensures forall i :: 0 <= i < 7 ==>
      WeekDays(anchor + direction * 7 * MsPerDay)[i] == WeekDays(anchor)[i] + direction * 7 * MsPerDay
  {
    var moved := anchor + direction * 7 * MsPerDay;
    WeekdayShift(anchor, direction * 7);
    assert (Weekday(anchor) + direction * 7) % 7 == Weekday(anchor);
    forall i | 0 <= i < 7
      ensures WeekDays(moved)[i] == WeekDays(anchor)[i] + direction * 7 * MsPerDay
    {
      assert WeekDays(moved)[i] == moved + (i - Weekday(anchor)) * MsPerDay;
    }
  }

  /** A booking occupies every instant from its start to its end, inclusive. */
  predicate Occupies(b: Booking, t: int) { b.startDate <= t <= b.endDate }

  /** `getBookingsForDay(date)`: the loaded bookings whose range contains the
      timestamp `t`, in their original order. */
  function BookingsForDay(bs: seq<Booking>, t: int): (r: seq<Booking>)
    ensures forall b :: b in r <==> b in bs && Occupies(b, t)
    ensures IsSubsequence(r, bs)
    ensures forall b :: multiset(r)[b] == if Occupies(b, t) then multiset(bs)[b] else 0
    ensures |r| <= |bs|
  {
    if bs == [] then []
    else
      assert bs == [bs[0]] + bs[1..];
      if Occupies(bs[0], t) then [bs[0]] + BookingsForDay(bs[1..], t)
      else BookingsForDay(bs[1..], t)
  }

  /** The booking with one endpoint moved to `newDate`. */
  function MoveEndpoint(b: Booking, e: Endpoint, newDate: int): Booking {
    match e
    case Pickup => b.(startDate := newDate)
    case Return => b.(endDate := newDate)
  }

  /** `bookings.map(...)` of `handleRescheduleBooking`: every booking whose id
      is `id` gets the chosen endpoint moved; no check keeps start before end. */
  function Reschedule(bs: seq<Booking>, id: string, newDate: int, e: Endpoint): (r: seq<Booking>)
    ensures |r| == |bs|
    ensures forall i :: 0 <= i < |bs| && bs[i].id != id ==> r[i] == bs[i]
    ensures forall i :: 0 <= i < |bs| && bs[i].id == id ==>
      && r[i].id == bs[i].id
      && r[i].customerName == bs[i].customerName
      && r[i].pickupReturnStationId == bs[i].pickupReturnStationId
      && r[i].startDate == (if e == Pickup then newDate else bs[i].startDate)
      && r[i].endDate == (if e == Return then newDate else bs[i].endDate)
  {
    if bs == [] then []
    else [if bs[0].id == id then MoveEndpoint(bs[0], e, newDate) else bs[0]] + Reschedule(bs[1..], id, newDate, e)
  }

  /** Rescheduling an unknown id changes nothing. */
  lemma RescheduleUnknownId(bs: seq<Booking>, id: string, newDate: int, e: Endpoint)
    requires forall b :: b in bs ==> b.id != id
    ensures Reschedule(bs, id, newDate, e) == bs
  {
    var r := Reschedule(bs, id, newDate, e);
    assert forall i :: 0 <= i < |bs| ==> r[i] == bs[i];
  }

  /** A reschedule is never refused, even when it puts the return before the
      pickup. */
  lemma RescheduleMayInvertRange(b: Booking)
    requires b.startDate > 0
    ensures var r := Reschedule([b], b.id, 0, Return)[0]; r.endDate < r.startDate
  {
  }

  /** The header label of `formatWeekRange`: one month with the year when
      the window's first and last day share a month number, otherwise both
      months with the last day's year (locale formatting left out). */
  datatype WeekLabel = SingleMonth(month: int, year: int) | MonthSpan(startMonth: int, endMonth: int, endYear: int)

  function WeekRangeLabel(anchor: int): (l: WeekLabel)
    ensures l.SingleMonth? <==> Month(WeekDays(anchor)[0]) == Month(WeekDays(anchor)[6])
    ensures l.SingleMonth? ==> l.month == Month(WeekDays(anchor)[0]) && l.year == Year(WeekDays(anchor)[0])
    ensures l.MonthSpan? ==> l.startMonth == Month(WeekDays(anchor)[0]) && l.endMonth == Month(WeekDays(anchor)[6])
    ensures l.MonthSpan? ==> l.endYear == Year(WeekDays(anchor)[6])
  {
    var w := WeekDays(anchor);
    if Month(w[0]) == Month(w[6]) then SingleMonth(Month(w[0]), Year(w[0]))
    else MonthSpan(Month(w[0]), Month(w[6]), Year(w[6]))
  }

  /** The label depends only on the week: every anchor whose day lies in the
      window of `a` gets the label of `a`. */
  lemma SameWeekSameLabel(a: int, b: int)
    requires Day(WeekDays(a)[0]) <= Day(b) <= Day(WeekDays(a)[6])
    ensures WeekRangeLabel(a) == WeekRangeLabel(b)
  {
    SameWeekSameWindow(a, b);
    assert Day(WeekDays(b)[0]) == Day(WeekDays(a)[0]);
    assert Day(WeekDays(b)[6]) == Day(WeekDays(a)[6]);
  }

  lemma DefaultWeekLabel()
    ensures WeekRangeLabel(DefaultAnchor) == SingleMonth(8, 2025)
  {
    DefaultWindow();
  }

  /** 31 July 2025 is a Thursday; its week runs from 27 July to 2 August. */
  lemma MonthSpanningLabel()
    ensures WeekRangeLabel(1753920000000) == MonthSpan(7, 8, 2025)
  {
    var w := WeekDays(1753920000000);
    DivUnique(1753920000000, 20300, 0);
    assert Weekday(1753920000000) == 4;
    assert w[0] == 1753574400000;
    assert w[6] == 1754092800000;
    DivUnique(w[0], 20296, 0);
    DivUnique(w[6], 20302, 0);
    July27of2025();
    August2of2025();
  }

  /** The calendar state of `WeekView`: the anchor date, the loaded bookings
      and the loading flag, with the selected station it was given. */
  class WeekView {
    var station: Option<Station>
    var currentWeek: int
    var bookings: seq<Booking>
    var isLoading: bool

    constructor (station: Option<Station>)
      ensures this.station == station
      ensures currentWeek == DefaultAnchor && bookings == [] && !isLoading
    {
      this.station := station;
      currentWeek := DefaultAnchor;
      bookings := [];
      isLoading := false;
    }

    /** `navigateWeek(direction)`: `direction` weeks later (earlier when negative). */
    method NavigateWeek(direction: int)
      modifies this`currentWeek
      ensures currentWeek == old(currentWeek) + direction * 7 * MsPerDay
    {
      currentWeek := currentWeek + direction * 7 * MsPerDay;
    }

    /** The start of `fetchBookings`: without a station nothing happens;
        otherwise loading begins and a request goes out. */
    method BeginFetch() returns (requested: bool)
      modifies this`isLoading
      ensures requested <==> station.Some?
      ensures isLoading == (requested || old(isLoading))
    {
      requested := station.Some?;
      if requested {
        isLoading := true;
      }
    }

    /** The end of `fetchBookings`: the response replaces the bookings, a
        failure empties them, and loading ends either way. */
    method CompleteFetch(response: Fetch<seq<Booking>>)
      modifies this`bookings, this`isLoading
      ensures bookings == (match response case Success(data) => data case Failure => [])
      ensures !isLoading
    {
      match response {
        case Success(data) => bookings := data;
        case Failure => bookings := [];
      }
      isLoading := false;
    }

    /** `handleRescheduleBooking(booking, newDate, type)`, in local state only. */
    method RescheduleBooking(booking: Booking, newDate: int, e: Endpoint)
      modifies this`bookings
      ensures bookings == Reschedule(old(bookings), booking.id, newDate, e)
    {
      bookings := Reschedule(bookings, booking.id, newDate, e);
    }

    /** The cells handed to `WeekGrid` at clock reading `now`. */
    function Grid(now: int): (cells: seq<CellView>)
      reads this
      ensures |cells| == 7
      ensures forall i :: 0 <= i < 7 ==>
        cells[i] == Cell(WeekDays(currentWeek)[i], BookingsForDay(bookings, WeekDays(currentWeek)[i]), isLoading, station, now)
    {
      WeekCells(currentWeek, bookings, isLoading, station, now)
    }
  }

  /** The cells of a window fed by `getBookingsForDay` over `bs`. */
  function WeekCells(anchor: int, bs: seq<Booking>, isLoading: bool, station: Option<Station>, now: int): (cells: seq<CellView>)
    ensures |cells| == 7
    ensures forall i :: 0 <= i < 7 ==>
      cells[i] == Cell(WeekDays(anchor)[i], BookingsForDay(bs, WeekDays(anchor)[i]), isLoading, station, now)
  {
    Cells(WeekDays(anchor), t => BookingsForDay(bs, t), isLoading, station, now)
  }

  /** A pickup card for `b` is in cell `i` exactly when loading is over, the
      booking occupies the cell's timestamp and starts on the cell's calendar
      day; a return card likewise with the end. The timestamp test comes from
      the lookup, the calendar-day test from the cell. */
  lemma CardsShownIff(anchor: int, bs: seq<Booking>, isLoading: bool, station: Option<Station>, now: int, i: int, b: Booking)
    requires 0 <= i < 7
    ensures var cell, day := WeekCells(anchor, bs, isLoading, station, now)[i], WeekDays(anchor)[i];
      && (Card(b, Pickup) in cell.cards <==> !isLoading && b in bs && Occupies(b, day) && SameDay(b.startDate, day))
      && (Card(b, Return) in cell.cards <==> !isLoading && b in bs && Occupies(b, day) && SameDay(b.endDate, day))
  {
    var day := WeekDays(anchor)[i];
    var cell := WeekCells(anchor, bs, isLoading, station, now)[i];
    assert cell == Cell(day, BookingsForDay(bs, day), isLoading, station, now);
  }

  /** With a midnight anchor (as the default one and every week navigated to
      from it), a pickup card appears only for a booking that starts exactly
      at midnight of that day; a later start on the same day is not listed. */
  lemma MidnightWindowHidesLaterPickups(anchor: int, bs: seq<Booking>, isLoading: bool, station: Option<Station>, now: int, i: int, b: Booking)
    requires 0 <= i < 7 && TimeOfDay(anchor) == 0
    ensures Card(b, Pickup) in WeekCells(anchor, bs, isLoading, station, now)[i].cards ==> b.startDate == WeekDays(anchor)[i]
  {
    var day := WeekDays(anchor)[i];
    CardsShownIff(anchor, bs, isLoading, station, now, i, b);
    if Card(b, Pickup) in WeekCells(anchor, bs, isLoading, station, now)[i].cards {
      Split(day);
      Split(b.startDate);
    }
  }

  /** The booking 2025-08-07T10:00Z to 2025-08-09T15:00Z. */
  const SampleBooking: Booking := Booking("1", "John Doe", "station-1", 1754560800000, 1754751600000)

  /** In the default week the sample booking never gets a pickup card; it is
      listed on 8 August without any card, and its return card is in the
      cell for 9 August. */
  lemma SampleBookingInDefaultWeek(station: Station, now: int)
    ensures var cells := WeekCells(DefaultAnchor, [SampleBooking], false, Some(station), now);
      && (forall i :: 0 <= i < 7 ==> Card(SampleBooking, Pickup) !in cells[i].cards)
      && cells[5].cards == [] && !cells[5].noBookings
      && Card(SampleBooking, Return) in cells[6].cards
  {
    var cells := WeekCells(DefaultAnchor, [SampleBooking], false, Some(station), now);
    DefaultWindow();
    forall i | 0 <= i < 7
      ensures Card(SampleBooking, Pickup) !in cells[i].cards
    {
      MidnightWindowHidesLaterPickups(DefaultAnchor, [SampleBooking], false, Some(station), now, i, SampleBooking);
    }
    var d5 := WeekDays(DefaultAnchor)[5];
    assert d5 == 1754611200000;
    assert BookingsForDay([SampleBooking], d5) == [SampleBooking];
    assert cells[5] == Cell(d5, [SampleBooking], false, Some(station), now);
    assert Day(SampleBooking.startDate) == 20307 && Day(d5) == 20308 && Day(SampleBooking.endDate) == 20309;
    assert CardsOf(d5, SampleBooking) == [];
    assert CardsFor(d5, [SampleBooking]) == CardsOf(d5, SampleBooking) + CardsFor(d5, []);
    CardsShownIff(DefaultAnchor, [SampleBooking], false, Some(station), now, 6, SampleBooking);
  }

  /** From any week the view can reach (`weeks` weeks away from the default
      one), next week followed by previous week comes back to the same anchor
      and the same window. */
  method NextThenPrevious(station: Option<Station>, weeks: int) returns (before: int, after: int, days: seq<int>)
    ensures before == DefaultAnchor + weeks * 7 * MsPerDay
    ensures after == before && days == WeekDays(before)
  {
    var view := new WeekView(station);
    view.NavigateWeek(weeks);
    before := view.currentWeek;
    view.NavigateWeek(1);
    view.NavigateWeek(-1);
    after := view.currentWeek;
    days := WeekDays(after);
  }

  /** Without a station no request is made and nothing is loaded. */
  method LoadWithoutStation() returns (requested: bool, loaded: seq<Booking>, loading: bool)
    ensures !requested && loaded == [] && !loading
  {
    var view := new WeekView(None);
    requested := view.BeginFetch();
    loaded, loading := view.bookings, view.isLoading;
  }

  /** The sample booking moved to 2025-08-12T00:00Z to 2025-08-13T15:00Z, so
      that its pickup falls exactly on a midnight cell and its card is shown. */
  const TuesdayBooking: Booking := SampleBooking.(startDate := 1754956800000, endDate := 1755097200000)

  /** Load that booking, go to the next week (Sunday 10 August 2025), where the
      grid shows its pickup card in the Tuesday cell; drag that card onto the
      week's first cell and drop it there: its start becomes that day's
      midnight and nothing else about it changes. */
  method RescheduleByDragAndDrop(station: Station, now: int) returns (shown: bool, updated: seq<Booking>)
    ensures shown
    ensures updated == [TuesdayBooking.(startDate := 1754784000000)]
  {
    var view := new WeekView(Some(station));
    view.NavigateWeek(1);
    var requested := view.BeginFetch();
    view.CompleteFetch(Success([TuesdayBooking]));
    NavigatedWindow(DefaultAnchor, 1);
    DefaultWindow();
    var cells := view.Grid(now);
    var tuesday := WeekDays(view.currentWeek)[2];
    assert tuesday == TuesdayBooking.startDate;
    Split(tuesday);
    CardsShownIff(view.currentWeek, view.bookings, view.isLoading, view.station, now, 2, TuesdayBooking);
    shown := Card(TuesdayBooking, Pickup) in cells[2].cards;
    var target := WeekDays(view.currentWeek)[0];
    assert target == 1754784000000;
    var grid := new DropTarget();
    var started := DragStart(TuesdayBooking, Pickup, true);
    grid.DragOver(0);
    var call := grid.Drop(started.transfer, target);
    PayloadRoundTrip(TuesdayBooking, Pickup, true);
    if call.Some? {
      view.RescheduleBooking(call.value.booking, call.value.newDate, call.value.endpoint);
    }
    updated := view.bookings;
  }
}

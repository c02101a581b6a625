/** The shared state container (src/context/AppContext.tsx): a record of five
    fields and a reducer over six actions. It is pure: every action yields a
    new record. */
module AppContext {
  import opened Wrappers
  import opened Entities

  datatype AppState = AppState(
    selectedStation: Option<Station>,
    selectedBooking: Option<Booking>,
    currentView: View,
    bookings: seq<Booking>,
    isLoading: bool)

  datatype AppAction =
    | SetSelectedStation(station: Option<Station>)
    | SetSelectedBooking(booking: Option<Booking>)
    | SetCurrentView(view: View)
    | SetBookings(list: seq<Booking>)
    | SetLoading(loading: bool)
    | UpdateBooking(updated: Booking)

  /** `initialState`. */
  function InitialState(): (s: AppState)
    ensures s.selectedStation == None && s.selectedBooking == None && s.currentView == Calendar
    ensures s.bookings == [] && !s.isLoading
  {
    AppState(None, None, Calendar, [], false)
  }

  /** `bookings.map(b => b.id === updated.id ? updated : b)`. */
  function ReplaceById(bs: seq<Booking>, updated: Booking): (r: seq<Booking>)
    ensures |r| == |bs|
    ensures forall i :: 0 <= i < |bs| && bs[i].id == updated.id ==> r[i] == updated
    ensures forall i :: 0 <= i < |bs| && bs[i].id != updated.id ==> r[i] == bs[i]
  {
    if bs == [] then []
    else [if bs[0].id == updated.id then updated else bs[0]] + ReplaceById(bs[1..], updated)
  }

  /** `appReducer`: each field changes only under its own action. */
  function Reduce(state: AppState, action: AppAction): (r: AppState)
    ensures r.selectedStation == (if action.SetSelectedStation? then action.station else state.selectedStation)
    ensures r.selectedBooking == (if action.SetSelectedBooking? then action.booking else state.selectedBooking)
    ensures r.currentView == (if action.SetCurrentView? then action.view else state.currentView)
    ensures r.isLoading == (if action.SetLoading? then action.loading else state.isLoading)
    ensures r.bookings == (match action
                           case SetBookings(list) => list
                           case UpdateBooking(u) => ReplaceById(state.bookings, u)
                           case _ => state.bookings)
  {
    match action
    case SetSelectedStation(s) => state.(selectedStation := s)
    case SetSelectedBooking(b) => state.(selectedBooking := b)
    case SetCurrentView(v) => state.(currentView := v)
    case SetBookings(list) => state.(bookings := list)
    case SetLoading(l) => state.(isLoading := l)
    case UpdateBooking(u) => state.(bookings := ReplaceById(state.bookings, u))
  }

  /** An update whose id matches no booking leaves the whole state as it was. */
  lemma {:induction false} ReplaceAbsentId(bs: seq<Booking>, updated: Booking)
    requires forall b :: b in bs ==> b.id != updated.id
    ensures ReplaceById(bs, updated) == bs
  {
    if bs != [] {
      ReplaceAbsentId(bs[1..], updated);
    }
  }

  lemma UpdateAbsentIdIsNoOp(state: AppState, updated: Booking)
    requires forall b :: b in state.bookings ==> b.id != updated.id
    ensures Reduce(state, UpdateBooking(updated)) == state
  {
    ReplaceAbsentId(state.bookings, updated);
  }

  /** After one update every booking with that id is the update itself, so a
      second update changes nothing more. */
  lemma {:induction false} ReplaceTwice(bs: seq<Booking>, updated: Booking)
    ensures ReplaceById(ReplaceById(bs, updated), updated) == ReplaceById(bs, updated)
  {
    if bs != [] {
      ReplaceTwice(bs[1..], updated);
    }
  }

  /** Dispatching the same action twice is the same as dispatching it once. */
  lemma ReduceIdempotent(state: AppState, action: AppAction)
    ensures Reduce(Reduce(state, action), action) == Reduce(state, action)
  {
    if action.UpdateBooking? {
      ReplaceTwice(state.bookings, action.updated);
    }
  }
}

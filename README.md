# Fleet booking dashboard — a Dafny model of its calendar and UI state

The dashboard lets a station employee search for a rental station, see a
Sunday-to-Saturday week of that station's pickups and returns, drag a booking's
pickup or return card to another day to reschedule it (in local state only),
and open a booking's details. This project models the logic behind those
screens and proves what it promises:

- **Calendar** (`week_view.dfy`, `week_grid.dfy`, `booking_card.dfy`): the 7-day
  window around an anchor date and week navigation; the per-day lookup of bookings
  by inclusive timestamp range; which pickup and return cards a day cell shows,
  with its spinner and "No bookings" rules; the single highlighted drop target;
  the drag payload written by a card and read back by a drop; the reschedule that
  moves exactly one endpoint; the month label of the week.
- **State machines**: the application shell's three handlers and its page
  selection (`app.dfy`); the unused reducer of the shared state container
  (`app_context.dfy`); the search box's selection, input and debounced search
  (`auto_complete_input.dfy`); the loading and fallback of the detail page
  (`booking_detail_view.dfy`).
- **Pure functions**: the case-insensitive station filter, the duration in days,
  the card's date, label and colour.

Dates are integer millisecond timestamps in a fixed zone (UTC), with the day
number, weekday and Gregorian date computed by integer arithmetic (`dates.dfy`).
This makes one consequence of the code exact: the day lookup compares full
timestamps while the cell's pickup test compares calendar days. So a cell, whose
timestamp is midnight for the default week and every week navigated to from it,
shows a pickup card only for a booking that starts exactly at midnight
(`WeekView.MidnightWindowHidesLaterPickups`). The sample booking
2025-08-07T10:00Z → 2025-08-09T15:00Z therefore has no pickup card anywhere in
its week. It is listed without any card on 8 August, and its return card is on
9 August (`WeekView.SampleBookingInDefaultWeek`).

The duration of that booking is 3 days: the code takes the ceiling of
2 days 5 hours (`BookingDetailView.SampleDuration`).

Network responses are parameters: a fetch outcome is `Success(data)` or
`Failure`. The clock reading that marks "today" is the parameter `now`. Callbacks
(`onSelect`, `onRescheduleBooking`, `onClick`, `onDragStart`) are modelled as
the values a method or function returns for the caller to pass on.

Files: `wrappers.dfy` (Option, fetch outcome), `entities.dfy` (Station, Booking,
endpoint, page), `sequences.dfy` (order-preserving subsequence), `json.dfy` (JSON
values), `dates.dfy`, and one file per component.

## Model

| member | source | states |
|---|---|---|
| Dates.Weekday | src/components/calendar/WeekView.tsx:30 | `getDay()` is between 0 (Sunday) and 6 (Saturday) |
| Dates.DayShift | src/components/calendar/WeekView.tsx:34 | moving by k whole days moves the day number by k and keeps the time of day |
| WeekView.WeekDays | src/components/calendar/WeekView.tsx:28-37 | the window has 7 entries, each one day after the previous; entry i has weekday i (Sunday first, Saturday last) and the anchor's time of day; the anchor itself is the entry at its weekday index |
| WeekView.SameWeekSameWindow | src/components/calendar/WeekView.tsx:29-30 | every anchor whose day lies in a window gives a window of the same calendar days, and the identical window when its time of day is the same |
| WeekView.DefaultWindow | src/components/calendar/WeekView.tsx:24-37 | the default anchor 2025-08-07 gives the window Sunday 2025-08-03 to Saturday 2025-08-09 |
| WeekView.NavigatedWindow | src/components/calendar/WeekView.tsx:73-77 | moving the anchor by d weeks moves every window day by exactly 7·d days |
| WeekView.WeekView.NavigateWeek | src/components/calendar/WeekView.tsx:73-77 | the anchor moves by exactly 7·direction days |
| WeekView.NextThenPrevious | src/components/calendar/WeekView.tsx:73-77 | from any week the view can reach, next week followed by previous week restores the anchor and the window |
| WeekView.BookingsForDay | src/components/calendar/WeekView.tsx:64-71 | a booking is returned iff it is loaded and start ≤ t ≤ end, as many times as it is loaded; the result is an order-preserving subsequence of the loaded list |
| WeekView.Reschedule | src/components/calendar/WeekView.tsx:80-100 | same length and order; bookings with another id are unchanged; for the matching id, pickup replaces only the start and return only the end, every other field kept |
| WeekView.RescheduleUnknownId | src/components/calendar/WeekView.tsx:80-81 | a reschedule for an id no booking has changes nothing |
| WeekView.RescheduleMayInvertRange | src/components/calendar/WeekView.tsx:83-87 | a reschedule is never refused, even when the end ends up before the start |
| WeekView.WeekView.RescheduleBooking | src/components/calendar/WeekView.tsx:79-103 | the loaded bookings become their reschedule by the payload booking's id |
| WeekView.WeekView.constructor | src/components/calendar/WeekView.tsx:24-26 | starts at the default anchor with no bookings and not loading |
| WeekView.WeekView.BeginFetch | src/components/calendar/WeekView.tsx:39-48 | a request is made iff a station is selected; only then does loading start |
| WeekView.WeekView.CompleteFetch | src/components/calendar/WeekView.tsx:49-61 | the response replaces the bookings, a failure empties them, and loading ends on both paths |
| WeekView.LoadWithoutStation | src/components/calendar/WeekView.tsx:39-46 | without a station no request is made, no booking is loaded and nothing is loading |
| WeekView.WeekRangeLabel | src/components/calendar/WeekView.tsx:105-114 | the label is a single month, with the first day's year, iff the first and last day of the window share a month; otherwise it spans the first day's month to the last day's, with the last day's year |
| WeekView.SameWeekSameLabel | src/components/calendar/WeekView.tsx:105-114 | every anchor in the same window gets the same label |
| WeekView.DefaultWeekLabel | src/components/calendar/WeekView.tsx:105-114 | the default week (day 0 and day 6 both in August) gets the single-month label August 2025 |
| WeekView.MonthSpanningLabel | src/components/calendar/WeekView.tsx:105-114 | the week 2025-07-27 to 2025-08-02 (different months) gets the two-month label July – August 2025 |
| WeekView.WeekCells | src/components/calendar/WeekGrid.tsx:53-54 | seven cells, cell i built from window day i and the bookings `getBookingsForDay` finds for it |
| WeekView.WeekView.Grid | src/components/calendar/WeekView.tsx:141-148 | the grid gets seven cells, cell i built from window day i of the current anchor and the loaded bookings that occupy it |
| WeekView.CardsShownIff | src/components/calendar/WeekGrid.tsx:53-108 | cell i has a pickup card for b iff loading is over, b is loaded, start ≤ day ≤ end and b starts on that calendar day; a return card likewise with the end |
| WeekView.MidnightWindowHidesLaterPickups | src/components/calendar/WeekView.tsx:69 | with a midnight anchor, a pickup card appears only for a booking starting exactly at that cell's midnight |
| WeekView.SampleBookingInDefaultWeek | src/components/calendar/WeekGrid.tsx:87-108 | the sample booking has no pickup card in its week, is listed without cards on 8 August (so "No bookings" is not shown), and has its return card on 9 August |
| WeekView.RescheduleByDragAndDrop | src/components/calendar/WeekView.tsx:79-103 | a booking from 2025-08-12T00:00Z to 2025-08-13T15:00Z, loaded in the week of 10 August, has its pickup card shown in the Tuesday cell; dragging that card onto the 2025-08-10 cell sets its start to that cell's timestamp and leaves the end and every other field unchanged |
| WeekGrid.CardsOf | src/components/calendar/WeekGrid.tsx:88-108 | a booking gets a pickup card iff it starts on the cell's calendar day and a return card iff it ends on it; both for a same-day booking |
| WeekGrid.CardsFor | src/components/calendar/WeekGrid.tsx:87-111 | the cell's cards are exactly those of the listed bookings, and every card's shown date falls on the cell's day |
| WeekGrid.CardsForCounts | src/components/calendar/WeekGrid.tsx:87-111 | each card whose date falls on the cell's day appears once per listing of its booking, every other card not at all |
| WeekGrid.Cell | src/components/calendar/WeekGrid.tsx:80-117 | the spinner shows iff loading with a station; no cards while loading; "No bookings" iff not loading, nothing listed and a station selected; today styling iff the cell falls on the clock's day |
| WeekGrid.Cells | src/components/calendar/WeekGrid.tsx:53-54 | one cell per window day, each built from that day and the bookings the lookup gives for it |
| WeekGrid.DecodeEndpoint | src/components/calendar/WeekView.tsx:83-87 | the endpoint is pickup iff the `type` is exactly "pickup"; anything else, a missing one included, is return |
| WeekGrid.DecodeEndpointName | src/components/calendar/WeekGrid.tsx:45 | the name a card writes for an endpoint is read back as that endpoint |
| WeekGrid.DecodeBooking | src/components/calendar/WeekGrid.tsx:44-45 | an object decodes to a booking iff it has string members `id`, `customerName`, `pickupReturnStationId` and number members `startDate`, `endDate`, and the booking's fields are those members |
| WeekGrid.ReadPayload | src/components/calendar/WeekGrid.tsx:43-49 | a payload decodes only from an object stored under `application/json`; its booking is the decoding of the `booking` member, so its id is that member's `id`, and its endpoint is the decoding of the `type` member; conversely, an object whose `booking` member decodes always yields that booking and endpoint |
| WeekGrid.DecodeEncodedBooking | src/components/calendar/WeekGrid.tsx:44-45 | a booking as a card serialises it decodes back to the same booking |
| WeekGrid.PayloadRoundTrip | src/components/calendar/WeekGrid.tsx:44-46 | what a card's drag start writes, a drop reads back as the same booking and the same endpoint |
| WeekGrid.DropTarget.constructor | src/components/calendar/WeekGrid.tsx:27 | no cell is highlighted initially |
| WeekGrid.DropTarget.DragOver | src/components/calendar/WeekGrid.tsx:29-33 | after drag-over on cell i, exactly cell i is highlighted |
| WeekGrid.DropTarget.DragLeave | src/components/calendar/WeekGrid.tsx:35-37 | drag-leave clears the highlight |
| WeekGrid.DropTarget.Drop | src/components/calendar/WeekGrid.tsx:39-50 | a drop clears the highlight; a well-formed payload yields one reschedule call with its booking, the cell's date and its type; a malformed one yields none |
| WeekGrid.DragOntoCell | src/components/calendar/WeekGrid.tsx:29-50 | dragging a card onto a cell and dropping it requests exactly that booking's endpoint at the cell's date and leaves nothing highlighted |
| Json.GetFound | src/components/calendar/WeekGrid.tsx:45 | a member is found iff its key occurs, and what is found is a value paired with that key |
| Json.GetUnique | src/components/calendar/WeekGrid.tsx:45 | a key that occurs once is found with exactly its value |
| BookingCard.Render | src/components/calendar/BookingCard.tsx:27-57 | the shown date is the start for pickup and the end for return, the label "Pickup" or "Return" to match, the colour class green for pickup and blue for return, with the booking's customer and id |
| BookingCard.ColorLeads | src/components/calendar/BookingCard.tsx:27-30 | each endpoint's colour class list begins with its background class: green for pickup, blue for return |
| BookingCard.DragStart | src/components/calendar/BookingCard.tsx:32-38 | the drag data holds exactly `{booking, type}` under `application/json`, a move is allowed, and `onDragStart` gets `(booking, type)` iff it was given |
| App.ClickCardOpensDetail | src/components/calendar/BookingCard.tsx:44 | a card click hands over the card's own booking, and the shell opens its details at the selected station |
| BookingDetailView.Duration | src/components/calendar/BookingDetailView.tsx:45-51 | the duration is the least whole number of days covering the absolute difference of the two timestamps |
| BookingDetailView.DurationSymmetric | src/components/calendar/BookingDetailView.tsx:48 | swapping start and end gives the same duration |
| BookingDetailView.DurationZeroIff | src/components/calendar/BookingDetailView.tsx:48-49 | the duration is 0 iff start equals end |
| BookingDetailView.DurationWithinOneDay | src/components/calendar/BookingDetailView.tsx:49 | any positive difference of at most one day gives 1 |
| BookingDetailView.DurationMonotone | src/components/calendar/BookingDetailView.tsx:49 | a larger absolute difference never gives a smaller duration |
| BookingDetailView.SampleDuration | src/components/calendar/BookingDetailView.tsx:45-51 | 2025-08-07T10:00Z to 2025-08-09T15:00Z gives 3 days |
| BookingDetailView.BookingDetailView.constructor | src/components/calendar/BookingDetailView.tsx:24-25 | loading starts true with no fetched details |
| BookingDetailView.BookingDetailView.FetchSettled | src/components/calendar/BookingDetailView.tsx:31-43 | the details become the response, or the prop booking on failure; loading ends on both paths |
| BookingDetailView.BookingDetailView.Details | src/components/calendar/BookingDetailView.tsx:70 | the fetched details when there are any, otherwise the prop booking |
| BookingDetailView.BookingDetailView.View | src/components/calendar/BookingDetailView.tsx:62-131 | the spinner shows iff loading; otherwise the details' id, customer name, pickup and return dates and duration are shown with the prop station's name and id |
| BookingDetailView.OpenWithFailedFetch | src/components/calendar/BookingDetailView.tsx:38-41 | a failed fetch shows the prop booking, after the spinner |
| BookingDetailView.OpenWithFetchedDetails | src/components/calendar/BookingDetailView.tsx:36-37 | a successful fetch shows the fetched booking with the prop station |
| AutoCompleteInput.Lower | src/components/ui/AutoCompleteInput.tsx:29 | lowercasing keeps the length, turns each capital into the letter 32 code points above it and keeps every other character |
| AutoCompleteInput.LowerEqualIff | src/components/ui/AutoCompleteInput.tsx:29 | two strings lowercase to the same string iff they are equal position by position up to letter case |
| AutoCompleteInput.FilterStations | src/components/ui/AutoCompleteInput.tsx:28-30 | a station is kept iff its lowercased name contains the lowercased query; the result keeps the input order |
| AutoCompleteInput.FilterStationsCounts | src/components/ui/AutoCompleteInput.tsx:28-30 | every matching station is kept as many times as it occurs, every other one not at all |
| AutoCompleteInput.FilterIgnoresCase | src/components/ui/AutoCompleteInput.tsx:29 | queries equal up to letter case select the same stations |
| AutoCompleteInput.LowerIdempotent | src/components/ui/AutoCompleteInput.tsx:29 | lowercasing twice is lowercasing once |
| AutoCompleteInput.AbsentPair | src/components/ui/AutoCompleteInput.tsx:29 | a query whose first two letters never stand side by side in a name is not contained in it |
| AutoCompleteInput.FilterCentral | src/components/ui/__tests__/AutoCompleteInput.test.tsx:64-73 | "Central" yields Central Station and South Central Hub, in that order |
| AutoCompleteInput.FilterNorth | src/components/ui/__tests__/AutoCompleteInput.test.tsx:86-91 | "North" yields North Station only, excluding Central Station |
| AutoCompleteInput.AutoCompleteInput.constructor | src/components/ui/AutoCompleteInput.tsx:15-19 | empty query and suggestions, nothing loading, shown or selected |
| AutoCompleteInput.AutoCompleteInput.DropdownVisible | src/components/ui/AutoCompleteInput.tsx:79 | the dropdown shows iff it is switched on and there is at least one suggestion |
| AutoCompleteInput.AutoCompleteInput.QueryChanged | src/components/ui/AutoCompleteInput.tsx:21-45 | a non-empty query starts loading and schedules a search for it; an empty one schedules nothing, empties the suggestions and hides the dropdown, leaving the loading flag as it was |
| AutoCompleteInput.AutoCompleteInput.QueryChangedCorrected | src/components/ui/AutoCompleteInput.tsx:41-44 | as QueryChanged, but an empty query also ends loading, so the spinner shows only while a search is waiting |
| AutoCompleteInput.AutoCompleteInput.Settle | src/components/ui/AutoCompleteInput.tsx:24-37 | success gives the stations matching the captured query and opens the dropdown; failure empties the suggestions; loading ends on both paths |
| AutoCompleteInput.AutoCompleteInput.HandleSelect | src/components/ui/AutoCompleteInput.tsx:47-52 | the query becomes the station's name, the dropdown hides, the station is recorded and exactly it is passed on |
| AutoCompleteInput.AutoCompleteInput.HandleInputChange | src/components/ui/AutoCompleteInput.tsx:54-59 | the query becomes the new text and any selected station is cleared |
| AutoCompleteInput.Search | src/components/ui/AutoCompleteInput.tsx:21-79 | typing and letting the search settle shows exactly the filtered stations on success; failure or an empty query shows nothing; the spinner ends |
| AutoCompleteInput.SelectReopensDropdown | src/components/ui/AutoCompleteInput.tsx:47-52 | selecting reports exactly that station and hides the dropdown; the changed query searches again and reopens it |
| AutoCompleteInput.ClearWhileSearchPending | src/components/ui/AutoCompleteInput.tsx:41-44 | as written, typing a letter and deleting it before the search fires leaves the spinner on with no search waiting |
| AutoCompleteInput.ClearWhileSearchPendingCorrected | src/components/ui/AutoCompleteInput.tsx:41-44 | with the corrected effect the same keystrokes end with no spinner |
| App.Shell.constructor | src/App.jsx:10-12 | no station, no booking, calendar page |
| App.Shell.SelectStation | src/App.jsx:14-18 | sets the station, clears the booking and shows the calendar |
| App.Shell.BookingClick | src/App.jsx:20-23 | sets the booking and the detail page, keeping the station |
| App.Shell.BackToCalendar | src/App.jsx:25-28 | clears the booking and shows the calendar, keeping the station |
| App.Shell.MainContent | src/App.jsx:37-83 | the prompt iff calendar without a station; the week view iff calendar with one; the detail page iff detail with both a booking and a station |
| App.Run | src/App.jsx:10-28 | in every state reached from the initial one, the detail page implies a selected booking |
| App.SelectWhileOnDetail | src/App.jsx:14-18 | the selection handler, called while the detail page is open, shows the new station's calendar and clears the booking |
| App.BackKeepsStation | src/App.jsx:25-28 | back from the details shows the same station's calendar |
| App.InitialScreen | src/App.jsx:39 | before a station is chosen the prompt is shown |
| AppContext.InitialState | src/context/AppContext.tsx:32-38 | no station, no booking, calendar page, no bookings, not loading |
| AppContext.ReplaceById | src/context/AppContext.tsx:55-57 | same length and order; exactly the entries with the payload's id become the payload |
| AppContext.Reduce | src/context/AppContext.tsx:40-62 | each `SET_*` action replaces only its own field; `UPDATE_BOOKING` replaces matching bookings and no other field |
| AppContext.ReplaceAbsentId | src/context/AppContext.tsx:55-57 | replacing an id that no booking has leaves the list unchanged |
| AppContext.UpdateAbsentIdIsNoOp | src/context/AppContext.tsx:52-58 | `UPDATE_BOOKING` with an absent id leaves the whole state unchanged |
| AppContext.ReplaceTwice | src/context/AppContext.tsx:55-57 | replacing twice with the same booking is replacing once |
| AppContext.ReduceIdempotent | src/context/AppContext.tsx:42-58 | dispatching any action twice equals dispatching it once |

## Findings

| source | as written | input that shows it | evidently intended | confidence | as-written member | corrected member |
|---|---|---|---|---|---|---|
| src/components/ui/AutoCompleteInput.tsx:41-44 | the empty-query branch empties the suggestions and hides the dropdown, but it never resets `isLoading`. The cleanup has already cancelled the pending timer, so no search will end loading | type "C", then delete it within 300 ms | the spinner is off whenever no search is waiting | not executed; high | AutoCompleteInput.ClearWhileSearchPending | AutoCompleteInput.AutoCompleteInput.QueryChangedCorrected |

## Left out

- Network calls: every `fetch` and the decoding of its JSON body are left out as I/O. A settled request is a `Success(data)` or `Failure` parameter.
- Stale responses: a response that arrives after the user has moved on still overwrites the state in the source. This race is not modelled.
- Debounce timing: `setTimeout`/`clearTimeout` are reduced to one pending search that a newer query replaces. The timer firing and the fetch settling are one step (`Settle`).
- WeekView.WeekView.BeginFetch: the effect that runs it whenever the station or the anchor changes is left to the caller, as the scenario methods show. A change of the station prop is not an operation of the model: the station is fixed when the view is created.
- Diagnostics: the `console.log`/`console.error` output, including the logged PUT payload with `rescheduledBy` and a clock-stamped `rescheduledAt`, is a side channel and is left out.
- Locale formatting: every `toLocaleDateString` is left out. The week label keeps only its month and year numbers, and cards and the detail page keep the raw timestamp.
- Date representation: ISO-8601 strings and `Date`'s local-time zone are replaced by integer millisecond timestamps in UTC. `Math.ceil` of a floating-point quotient becomes integer ceiling division, which is the same while the difference is exactly representable.
- AutoCompleteInput.Lower: models `toLowerCase` on ASCII letters only.
- WeekGrid.ReadPayload: a dropped booking must carry all five fields to count as well-formed. The source uses only the booking's `id`: it would go on with a partial booking, and a missing booking fails only if bookings are loaded. A `type` other than "pickup" is read as return, as in the source.
- Drag data: `JSON.stringify`/`JSON.parse` text is abstracted to JSON values, and booking dates travel as their timestamps. `dropEffect` is not modelled.
- AppContext.Reduce: the reducer's `default` branch is not modelled, because the action type here is closed and no other action exists.
- BookingDetailView.BookingDetailView.FetchSettled: a response body of JSON `null` is not modelled. Re-fetching when the props change while the page stays mounted is also not modelled; the shell always leaves the page before opening another booking.
- React plumbing: `AppProvider`, `useAppContext`, JSX markup and styling other than the card colour and the cells' today, spinner and empty rules.
- src/components/ui/Header.tsx is not part of this model. It shows the search box only on the calendar page, so in the running application the station handler is reached from the calendar page; the model lets it be called from either page.

/** The two entities the dashboard shows, as values. Dates are integer
    millisecond timestamps (see module Dates). */
module Entities {

  datatype Station = Station(id: string, name: string)

  datatype Booking = Booking(
    id: string,
    customerName: string,
    pickupReturnStationId: string,
    startDate: int,
    endDate: int)

  /** Which endpoint of a booking a card stands for. */
  datatype Endpoint = Pickup | Return

  /** The two pages: `'calendar'` and `'booking-detail'`. */
  datatype View = Calendar | BookingDetail
}

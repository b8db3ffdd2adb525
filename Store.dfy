/** The MongoDB collections the controllers read and write, held in memory. */
module Store {
  import opened Ids
  import BookingModel
  import QueueModel
  import FlightModel
  import PassengerModel
  import UserModel

  /** An error answer: the HTTP status and the `error` (or `message`) text. */
  datatype ApiError = ApiError(status: int, message: string)

  /** One map per collection, keyed by ObjectId. */
  class Database {
    var flights: map<Id, FlightModel.Flight>
    var passengers: map<Id, PassengerModel.Passenger>
    var bookings: map<Id, BookingModel.Booking>
    var queue: map<Id, QueueModel.QueueEntry>
    var users: map<Id, UserModel.User>

    constructor ()
      ensures flights == map[] && passengers == map[] && bookings == map[]
      ensures queue == map[] && users == map[]
    {
      flights := map[];
      passengers := map[];
      bookings := map[];
      queue := map[];
      users := map[];
    }
  }
}

# AeroFlow airport operations — a Dafny model

AeroFlow is an airport operations system. A Node/Express server keeps flights, passengers,
bookings, users and boarding queues in MongoDB collections (through Mongoose schemas) and
serves them over a REST API, guarded by a JWT check (`protect`), router-wide or per route,
and a role check (`authorize`). Browser pages written with jQuery let staff manage flights and gates, sell
seats on a seat map, run a gate's boarding queue, and let travellers search flights, watch the
departures board and look up their bookings.

This project models the core of that system in Dafny and proves properties of the model:

- **Schemas** (`FlightModel`, `PassengerModel`, `UserModel`, `BookingModel`, `QueueModel`):
  the enums, the `required`, `trim`, `uppercase`, `lowercase` and `match` validators and
  setters, the defaults, and the unique indexes as invariants over the collections.
- **Static configuration** (`AircraftTypes`, `GateConfig`): the six aircraft types with
  their capacities, prices and seat layouts, and the four terminals with the gate lists that
  `getAllGates` and `getCompatibleGates` build.
- **Controllers** (`FlightController`, `PassengerController`, `BookingController`,
  `BoardingController`, `AuthController`): each handler is a specification function over the
  collections (the `Store.Database` class holds one `map` per collection), and a method that
  changes the database exactly as that function says. Lemmas then show which invariants each
  handler keeps: unique flight numbers, passports, e-mails and booking references; one seat
  per active booking; capacity; and a booking reference that is well formed.
- **Routers** (`Routing`, `FlightRoutes`, `BookingRoutes`, `PassengerRoutes`,
  `BoardingRoutes`): first-match dispatch of Express, the router-level `protect` that runs before it, and the
  `protect`/`authorize` middleware of each route, with lemmas stating which roles reach each handler.
- **Browser pages** (`FlightsPage`, `GatesPage`, `BookingPage`, `BoardingPage`, `FlightBoard`,
  `FlightSearch`, `MyBookings`): each page's global state is a class whose methods are the
  event handlers and AJAX callbacks. The pure helpers (formatters, filters, the seat grid)
  are functions with lemmas.
- **Shared pieces** (`Wrappers` with `Option`, `Result` and `Ids`; `Text` for the string
  built-ins; `Paging` for skip/limit pagination and order-keeping filters).

Requests, responses, sockets and the DOM are not modelled as such. A handler takes the parsed
request (absent fields are `None`) and returns a `Result` whose error carries the HTTP
status and message. A page handler returns the request it sends, or the cards and texts it
draws. The clock and `Math.random` are parameters.

## Model

| member | source | states |
|---|---|---|
| Paging.Pages | server/controllers/flightController.js:57 | `Math.ceil(total / limit)` is the fewest pages of `limit` items that hold `total` items, and 0 exactly when nothing matched |
| Paging.PageOf | server/controllers/flightController.js:38-48 | one page of a listing holds at most `limit` items, the items right after the `(page - 1) * limit` skipped ones in listing order, and a full `limit` whenever enough items remain |
| Paging.EveryItemOnSomePage | server/controllers/flightController.js:38-57 | every item of a listing appears on a page numbered between 1 and `pages` |
| Paging.PageHolding | server/controllers/passengerController.js:25-37 | an item of a listing is on some page between 1 and `pages` |
| Paging.Filter | server/controllers/flightController.js:45 | a query's matches are exactly the listed items that satisfy its filter, in listing order, with no item repeated |
| Paging.FilterAppend | server/controllers/flightController.js:45 | filtering a listing in two parts is filtering the whole |
| Paging.DistinctCardinality | server/controllers/flightController.js:50 | a listing without repeats has as many items as the set of matching documents that `countDocuments` counts |
| Paging.FilterCountsMatches | server/controllers/flightController.js:45-50 | the filtered listing and `countDocuments` of the same query agree on the number of matches |
| Paging.FilterAgrees | server/controllers/bookingController.js:20-38 | two filters that agree on every listed item select the same items in the same order, so query parameters the filter never reads do not change the listing |
| Paging.FilterKeepsSortedDesc | server/controllers/flightController.js:45-46 | the matches stay in the order of the sort |
| Paging.PageOfKeepsSortedDesc | server/controllers/flightController.js:46-48 | every page of a sorted listing is sorted |
| UserModel.ParseRole | server/models/User.js:22-26 | a role string is accepted exactly when it names one of the four roles |
| UserModel.PasswordNotSelected | server/models/User.js:16-21 | with `select: false` on the password, two users that differ only in the hash look the same to every query |
| BookingModel.ParseSeatClass | server/models/Booking.js:25-29 | a `class` string is accepted exactly when it names economy, business or first |
| BookingModel.ParseStatus | server/models/Booking.js:30-34 | a `status` string is accepted exactly when it names one of the four booking statuses |
| BookingModel.HoldsSeatIffNotCancelled | server/controllers/bookingController.js:161-179 | a booking holds its seat (the `$in` of the seat and capacity checks) exactly when it is not cancelled |
| QueueModel.ParseGroup | server/models/BoardingQueue.js:20-24 | a `boardingGroup` string is accepted exactly when it names one of the five groups |
| QueueModel.ParseQueueStatus | server/models/BoardingQueue.js:29-33 | an entry `status` string is accepted exactly when it names one of the five queue statuses |
| QueueModel.IndexesAreNotUnique | server/models/BoardingQueue.js:47-48 | the two indexes are not unique: the schema accepts a collection with two entries for one booking at the same position of one group |
| QueueModel.ListingRank | server/controllers/boardingController.js:15 | every group has a rank below 5 in the string order of the group names |
| QueueModel.GroupNamesOrderedByRank | server/controllers/boardingController.js:15 | comparing two group names as strings is comparing their ranks: general < group-1 < group-2 < group-3 < priority |
| QueueModel.PriorityListedLast | server/controllers/boardingController.js:15 | a sort on the group name lists priority entries after every other group and general entries before them |
| FlightModel.ParseAircraft | server/models/Flight.js:17-21 | an `aircraft` string is accepted exactly when it names one of the six types of the enum |
| FlightModel.ParseFlightStatus | server/models/Flight.js:46-50 | a flight `status` string is accepted exactly when it names one of the five flight statuses |
| FlightModel.NewFlight | server/models/Flight.js:3-85 | `Flight.create` fails exactly when some path's validator fails, and reports those paths. On success the flight number, origin and destination are upper-cased and trimmed, the aircraft is the parsed type, status and a missing `first` take their defaults, business and economy figures are present, and a `createdAt` sent in the body is stored, the current time otherwise |
| FlightModel.NewFlightIsNormalised | server/models/Flight.js:4-45 | every flight `Flight.create` accepts has non-empty, trimmed (and where required upper-case) flight number, airline, origin and destination, and a trimmed gate |
| FlightModel.TrimIdempotent | server/models/Flight.js:9 | the `trim` setter applied twice is applied once |
| FlightModel.UpperOfTrimmed | server/models/Flight.js:8-9 | upper-casing a trimmed string leaves nothing to trim |
| FlightModel.UpperTrimIdempotent | server/models/Flight.js:8-9 | the `uppercase` and `trim` setters together are idempotent |
| FlightModel.ApplyUpdate | server/controllers/flightController.js:110-113 | the `$set` of an update body overwrites `createdAt` when the body sends one and keeps it otherwise. A sent `capacity` or `price` object replaces the whole sub-document; an unsent one is kept |
| FlightModel.StoredOf | server/models/Flight.js:52-80 | a sent figures object is stored as exactly its own figures: a missing `first` reads back as its default 0, a missing business or economy stays absent |
| FlightModel.SentFiguresForgetOld | server/controllers/flightController.js:110-113 | once a body sends a `capacity` or `price` object, nothing of the stored sub-document survives the update |
| FlightModel.EditFormDropsFirstClass | public/js/flights.js:351-367 | the edit form's `capacity` and `price` objects carry no `first`, so saving it sets first-class capacity and price to 0 on a flight that had first class, and leaves every other field as the rest of the body says |
| FlightModel.EmptyUpdateChangesNothing | server/controllers/flightController.js:110-113 | an empty update body passes the validators and leaves the flight unchanged |
| FlightModel.UpdateKeepsNormalised | server/controllers/flightController.js:110-113 | an update that passes `runValidators` keeps a stored flight's strings non-empty, trimmed and upper-cased as the schema says |
| FlightModel.KeptUpperTrim | server/models/Flight.js:4-10 | a required upper-cased path stays non-empty and normalised under a valid `$set` |
| FlightModel.KeptTrim | server/models/Flight.js:11-15 | a trimmed path stays trimmed, and non-empty when required, under a valid `$set` |
| FlightModel.UpdateIdempotent | server/controllers/flightController.js:110-113 | sending the same update twice has the effect of sending it once |
| PassengerModel.RequiredMsg | server/models/Passenger.js:4-8 | the `required` validator of a path fails, with its message, exactly when the path is missing on create or empty |
| PassengerModel.EmailMsgs | server/models/Passenger.js:9-17 | the e-mail path passes exactly when it is present when required and, if present, matches the pattern; a non-empty value that does not match gets "Please add a valid email" |
| PassengerModel.FieldErrors | server/models/Passenger.js:3-45 | a passenger body has no validator messages exactly when every supplied path is well formed, and a missing name on create reports "Please add passenger name" |
| PassengerModel.NormIdempotent | server/models/Passenger.js:3-27 | the `trim`, `lowercase` and `uppercase` setters are idempotent |
| PassengerModel.NewPassenger | server/models/Passenger.js:3-45 | `Passenger.create` fails exactly when a validator fails, with those messages. On success the passport is stored upper-cased, with the given `userId` and the current `createdAt` |
| PassengerModel.NewPassengerIsValid | server/models/Passenger.js:3-45 | every passenger `Passenger.create` accepts satisfies the schema |
| PassengerModel.MergeKeepsValid | server/controllers/passengerController.js:161-164 | merging well-formed fields into a valid passenger keeps it valid |
| PassengerModel.ApplyFields | server/controllers/passengerController.js:161-164 | `findByIdAndUpdate` with `runValidators` fails exactly when a supplied field is malformed. It writes a supplied `userId` or `createdAt` as sent and keeps them otherwise, and it replaces the passport (upper-cased) only when one is supplied |
| PassengerModel.ApplyFieldsKeepsValid | server/controllers/passengerController.js:161-164 | an accepted update of a valid passenger leaves it valid |
| PassengerModel.EmailAccepted | server/models/Passenger.js:14 | the e-mail pattern accepts dotted and hyphenated words such as `a.b-c@d.io` |
| PassengerModel.EmailDoubleDotRefused | server/models/Passenger.js:14 | the pattern refuses two separators in a row |
| PassengerModel.EmailLastLabelLength | server/models/Passenger.js:14 | the pattern refuses a last label of one or of four characters |
| AircraftTypes.Lookup | server/config/aircraftTypes.js:1-119 | `aircraftTypes[name]` is defined exactly for the six names of the aircraft enum |
| AircraftTypes.AllLayoutsContiguous | server/config/aircraftTypes.js:1-119 | every type's seat rows run from row 1 upwards, each class starting right after the previous one |
| AircraftTypes.NoFirstClassTypes | server/config/aircraftTypes.js:1-119 | capacity, price and layout agree that A320, B737 and B787, and only they, have no first class |
| AircraftTypes.NarrowBodyLayoutsMatchCapacity | server/config/aircraftTypes.js:2-55 | for A320 and B737 each class's layout holds exactly its capacity |
| AircraftTypes.A330EconomyExceedsCapacity | server/config/aircraftTypes.js:22-35 | the A330 economy layout has 238 seats for a capacity of 200 |
| GateConfig.CategoryOf | server/config/gateConfig.js:38-45 | A320 and B737 map to narrow-body, the four other enum types to wide-body, and no type to regional |
| GateConfig.Entries | server/config/gateConfig.js:50-57 | a terminal contributes one entry per gate, in the order of its list, each carrying the terminal's code, name and types |
| GateConfig.GetAllGates | server/config/gateConfig.js:47-60 | the nested loop builds the entries of every gate of every terminal, terminal after terminal |
| GateConfig.GetCompatibleGates | server/config/gateConfig.js:62-81 | an unmapped aircraft type gets every gate, a mapped one the gates of the terminals serving its category |
| GateConfig.CollectGates | server/config/gateConfig.js:49-58 | the two `forEach` loops append the visited terminals' entries in order |
| GateConfig.CompatibleIsFilter | server/config/gateConfig.js:62-81 | the compatible gates are the entries of the full list whose terminal serves the category, in the same order |
| GateConfig.EntriesFilter | server/config/gateConfig.js:69 | a terminal's entries all pass the category test or all fail it |
| GateConfig.GatesOfSnoc | server/config/gateConfig.js:49 | adding a terminal adds its entries at the end |
| GateConfig.CatalogueGates | server/config/gateConfig.js:2-36 | the list for a category is terminal A's part, then B's, C's and D's |
| GateConfig.AllGatesCount | server/config/gateConfig.js:2-36 | the full list has 12 + 10 + 8 + 6 = 36 entries |
| GateConfig.NarrowBodyTerminals | server/config/gateConfig.js:19-34 | narrow-body aircraft get the gates of terminals A, B and D |
| GateConfig.WideBodyTerminals | server/config/gateConfig.js:24-29 | wide-body aircraft get the gates of terminals B and C |
| BookingController.AlphabetIndexInverts | server/controllers/bookingController.js:7 | each of the 36 characters of the reference alphabet is an upper-case letter or a digit at its own position |
| BookingController.ReferenceFrom | server/controllers/bookingController.js:6-13 | a reference has six characters, each from A–Z0–9 |
| BookingController.ReferenceDeterminesDraw | server/controllers/bookingController.js:6-13 | different random draws spell different references: a reference is read back into the draw it came from |
| BookingController.ReferenceIsWellFormed | server/controllers/bookingController.js:6-13 | a generated reference is non-empty and already upper-case, so the schema's `required` and `uppercase` leave it as it is |
| BookingController.GenerateBookingReference | server/controllers/bookingController.js:6-13 | the loop that appends one drawn character six times builds the reference its draw spells |
| BookingController.FirstFresh | server/controllers/bookingController.js:189-198 | the regeneration loop stops at the first draw whose reference no stored booking holds; every earlier draw was taken |
| BookingController.ClassErrors | server/models/Booking.js:25-29 | the `class` validators pass exactly when the class is present when required and names one of the three classes |
| BookingController.StatusErrors | server/models/Booking.js:30-34 | the `status` validator passes exactly when the status is absent or names one of the four statuses |
| BookingController.ReferenceErrors | server/models/Booking.js:5-10 | on an update the `required` validator of `bookingReference` fails exactly when the body sets it to the empty string |
| BookingController.CreateSpec | server/controllers/bookingController.js:131-239 | create checks the flight, then the passenger, then the seat among the flight's confirmed, checked-in and boarded bookings (skipped without a seat number), then capacity as economy + business, and last the schema's `class` validators. A request that passes the first four succeeds exactly when the class validators find nothing, and otherwise answers 400 with their messages joined by ", ". A booking that passes all five is confirmed, carries the request's fields, baggage defaulting to empty, and the first untaken generated reference, which is well formed and new | |
| BookingController.CreateBooking | server/controllers/bookingController.js:131-239 | the handler answers as CreateSpec and inserts the new booking under a fresh id, changing nothing else |
| BookingController.InsertKeepsSeatsUnique | server/controllers/bookingController.js:159-173 | inserting a booking whose seat no seat-holding booking of its flight holds keeps every seat held at most once |
| BookingController.CreateKeepsSeatsUnique | server/controllers/bookingController.js:159-173 | a successful create never puts two seat-holding bookings in one seat |
| BookingController.CreateKeepsReferencesUnique | server/controllers/bookingController.js:189-198 | a successful create keeps booking references unique |
| BookingController.InsertRespectsCapacity | server/controllers/bookingController.js:175-187 | inserting one booking into a flight that is not full keeps every flight that has both figures within economy + business |
| BookingController.TotalCapacity | server/controllers/bookingController.js:181 | `economy + business` is a number exactly when both figures are present, and then their sum; otherwise it is NaN and the flight never counts as full |
| BookingController.ActiveAfterInsert | server/controllers/bookingController.js:176-179 | the flight's seat-holding bookings after an insert are the old ones plus the new booking when it holds a seat on that flight |
| BookingController.CreateRespectsCapacity | server/controllers/bookingController.js:175-187 | creates alone never overbook a flight that has both figures beyond economy + business; first class is not counted |
| BookingController.UpdateSpec | server/controllers/bookingController.js:244-301 | update answers 404 for an unknown id. It re-checks the seat only for a non-empty seat number that differs from the current one, excluding the booking itself, then runs the validators of the supplied paths (400), then answers 500 when another booking holds the upper-cased reference the body sets. Otherwise every supplied path is written: reference upper-cased, status as sent, check-in and boarding times as sent |
| BookingController.UpdateBooking | server/controllers/bookingController.js:244-301 | the handler answers as UpdateSpec and replaces only that booking |
| BookingController.UpdateKeepsReferencesUnique | server/controllers/bookingController.js:273-276 | an accepted update keeps booking references unique and non-empty upper case: a reference another booking holds is refused by the unique index |
| BookingController.UpdateKeepsSeatsUnique | server/controllers/bookingController.js:255-276 | an update that changes neither status nor flight keeps every seat held at most once |
| BookingController.UpdateStatusCanDoubleBookSeat | server/controllers/bookingController.js:273-276 | the unchecked status patch can double-book a seat: setting a cancelled booking back to confirmed puts two seat-holding bookings in one seat |
| BookingController.CancelSpec | server/controllers/bookingController.js:306-338 | cancel answers 404 for an unknown id and refuses a boarded booking; it accepts every other booking |
| BookingController.DeleteBooking | server/controllers/bookingController.js:306-338 | the handler answers as CancelSpec and removes the booking outright rather than marking it cancelled |
| BookingController.CancelFreesSeat | server/controllers/bookingController.js:325 | after a cancel the booking is gone, every other booking is unchanged, and its seat is free again |
| BookingController.CheckInSpec | server/controllers/bookingController.js:343-390 | check-in refuses a cancelled booking, then a checked-in or boarded one. It accepts exactly a confirmed booking, which becomes checked in with its check-in time |
| BookingController.CheckInBooking | server/controllers/bookingController.js:343-390 | the handler answers as CheckInSpec and replaces only that booking |
| BookingController.BoardSpec | server/controllers/bookingController.js:395-435 | board succeeds exactly from checked-in, setting status boarded and the boarding time; otherwise it answers "Passenger must check-in first" |
| BookingController.BoardBooking | server/controllers/bookingController.js:395-435 | the handler answers as BoardSpec and replaces only that booking |
| BookingController.CheckInThenBoard | server/controllers/bookingController.js:354-415 | a confirmed booking can be checked in and then boarded, cannot be checked in twice, and cannot be boarded before check-in |
| BookingController.TransitionsKeepSeatsUnique | server/controllers/bookingController.js:368-415 | check-in and board keep every seat held at most once |
| BookingController.ListBookings | server/controllers/bookingController.js:18-66 | the listing holds at most `limit` bookings, all matching the status, flight and case-insensitive reference filters, newest first. `total` counts every match and `pages` is `ceil(total / limit)` |
| BookingController.ListingOfPage | server/controllers/bookingController.js:40-46 | page `p` lists exactly the matches after the first `(p - 1) * limit`, at most `limit` of them, in newest-first order |
| BookingController.EveryMatchListed | server/controllers/bookingController.js:40-56 | every matching booking is listed on one of the pages 1 to `pages` of the same query |
| BookingController.PassengerIdIgnored | server/controllers/bookingController.js:20-38 | the query's `passengerId` is never read: naming a passenger lists the same page as naming none |
| BookingController.OtherPassengersBookingListed | server/controllers/bookingController.js:20-38 | asking for passenger 2's bookings lists a booking of passenger 1 |
| BookingController.ListBookingsForPassenger | server/controllers/bookingController.js:18-66 | with the passenger filter applied, the page holds only bookings of the named passenger that match the other filters, newest first, with `total` and `pages` counted over them; with no passenger named it is the listing as written |
| BookingController.EveryBookingOfPassengerListed | server/controllers/bookingController.js:18-66 | with the passenger filter applied, each of the passenger's matching bookings is on one of the pages |
| BoardingController.KeyLeqIsListedBefore | server/controllers/boardingController.js:15 | the sort key compared by group rank and position is the order of group names as strings, then positions |
| BoardingController.Insert | server/controllers/boardingController.js:15 | inserting into a sorted listing gives a sorted listing with one more copy of the entry |
| BoardingController.SortQueue | server/controllers/boardingController.js:15 | the sort yields a permutation of its input ordered by group name and then position |
| BoardingController.FlightEntries | server/controllers/boardingController.js:10-12 | the `find` keeps exactly the entries of the flight |
| BoardingController.GetBoardingQueue | server/controllers/boardingController.js:8-29 | the listing holds exactly the flight's entries, each as often as stored, ordered by group name as a string and then by position |
| BoardingController.PriorityListedAfterGeneral | server/controllers/boardingController.js:15 | in the listing every general entry comes before every priority entry |
| BoardingController.ChosenGroup | server/controllers/boardingController.js:67-71 | without a group (or with an empty one) business gets group-1 and every other class, first included, group-2; a given group is parsed against the enum |
| BoardingController.NextPosition | server/controllers/boardingController.js:73-79 | the next position is above every position used in the flight's group: their maximum plus one, or 1 for an empty group |
| BoardingController.EnqueueSpec | server/controllers/boardingController.js:34-116 | enqueue answers, in this order: booking not found; already in the queue; must check in first (neither checked in nor boarded). For a checked-in or boarded booking it answers 500 exactly when its flight or passenger is missing; otherwise it succeeds exactly when a boarding group is chosen, and a sent group outside the enum answers 400 "`<group>` is not a valid enum value for path `boardingGroup`.". A new entry is waiting, in the chosen group, at the next position | |
| BoardingController.AddToQueue | server/controllers/boardingController.js:34-116 | the handler answers as EnqueueSpec and inserts the entry under a fresh id, changing nothing else |
| BoardingController.EnqueueKeepsQueueInvariants | server/controllers/boardingController.js:50-89 | enqueue keeps one entry per booking and distinct positions within each flight's group, which the non-unique indexes do not enforce |
| BoardingController.CallPassenger | server/controllers/boardingController.js:121-151 | call answers 404 for an unknown entry; from any status it sets called and `calledAt`, and changes nothing else |
| BoardingController.MarkBoarding | server/controllers/boardingController.js:156-185 | markBoarding answers 404 for an unknown entry; from any status it sets boarding, and changes nothing else |
| BoardingController.MarkBoarded | server/controllers/boardingController.js:190-227 | markBoarded sets the entry boarded with `boardedAt`. It then sets the linked booking, when it still exists, to boarded with `boardingTime`, whatever its status was |
| BoardingController.RemoveFromQueue | server/controllers/boardingController.js:280-304 | remove deletes only that entry; the others keep their positions |
| BoardingController.RemovalLeavesGap | server/controllers/boardingController.js:291 | positions are not renumbered: after removing any entry the others keep their positions, and while a later entry of its group remains the next position handed out is unchanged, so the removed position stays a gap |
| BoardingController.SetCount | server/controllers/boardingController.js:261 | `result[stat._id] = stat.count` sets that status's count and no other |
| BoardingController.FillStats | server/controllers/boardingController.js:251-262 | the result reports every status, with the count of its group or 0 when no group has it, and the given total |
| BoardingController.Aggregate | server/controllers/boardingController.js:236-244 | the `$match` and `$group` stages give one group per status, counting the flight's entries with that status |
| BoardingController.AggregateOver | server/controllers/boardingController.js:238-243 | grouping over a list of statuses counts each listed status's entries and reports no other status |
| BoardingController.BoardingStats | server/controllers/boardingController.js:232-275 | the statistics the handler means to report: `total` counts the flight's checked-in or boarded bookings, and each status the flight's entries in it |
| BoardingController.GetBoardingStatsAsWritten | server/controllers/boardingController.js:237 | the handler as written always answers 500, because `mongoose` is used but never required |
| BoardingController.AddStatus | server/controllers/boardingController.js:238-243 | adding a status to the counted set adds exactly its entries |
| BoardingController.EveryStatusListed | server/models/BoardingQueue.js:29-33 | every entry of the flight has one of the five statuses |
| BoardingController.StatusCountsCoverEntries | server/controllers/boardingController.js:251-262 | the five status counts add up to the flight's entries: each entry is counted once |
| FlightController.DirectionOf | server/controllers/flightController.js:41 | the sort is descending exactly for `order=desc` |
| FlightController.GetFlights | server/controllers/flightController.js:6-63 | a page holds at most `limit` flights, all matching the status, destination and search filters, in the requested order. `total` counts every match and `pages` is `ceil(total / limit)` |
| FlightController.EveryMatchListed | server/controllers/flightController.js:38-57 | every matching flight appears on a page between 1 and `pages` of the same query |
| FlightController.ListingOfPage | server/controllers/flightController.js:45-48 | the listing for page `p` is that page of the matches in the requested order |
| FlightController.ListedByDeparture | server/controllers/flightController.js:14-15 | with the default sort a page lists departures in time order, latest first for `order=desc` |
| FlightController.DestinationIgnoresCase | server/controllers/flightController.js:25-27 | the destination filter gives the same answer for a value sent in lower case |
| FlightController.StoredDestinationFound | server/controllers/flightController.js:25-27 | a stored flight is found by its own destination in any case |
| FlightController.GetFlight | server/controllers/flightController.js:68-83 | the stored flight, or "Flight not found" for an unknown id |
| FlightController.CreateSpec | server/controllers/flightController.js:88-103 | a body the schema refuses answers 500 with the failing paths. Otherwise a flight number another flight holds answers 400 "Flight number already exists", and any other body gives the new flight, with the body's `createdAt` when it sends one |
| FlightController.CreateFlight | server/controllers/flightController.js:88-103 | the handler answers as CreateSpec, so a body `createdAt` is kept, and inserts the flight under a fresh id, changing nothing else |
| FlightController.StoreKeepsNumbersUnique | server/models/Flight.js:7 | storing a flight whose number no other flight holds keeps flight numbers unique |
| FlightController.StoreKeepsNormalised | server/models/Flight.js:4-45 | storing a normalised flight keeps every stored flight normalised |
| FlightController.CreateKeepsRegistry | server/controllers/flightController.js:88-103 | a created flight keeps flight numbers unique and every flight normalised |
| FlightController.UpdateSpec | server/controllers/flightController.js:108-127 | a body the update validators refuse answers 500, then an unknown id answers "Flight not found", then a number another flight holds answers 500. Otherwise the flight is the old one with the body applied: a sent `createdAt` overwrites the stored one, and a sent `capacity` or `price` object replaces that sub-document whole |
| FlightController.UpdateFlight | server/controllers/flightController.js:108-127 | the handler answers as UpdateSpec, with its `createdAt` and sub-document replacement, and replaces only that flight |
| FlightController.UpdateKeepsRegistry | server/controllers/flightController.js:108-127 | an accepted update keeps flight numbers unique and every flight normalised |
| FlightController.DeleteFlight | server/controllers/flightController.js:132-147 | delete answers "Flight not found" exactly for an unknown id, otherwise the deleted flight, and removes only that flight, leaving its bookings in place |
| FlightController.StatusSpec | server/controllers/flightController.js:152-174 | a status outside the enum answers 500, and an unknown id answers "Flight not found". Otherwise only the status changes, to the one sent, and an absent status changes nothing |
| FlightController.UpdateFlightStatus | server/controllers/flightController.js:152-174 | the handler answers as StatusSpec and replaces only that flight |
| FlightController.StatusPatchIsUpdate | server/controllers/flightController.js:156-160 | the status patch is the general update restricted to the `status` path |
| PassengerController.ValidPassportsNormal | server/models/Passenger.js:22-27 | every valid stored passenger's passport is upper-case |
| PassengerController.GetPassengers | server/controllers/passengerController.js:6-47 | a page holds at most `limit` passengers, all matching the case-insensitive search on name, e-mail or passport, newest first. `total` counts every match and `pages` is `ceil(total / limit)` |
| PassengerController.ListingOfPage | server/controllers/passengerController.js:22-27 | page `p` lists exactly the matches after the first `(p - 1) * limit`, at most `limit` of them, newest first |
| PassengerController.EveryMatchListed | server/controllers/passengerController.js:22-37 | every matching passenger is listed on one of the pages 1 to `pages` of the same query |
| PassengerController.SearchIgnoresCase | server/controllers/passengerController.js:14-20 | searching in capitals finds the same passengers as in lower case |
| PassengerController.GetPassenger | server/controllers/passengerController.js:52-77 | the stored passenger, or "Passenger not found" for an unknown id |
| PassengerController.CreateSpec | server/controllers/passengerController.js:82-128 | create refuses a passport some passenger holds, then a body a validator refuses. The new passenger has the supplied `userId`, or none |
| PassengerController.CreatePassenger | server/controllers/passengerController.js:82-128 | the handler answers as CreateSpec and inserts the passenger under a fresh id, changing nothing else |
| PassengerController.CreateKeepsPassportsUnique | server/controllers/passengerController.js:87-94 | a created passenger holds a passport no other passenger holds |
| PassengerController.StoreKeepsPassportsUnique | server/models/Passenger.js:22-27 | storing a passenger whose passport no other passenger holds keeps passports unique |
| PassengerController.CreateKeepsAllValid | server/controllers/passengerController.js:96-105 | a created passenger satisfies the schema, so every stored passenger stays valid |
| PassengerController.UpdateSpec | server/controllers/passengerController.js:133-187 | update answers "Passenger not found" for an unknown id. It then checks the passport only when one is supplied, non-empty and different from the stored one, and then runs the validators on the supplied fields. An accepted body writes every schema path it names, `userId` and `createdAt` included, as ApplyFields states |
| PassengerController.UpdatePassenger | server/controllers/passengerController.js:133-187 | the handler answers as UpdateSpec and replaces only that passenger |
| PassengerController.UpdateKeepsPassportsUnique | server/controllers/passengerController.js:144-164 | an update never gives a passenger a passport another passenger holds |
| PassengerController.UpdateKeepsAllValid | server/controllers/passengerController.js:160-164 | an accepted update leaves every stored passenger valid |
| PassengerController.OwnPassportInLowerCaseRefused | server/controllers/passengerController.js:145-157 | the guard compares the passport as sent but looks it up upper-cased, so resending one's own passport in lower case is refused as a duplicate |
| PassengerController.DeleteSpec | server/controllers/passengerController.js:192-227 | delete answers 404 for an unknown id, and refuses while any booking (of any status) refers to the passenger |
| PassengerController.DeletePassenger | server/controllers/passengerController.js:192-227 | the handler answers as DeleteSpec and removes only that passenger |
| PassengerController.DeleteKeepsBookingsLinked | server/controllers/passengerController.js:203-214 | deleting never leaves a booking that refers to a missing passenger |
| PassengerController.SearchByPassport | server/controllers/passengerController.js:232-256 | the search finds a passenger holding exactly the (upper-cased) passport, or answers "Passenger not found" when none does |
| PassengerController.SearchFindsTheHolder | server/controllers/passengerController.js:234-236 | with unique passports, searching a stored passport finds its holder |
| AuthController.RoleOf | server/controllers/authController.js:63 | a missing role defaults to passenger: no role gives passenger, and a given role must be one of the four |
| AuthController.RegisterSpec | server/controllers/authController.js:14-99 | register answers "User already exists" for a registered e-mail, then "Passport number already registered" for a supplied passport some user holds. A stored user has the request's name, its e-mail lower-cased, a profile made of the request's phone, passport, date of birth, nationality and the address or `{}`, and `isProfileComplete` true exactly when phone, passport, date of birth and nationality are all given | |
| AuthController.Register | server/controllers/authController.js:14-99 | the handler answers as RegisterSpec and inserts the user under a fresh id, changing nothing else |
| AuthController.RegisterKeepsRegistry | server/controllers/authController.js:28-72 | a registered user keeps e-mails unique, non-empty passports distinct and every completeness flag consistent |
| AuthController.LoginSpec | server/controllers/authController.js:104-161 | login answers 400 without an e-mail or a password. An unknown e-mail and a wrong password give the same 401 "Invalid credentials", and success names the user holding the e-mail whose password matches |
| AuthController.LoginSucceedsExactly | server/controllers/authController.js:117-134 | with unique e-mails, login succeeds exactly for the user holding the e-mail when the password matches |
| AuthController.ApplyProfile | server/controllers/authController.js:214-228 | only supplied, non-empty fields replace the stored ones: name, phone, nationality and date of birth each take the body's value when given and keep the stored one otherwise, and the address is merged key by key; e-mail, password and role stay; the completeness flag is recomputed from the result | |
| AuthController.AddressMerged | server/controllers/authController.js:220 | `{ ...old, ...address }` keeps every old key and lets a supplied key win |
| AuthController.EmptyProfileUpdate | server/controllers/authController.js:214-228 | an empty body changes nothing on a consistent user |
| AuthController.UpdateProfileSpec | server/controllers/authController.js:186-243 | the profile update answers "User not found" for an unknown user, and refuses a changed passport that another user holds. Otherwise it applies the merge |
| AuthController.UpdateProfile | server/controllers/authController.js:186-243 | the handler answers as UpdateProfileSpec and replaces only that user |
| AuthController.UpdateProfileKeepsRegistry | server/controllers/authController.js:200-230 | an accepted profile update keeps e-mails unique, passports distinct and every completeness flag consistent |
| Routing.Dispatch | server/routes/bookings.js:21-40 | a request goes to the first route, in registration order, whose verb and path match, and to none when no route matches |
| Routing.Admit | server/routes/bookings.js:18-24 | a public route admits anyone. A protected route refuses a request without a token with 401, and a role outside its `authorize` list with 403 |
| Routing.Serve | server/routes/bookings.js:18 | a router-level `protect` answers a tokenless request with 401 before any route is matched; with a token, or without a router-level `protect`, the request is dispatched and the matched route's middleware decides |
| Routing.UnauthenticatedRefused | server/routes/bookings.js:18 | behind `router.use(protect)` a request without a token gets 401 on every path, matched or not; behind per-route guards alone, an unmatched path is not found and a protected route answers 401 |
| Routing.HandleAt | server/routes/passengers.js:19-32 | a request first matched by a route gets that route's middleware decision |
| BookingRoutes.EveryBookingRouteProtected | server/routes/bookings.js:18 | `router.use(protect)` precedes route matching, so a request without a token gets 401 on every path under `/api/bookings`, including one no route matches |
| BookingRoutes.WhoMayListAndCreate | server/routes/bookings.js:21-24 | listing and creating bookings are open exactly to admin, agent and staff; a passenger gets 403 |
| BookingRoutes.WhoMayReadAndUpdate | server/routes/bookings.js:26-33 | the reference look-up, the id look-up and the update are open exactly to admin, agent and staff |
| BookingRoutes.WhoMayCancelCheckInAndBoard | server/routes/bookings.js:34-40 | cancel and board are open exactly to admin and agent, and check-in to admin, agent and staff |
| BoardingRoutes.EveryBoardingRouteProtected | server/routes/boarding.js:17 | a request without a token gets 401 on every path under `/api/boarding`, including one no route matches |
| BoardingRoutes.WhoMayView | server/routes/boarding.js:20-25 | the queue listing and the stats are open exactly to admin and agent |
| BoardingRoutes.WhoMayAddAndRemove | server/routes/boarding.js:28-36 | adding to the queue is open to admin, agent and staff, and removing to admin and agent |
| BoardingRoutes.WhoMayCall | server/routes/boarding.js:31-32 | calling a passenger and marking boarding are open exactly to admin and agent |
| BoardingRoutes.WhoMayMarkBoarded | server/routes/boarding.js:33 | marking boarded is open exactly to admin and agent |
| PassengerRoutes.EveryPassengerRouteProtected | server/routes/passengers.js:16 | a request without a token gets 401 on every path under `/api/passengers`, including one no route matches |
| PassengerRoutes.PassportSearchRouted | server/routes/passengers.js:24-29 | the passport search path is dispatched to the search route, registered before `/:id`, and is open exactly to admin, agent and staff |
| PassengerRoutes.WhoMayListAndCreate | server/routes/passengers.js:19-22 | listing and creating passengers are open exactly to admin, agent and staff |
| PassengerRoutes.WhoMayManage | server/routes/passengers.js:28-32 | reading and updating a passenger are open to admin, agent and staff, and deleting to admin only |
| FlightRoutes.ReadsArePublic | server/routes/flights.js:15-16 | anyone, with or without a token, may list flights and read one |
| FlightRoutes.WhoMayCreateAndUpdate | server/routes/flights.js:19-20 | creating and updating a flight are open exactly to admin |
| FlightRoutes.WhoMayDeleteAndPatch | server/routes/flights.js:21-27 | deleting is open exactly to admin, the status patch to admin and agent |
| FlightRoutes.WritesAuthenticateFirst | server/routes/flights.js:19-27 | the flights router has no router-level `protect`: a write without a token gets 401 from its route, never 403, and a path no route matches is not found |
| BookingPage.BookingPage.constructor | public/js/booking.js:3-8 | the page starts with no aircraft configuration, no occupied seats, no selected seat, price 0 and the economy class |
| BookingPage.BookingPage.LoadOccupiedSeats | public/js/booking.js:318-327 | for a success answer (which the tokenless request of the page as written never gets, see `OccupiedSeatsRequestRefused`), the occupied list is rebuilt from scratch as the seat numbers of the listed bookings that have a seat and are not cancelled, in list order, and is empty when the response has no `bookings`; nothing else on the page changes |
| BookingPage.OccupiedExactly | public/js/booking.js:319-326 | a seat number is in the occupied list exactly when some listed booking holds that non-empty seat and is not cancelled |
| BookingPage.BookingPage.GenerateSeats | public/js/booking.js:175-185 | the grid drawn is the configured grid of the class when an aircraft configuration is known and the fallback grid otherwise |
| BookingPage.AppendGrid | public/js/booking.js:211-246 | the row loop draws the rows from the first to the last inclusive, one after the other, and nothing when the range is empty |
| BookingPage.AppendRow | public/js/booking.js:212-245 | the column loop draws one seat per column, labelled row then column and marked taken exactly when listed, with a spacer right after the aisle column |
| BookingPage.BookingPage.ClickSeat | public/js/booking.js:227-232 | a click selects a seat only when it is drawn as available; a taken seat has no handler and leaves the selection as it was |
| BookingPage.BookingPage.UpdatePrice | public/js/booking.js:165-172 | the price becomes the flight's price for the chosen class only when that price is truthy; a zero or absent figure, or an unknown class, keeps the previous price |
| BookingPage.BookingPage.ChangeClass | public/js/booking.js:35-40 | changing the class remembers it, updates the price as `updatePrice` does and redraws the grid for that class, leaving the occupied list, configuration and selection alone |
| BookingPage.BookingPage.SubmitBooking | public/js/booking.js:355-390 | a submission is refused exactly when no seat is selected; otherwise it carries the selected seat, the chosen class, every passenger field trimmed except the date of birth, and one baggage entry only when both weight and type are given, its weight being `parseInt` of the weight field (NaN for a field that does not start with a number) | |
| BookingPage.RowMarksOccupied | public/js/booking.js:216-225 | every seat of a drawn row is marked occupied exactly when its number is in the occupied list |
| BookingPage.GridMarksOccupied | public/js/booking.js:211-246 | every seat of a drawn grid is marked occupied exactly when its number is in the occupied list |
| BookingPage.SeatsMarkOccupied | public/js/booking.js:175-310 | whichever layout is drawn, configured or fallback, a seat shows as occupied exactly when it is in the occupied list |
| BookingPage.OnlyFreeSeatsSelectable | public/js/booking.js:288-293 | a seat that can be clicked in the drawn grid is never one of the occupied seats |
| BookingPage.RowHasSeat | public/js/booking.js:212-214 | each column of a row is drawn as that row's seat |
| BookingPage.GridHasSeat | public/js/booking.js:211-214 | each column of each row in range is drawn as a seat, marked as the occupied list says |
| BookingPage.RowSeatCount | public/js/booking.js:212-234 | a row holds exactly one seat per column |
| BookingPage.RowLength | public/js/booking.js:212-245 | a row has one cell per column plus one spacer when the aisle index names one of its columns |
| BookingPage.RowAisle | public/js/booking.js:236-244 | a row holds a spacer exactly when the aisle index names one of its columns, and the spacer follows that column's seat |
| BookingPage.GridSeatCount | public/js/booking.js:211-246 | a grid of rows `start..end` holds `(end - start + 1)` times the number of columns seats |
| BookingPage.GridAisle | public/js/booking.js:211-246 | a grid holds spacers exactly when the aisle index names one of its columns |
| BookingPage.ServedLayoutSeats | public/js/booking.js:188-212 | if a configuration from the server's aircraft table reached the page (as written it never does, see `AircraftConfigNeverServed`), for each class the configured branch would draw exactly as many seats as the table's seat count for that class, and none for a class the aircraft lacks |
| BookingPage.ConfiguredAisle | public/js/booking.js:238-244 | with six or more columns the spacer follows the third seat of a row, with four columns the second |
| BookingPage.DefaultLayoutSeats | public/js/booking.js:254-310 | without a configuration first class draws 8 seats, business 24 and economy 120, and a spacer appears exactly for those three class names |
| BookingPage.DefaultEconomyCovers | public/js/booking.js:264-275 | every fallback economy seat from row 9 to row 28 and column A to F is drawn |
| BookingPage.PublicSubmissionRefused | public/js/booking.js:393-440 | the page posts the passenger and the booking without a token, and both routers answer that with 401 |
| BookingPage.OccupiedSeatsRequestRefused | public/js/booking.js:312-335 | `loadOccupiedSeats` lists bookings without a token, so the booking router answers 401 and the error branch redraws with the empty seat list: no seat of either layout is drawn as occupied |
| BookingPage.AircraftConfigNeverServed | server/server.js:64-68 | the page asks `/api/aircraft-types/:type`, but the server mounts no router there (auth, flights, passengers, bookings and boarding only), so the request fails and the page draws the fallback layout |
| GatesPage.GatesPage.constructor | public/js/gates.js:3-4 | the page starts with no flights and an empty gate map |
| GatesPage.GatesPage.LoadGatesAndFlights | public/js/gates.js:36-40 | after a load the page keeps the answer's flights (none when absent), rebuilds the gate map from them, draws thirty cards that each show their own gate's assignment, and counts thirty gates with the map's size as occupied and the rest available |
| GatesPage.GatesPage.ProcessGateAssignments | public/js/gates.js:63-81 | the map is rebuilt from empty with every flight that has a gate and is neither departed nor cancelled, written under its gate in list order; the flight list is unchanged |
| GatesPage.AssignedExactly | public/js/gates.js:66-80 | a gate is in the map exactly when some live flight of the list has that gate |
| GatesPage.LaterFlightWins | public/js/gates.js:72-78 | the flight recorded at a gate is the last live flight in the list with that gate: no later live flight holds it |
| GatesPage.OccupiedIsDistinctGates | public/js/gates.js:149-152 | the occupied count is the number of distinct gates held by live flights, so two flights at one gate count once |
| GatesPage.OffBoardGateCounted | public/js/gates.js:149-152 | a live flight at a gate outside A1 to C10 has no card, yet it lowers the available count to 29 |
| GatesPage.GatesPage.RenderTerminalGates | public/js/gates.js:96-105 | a terminal's loop draws the cards of its gates 1 to `count` |
| GatesPage.GatesPage.RenderGates | public/js/gates.js:84-93 | the page draws terminal A, then B, then C, ten gates each |
| GatesPage.TerminalCardsShape | public/js/gates.js:100-104 | a terminal's cards are gates 1 to `count` in order, each showing its gate's assignment when the map has one and available otherwise |
| GatesPage.CardsShowAssignments | public/js/gates.js:108-137 | all thirty cards show their own gate's assignment, if any |
| GatesPage.RenderedGateNumbers | public/js/gates.js:84-104 | the rendered gates are exactly A1 to A10, B1 to B10 and C1 to C10, in that order |
| GatesPage.GatesPage.UpdateStatistics | public/js/gates.js:149-159 | the statistics are thirty gates, the map's size occupied, the difference available and none in maintenance |
| GatesPage.GatesPage.OpenGateModal | public/js/gates.js:162-205 | the modal offers clearing exactly when the gate is in the map, with that gate's assignment, and otherwise the assignment form listing the live flights |
| GatesPage.GatesPage.LoadAvailableFlights | public/js/gates.js:208-224 | the selector lists every flight that is neither departed nor cancelled, in list order |
| GatesPage.ChoicesAreLive | public/js/gates.js:213-223 | a flight is offered exactly when it is listed and live, whether or not it already has a gate |
| GatesPage.GatesPage.AssignGate | public/js/gates.js:227-244 | an assignment is refused exactly when no flight is chosen; otherwise it asks to put the gate on the chosen flight |
| GatesPage.GatesPage.UnassignGate | public/js/gates.js:262-280 | a request is sent exactly when the gate is in the map and the user confirms, and it clears the gate of the flight recorded there |
| GatesPage.GateRequestChangesOnlyGate | server/controllers/flightController.js:107-113 | the server accepts a gate-only body and changes nothing of the flight but its gate, stored trimmed |
| GatesPage.ClearedGateLeavesMap | server/models/Flight.js:42-45 | a cleared gate is stored empty, so that flight holds no gate at the next load |
| FlightsPage.ValidateFlightData | public/js/flights.js:499-528 | a form passes exactly when all seven required fields are filled, the economy capacity is not a number below 1, and two valid times have the arrival strictly after the departure; a missing field is reported before a small capacity |
| FlightsPage.AcceptedTimesOrdered | public/js/flights.js:519-525 | an accepted form with two valid times has the arrival strictly after the departure |
| FlightsPage.UnparsableCapacityPasses | public/js/flights.js:513 | an unparsable capacity and an invalid time pass the check, because comparisons with NaN are false |
| FlightsPage.ButtonsMatchMoves | public/js/flights.js:53-65 | a click on Prev or Next moves the page exactly when that button is enabled, by one page |
| FlightsPage.NavigationStaysInRange | public/js/flights.js:53-65 | from a page in range, Prev and Next stay between page 1 and the last page |
| FlightsPage.ParamsOf | public/js/flights.js:73-84 | a listing request asks for ten items of the current page, with `search` exactly when the search text is non-empty and `status` exactly when the filter is not "all" |
| FlightsPage.FlightsPage.constructor | public/js/flights.js:3-6 | the page starts on page 1 of 1, with the "all" filter and no search |
| FlightsPage.FlightsPage.SearchKeyUp | public/js/flights.js:33-41 | a search keeps the trimmed text, goes back to page 1 and requests that page with the current filter |
| FlightsPage.FlightsPage.FilterClick | public/js/flights.js:44-50 | a filter button keeps its status, goes back to page 1 and requests that page with the current search |
| FlightsPage.FlightsPage.PrevClick | public/js/flights.js:53-58 | Prev goes one page back and reloads exactly when past page 1, and otherwise changes nothing |
| FlightsPage.FlightsPage.NextClick | public/js/flights.js:60-65 | Next goes one page on and reloads exactly when before the last page, and otherwise changes nothing |
| FlightsPage.FlightsPage.LoadFlights | public/js/flights.js:69-93 | the request sent is the one for the page's current page, filter and search |
| FlightsPage.FlightsPage.UpdatePagination | public/js/flights.js:189-210 | the page and page count become the server's, Prev is disabled exactly on page 1 or below and Next exactly on the last page or after |
| FlightsPage.StatusBadgeClass | public/js/flights.js:163-174 | each of the five flight statuses gets its own badge class and any other status the scheduled one |
| FlightsPage.FormatDateForInputLayout | public/js/flights.js:337-345 | for a four-digit year the value is `YYYY-MM-DDTHH:MM`, 16 characters, and each field reads back as its component with the month counted from 1 |
| BoardingPage.StatusClass | public/js/boarding.js:281-289 | each of the four boarding statuses gets its own class and any other status the waiting one |
| BoardingPage.BoardingPage.constructor | public/js/boarding.js:1-10 | the page starts with no flight loaded and an empty queue |
| BoardingPage.BoardingPage.LoadBoardingQueue | public/js/boarding.js:58-80 | with no flight chosen nothing is requested and the page keeps its flight; otherwise the flight is remembered and its queue requested from `GET /boarding/flight/:flightId` |
| BoardingPage.BoardingPage.QueueLoaded | public/js/boarding.js:81-85 | a loaded queue is kept (empty when the answer has none) and drawn as one card per entry |
| BoardingPage.BoardingPage.DisplayBoardingQueue | public/js/boarding.js:119-142 | the cards drawn are exactly the numbered cards of the queue, in server order |
| BoardingPage.BoardingPage.BoardingUpdate | public/js/boarding.js:271-277 | a socket update reloads the queue only once a flight has been loaded, and then for the flight chosen in the selector, with no request when none is chosen |
| BoardingPage.CardsNumberedInOrder | public/js/boarding.js:132-134 | there is one card per entry, and the card at place k shows position k + 1, whatever the entry's stored queue position |
| BoardingPage.ActionsFollowTheQueue | public/js/boarding.js:153-171 | a waiting entry offers Call, a called one Board and a boarding one Complete, and no other stored status offers a button |
| BoardingPage.ActionAdvances | public/js/boarding.js:205-260 | once an action's request succeeds the reloaded card offers the next action, and a boarded entry offers none |
| BoardingPage.ActionReachesItsHandler | public/js/boarding.js:205-260 | each button's `PUT /boarding/:id/<action>` reaches the matching handler of the boarding router for an admin or an agent and is refused with 403 for staff |
| BoardingPage.MissingCountsShowZero | public/js/boarding.js:111-116 | a count missing from the statistics is shown as 0 and a present one as it is |
| BoardingPage.StatusDisplay | public/js/boarding.js:148-149 | no stored status has a hyphen, so its text is the status upper-cased; a missed entry shows the waiting class and no button |
| FlightBoard.Upcoming | public/js/flight-board.js:83-86 | the board keeps exactly the listed flights departing between now and 48 hours from now, and never more flights than were listed |
| FlightBoard.WindowInclusive | public/js/flight-board.js:80-85 | the window is closed at both ends: a flight departing now or exactly 48 hours from now is kept, one outside is not |
| FlightBoard.ShownIsTheWindow | public/js/flight-board.js:83-97 | whatever order the board is drawn in, it shows exactly the listed flights inside the window |
| FlightBoard.GateShown | public/js/flight-board.js:150 | the gate cell shows the gate, or "TBA" when it is empty |
| FlightBoard.RowsShowFlights | public/js/flight-board.js:141-170 | row k shows flight k: its number, the destination on departures and the origin on arrivals, the board's time and the gate or "TBA" |
| FlightBoard.SortBy | public/js/flight-board.js:110-112 | the sort leaves the flights in ascending order of the board's time, departure or arrival, and is a permutation of them |
| FlightBoard.InsertLast | public/js/flight-board.js:128-130 | one step of the sort extends the ordered prefix by one flight and keeps the same flights |
| FlightBoard.AppendRows | public/js/flight-board.js:132-135 | the rows appended are those of the sorted flights, in order |
| FlightBoard.SortedRowsAscend | public/js/flight-board.js:110-135 | the rows of a sorted board show their times in ascending order |
| FlightBoard.BadgeOfStatus | public/js/flight-board.js:173-196 | the badge is the status upper-cased, with the class of the five known statuses and the scheduled class for any other |
| FlightBoard.WithGateOnlyThatFlight | public/js/flight-board.js:243-245 | a gate update sets the gate cell of every row of that flight and leaves every other cell and row unchanged |
| FlightBoard.BadgeOnlyThatFlight | public/js/flight-board.js:238-240 | `find("td:last")` is applied within each matched row, so every row of the flight gets the new badge, and nothing else changes |
| FlightBoard.UpdateReachesEveryRow | public/js/flight-board.js:231-246 | after an update every row of the flight, in either table, shows the new badge and (for a non-empty gate) the new gate; rows of other flights are unchanged |
| FlightBoard.FlightBoard.constructor | public/js/flight-board.js:3-4 | the board starts on the departures tab with no flights and empty tables |
| FlightBoard.FlightBoard.FlightsLoaded | public/js/flight-board.js:65-68 | a load keeps the answer's flights (none when absent) and redraws the board |
| FlightBoard.FlightBoard.SwitchTab | public/js/flight-board.js:34-53 | a tab switch keeps the tab and redraws the board |
| FlightBoard.FlightBoard.DisplayFlights | public/js/flight-board.js:76-138 | with no flight in the window the no-flights state is shown and both tables stay as they were; otherwise the current tab's table holds the window's flights, sorted by that tab's time, and the other table is untouched |
| FlightBoard.FlightBoard.FlightUpdate | public/js/flight-board.js:226-251 | an update for a flight on the board sets the badge of each of its rows in both tables and, for a non-empty gate, their gate cells; an update for a flight not shown asks for a reload; other events change nothing |
| FlightSearch.SearchParamsOf | public/js/flight-search.js:42-61 | both inputs are trimmed and upper-cased; the request asks for 50 scheduled flights, with no search when both are empty, the one given code when only one is, and "ORIGIN DEST" when both are |
| FlightSearch.DatePart | public/js/flight-search.js:73-75 | the date part of an ISO text is its prefix before the first `T`, or all of it when there is none |
| FlightSearch.DateFilterReadsTheDay | public/js/flight-search.js:71-78 | the date filter keeps a departure at any time of the chosen day |
| FlightSearch.Filter | public/js/flight-search.js:72-87 | a filter keeps exactly the flights that pass, and only flights of the list |
| FlightSearch.ApplyFilters | public/js/flight-search.js:67-88 | the flights shown are exactly those of the answer (none when absent) on the chosen date, from the chosen origin and to the chosen destination, each filter applying only when its input is given, and no flight is added |
| FlightSearch.ResultsOf | public/js/flight-search.js:90-95 | a non-empty list is drawn as its cards with its count, and an empty one as the no-results state |
| FlightSearch.ResultsCountSingular | public/js/flight-search.js:254-257 | one flight reads "Found 1 available flight" |
| FlightSearch.ResultsCountPlural | public/js/flight-search.js:254-257 | any other count reads "Found N available flights" |
| FlightSearch.StatusClass | public/js/flight-search.js:244-251 | scheduled, boarding and delayed get their own class and any other status the scheduled one |
| FlightSearch.StatusShown | public/js/flight-search.js:124-126 | a card's status text starts with the status's first letter upper-cased, a scheduled flight reads "Scheduled", and a departed or cancelled one gets the scheduled class |
| FlightSearch.JoinedSearchMissesRoute | public/js/flight-search.js:55-61 | with both codes given, a flight flying exactly that route, whose number is no longer than the two codes together, fails the server's search, though the client filters would keep it |
| FlightSearch.SearchTerm | public/js/flight-search.js:55-61 | the corrected term is absent exactly when both codes are empty and is otherwise one of the two codes |
| FlightSearch.SearchTermKeepsWanted | server/controllers/flightController.js:29-35 | with the single term, every flight the client filters would keep passes the server's search |
| MyBookings.Find | public/js/my-bookings.js:250-252 | a booking is found exactly when one on the page has that id, and what is found is such a booking |
| MyBookings.MyBookingsPage.constructor | public/js/my-bookings.js:3 | the page starts with no bookings |
| MyBookings.MyBookingsPage.DisplayBookings | public/js/my-bookings.js:97-110 | the page keeps the bookings it is given and draws exactly one card per booking, in order |
| MyBookings.DrawCards | public/js/my-bookings.js:102-105 | the loop draws exactly one card per booking, in order |
| MyBookings.MyBookingsPage.UpdateBooking | public/js/my-bookings.js:248-298 | nothing is sent for a booking not on the page; otherwise the trimmed seat and the class go to the booking first, and only once that succeeds the trimmed name, email and phone go to the booking's passenger |
| MyBookings.CancelBooking | public/js/my-bookings.js:301-318 | the delete of that booking is sent exactly when the visitor confirms |
| MyBookings.SearchStartsWithReference | public/js/my-bookings.js:27-40 | a blank term sends nothing, and any other term is looked up as a booking reference first, trimmed |
| MyBookings.PassportOnlyAfterFailure | public/js/my-bookings.js:41-51 | the passport lookup is made exactly when the reference lookup fails, and a found reference shows that one booking alone |
| MyBookings.BookingsListedForFoundPassenger | public/js/my-bookings.js:56-94 | the passenger's bookings are requested exactly when the passport lookup finds a passenger, and bookings are shown only when that list is non-empty |
| MyBookings.VisitorSearchFindsNothing | public/js/my-bookings.js:38-74 | the page sends no token, both lookups sit behind authentication and are refused with 401, so a visitor's search ends with no bookings shown |
| MyBookings.ReferenceLookupRefused | server/routes/bookings.js:17-28 | `GET /bookings/reference/:reference` without a token is refused with 401 by the router-level `protect`, whatever the term |
| MyBookings.PassportLookupRefused | server/routes/passengers.js:17-28 | `GET /passengers/search/passport/:passportNumber` without a token is refused with 401 by the router-level `protect`, whatever the term |
| MyBookings.CheckedInShown | public/js/my-bookings.js:120 | a checked-in booking reads "CHECKED IN" |
| MyBookings.OtherStatusesShown | public/js/my-bookings.js:120 | every other booking status has no hyphen and reads upper-cased |
| MyBookings.StatusClassShown | public/js/my-bookings.js:335-343 | each of the four booking statuses gets its own class and any other status the confirmed one |
| MyBookings.CardRules | public/js/my-bookings.js:113-197 | a card shows "Not assigned" for a missing seat, "TBA" for a missing gate and the class capitalised, and offers edit and cancel exactly while the booking is confirmed |
| MyBookings.CapitalizeFirstShown | public/js/my-bookings.js:331-333 | only the first character is upper-cased: "economy" reads "Economy", the empty text stays empty and capitalising twice changes nothing more |
| Text.ToUpper | server/models/Flight.js:8 | upper-casing keeps the length, maps each ASCII lower-case letter to its capital and leaves every other character |
| Text.ToLower | server/models/Passenger.js:12 | lower-casing keeps the length, maps each ASCII capital to its lower-case letter and leaves every other character |
| Text.ToUpperIdempotent | server/models/Flight.js:8-9 | upper-casing an upper-cased text changes nothing, so a stored code is its own normal form |
| Text.UpperOfLower | server/controllers/flightController.js:29-35 | upper-casing forgets whether the text was lower-cased first |
| Text.LowerOfUpper | server/controllers/flightController.js:29-35 | lower-casing forgets whether the text was upper-cased first, so a case-insensitive match ignores the stored case |
| Text.Trim | server/models/Flight.js:9 | trimming gives a piece of the text with no blank at either end, and leaves a text without blanks as it is; TrimDropsOnlyEndBlanks adds that the piece starts after exactly the leading blanks and everything cut off is blank | |
| Text.TrimDropsOnlyEndBlanks | server/models/Flight.js:9 | the trim is the slice of the text that starts after its leading blanks, and every character outside that slice is blank, so no inner character is dropped |
| Text.TrimKeepsTrimmed | server/models/Flight.js:9 | a text with no blank at either end is its own trim, so trimming twice changes nothing more |
| Text.NatToDecimal | public/js/flight-search.js:254-257 | `String(n)` is a non-empty string of digits, one digit exactly for n below 10 |
| Text.DecimalRoundTrip | public/js/flights.js:337-345 | the digits written for n denote n again |
| Text.IntToDecimal | public/js/booking.js:214 | `String(i)` starts with a minus sign exactly for a negative number, followed by the digits of its magnitude |
| Text.PadTwo | public/js/flights.js:340-343 | `padStart(2, "0")` gives two digits for a number below 100, and the digits denote the number |
| Text.Join | public/js/flight-search.js:60 | joining nothing gives the empty text, one part gives that part, and more put the separator between consecutive parts |
| Text.DigitRun | public/js/booking.js:378-381 | the digits `parseInt` reads form the longest run of digits at the start of the text |
| Text.ParseIntReadsDecimal | public/js/booking.js:378-381 | `parseInt` reads back what `String(i)` writes for every integer, whatever blanks precede it and whatever non-digit text follows, so "12kg" weighs 12 |
| Text.ParseIntOfDecimal | public/js/booking.js:378-381 | `parseInt(String(i) + tail)` is i when the tail does not start with a digit |
| Text.ParseNegativeDecimal | public/js/booking.js:378-381 | a minus sign before the digits of n reads as -n |
| Text.ParseUnsigned | public/js/booking.js:378-381 | a run of digits before a non-digit reads as the number the digits denote |
| Text.MinusNegates | public/js/booking.js:378-381 | a leading minus sign negates what the digits after it read as |
| Text.BlanksIgnored | public/js/booking.js:378-381 | blanks before a digit or a sign do not change what `parseInt` reads |
| Text.TrimStartAfterBlanks | public/js/booking.js:378-381 | the leading blanks `parseInt` skips are exactly those before the first non-blank |
| Text.DigitRunOf | public/js/booking.js:378-381 | the digit run of digits followed by a non-digit is those digits |
| Text.ParseIntWithoutDigits | public/js/booking.js:378-381 | a text with neither a digit nor a sign after its blanks reads as NaN, so a weight such as "kg" is not a number |
| Text.IndexOf | public/js/flight-search.js:73-75 | `indexOf` is -1 exactly when the character is absent, and otherwise the first position holding it |
| Text.ReplaceFirst | public/js/boarding.js:149 | `replace` with a one-character pattern keeps the length and changes only the first occurrence |
| Text.ReplaceFirstAfter | public/js/my-bookings.js:120 | the occurrence replaced is the one after a prefix free of the character |
| Text.CapitalizeFirst | public/js/my-bookings.js:331-333 | capitalising keeps the length, upper-cases the first character and keeps the rest |
| Text.LexLessAtFirstDifference | server/controllers/boardingController.js:15 | two texts that agree up to a position and differ there compare as their characters at that position |

## Left out

- HTTP, Express and MongoDB plumbing: a handler takes the parsed request and the collections and returns a success or an error value; `res.status(...).json`, `$.ajax`, `populate` and query casting are not modelled. Populated documents appear as plain fields of the view types.
- Ill-formed ObjectIds: ids are naturals, so the CastError that a malformed `:id` raises (answered 500 by each handler's catch) is not modelled.
- JWT signing and verification and bcrypt hashing: the caller reaches the routers as a role, or none for a request without a valid token, and password checks are a `matches` parameter.
- Concurrency: the check-then-insert races in seat booking and queue-position assignment. Operations run one at a time.
- server/server.js beyond its list of mounted routers (`Routing.MountPoints`), public/js/socket-client.js, server/services/emailService.js, test-nodemailer.js and server/seed.js are not part of this model: they are socket transport, e-mail I/O and a seeding script. A socket event reaches the pages as a method call.
- public/js/booking-confirmation.js, public/js/auth.js, public/js/config.js and public/js/dashboard.js are not part of this model (PDF, QR code, navigation and DOM glue).
- The DOM, `localStorage`, modals, alerts, fades and timers: a page handler returns the request it sends or the cells and cards it draws. `viewBookingDetails` and `openEditModal` only copy fields into `localStorage` or a form and are not modelled.
- Dates and locale formatting: times are integers (milliseconds) and `toLocale*String` output is not modelled. `toISOString` reaches FlightSearch as the `departureIso` field, and the local date components reach FlightsPage.FormatDateForInput as numbers.
- The clock and `Math.random` are parameters: `now`, and a sequence of six-letter draws for the booking reference.
- getBooking, getBookingByReference and getMe are not modelled: each is one lookup by id, reference or token answering 404 when absent. Their routes and roles are modelled in the route tables.
- `findOne({ field: undefined })`: a create request without a passport or e-mail is modelled as failing the schema's `required` check. Mongoose's handling of an undefined query value is not modelled.
- Case mapping and trimming cover ASCII only. `toUpperCase`, `toLowerCase` and `trim` act on all of Unicode; Text.ToUpper, Text.ToLower and Text.Trim act on ASCII letters and on space, tab, CR and LF.
- Object lookups such as `classes[status]` in the pages' status-class helpers treat every unknown name alike. A name inherited from `Object.prototype` (such as "constructor") would yield a function in JavaScript; it is not a status the server stores.
- GateConfig.GetCompatibleGates: treats every name outside `aircraftGateMapping` as unmapped and answers all gates. In JavaScript a name inherited from `Object.prototype` ("constructor", "toString", "__proto__") finds a truthy value that no terminal lists, so the source answers no gate for it.
- AircraftTypes.Lookup: is None for every name outside the six aircraft, whereas `aircraftTypes["constructor"]` and the other `Object.prototype` names are defined in JavaScript.
- Text.ParseInt: reads decimal digits only, skips ASCII blanks only, and returns an exact integer. `parseInt` reads a text starting with "0x" or "0X" as hexadecimal (the model reads it as 0), skips every Unicode blank, and returns a floating-point number that loses precision beyond 2^53.
- BookingController.CreateBooking: requires that the draws eventually give an unused reference. The source's `while (!isUnique)` loop has no bound and would run for ever otherwise.
- BookingController.CreateSpec: the same assumption about the draws as CreateBooking.
- FlightController.GetFlights: requires page and limit of at least 1. A zero, negative or non-numeric query value is not modelled.
- BookingController.ListBookings: requires page and limit of at least 1, as GetFlights does. An absent page or limit is 1 or 10, as the handler's defaults say.
- PassengerController.GetPassengers: requires page and limit of at least 1, as GetFlights does. An absent page or limit is 1 or 10, as the handler's defaults say.
- FlightController.GetFlights: orders the listing only when `sortBy` is departureTime (the default), arrivalTime or createdAt. For any other field the contract leaves the order free, whereas MongoDB sorts by that field's value.
- FlightController.SearchMatches: reads the search term as a literal substring compared without regard to case. The source passes it to `$regex` with the `i` option, so `.`, `^`, `$` and the other pattern characters keep their regular-expression meaning, and a term that is not a valid pattern, such as `(`, makes the query throw and the handler answer 500.
- BookingController.Matches: reads the reference search as a literal substring, with the same limits as FlightController.SearchMatches.
- PassengerController.Matches: reads the name, e-mail and passport search as a literal substring, with the same limits as FlightController.SearchMatches.
- BookingController.PatchErrors and the other validator lists join their messages in schema order. Mongoose lists them in the order of the body's keys.
- BookingPage.BookingPage.LoadOccupiedSeats: models the success answer, which the page as written never receives. Its request carries no token and is answered 401 (BookingPage.OccupiedSeatsRequestRefused).
- BookingPage.ServedLayoutSeats: describes the configured branch of `generateSeats`, which the page as written never takes, because no router serves `/api/aircraft-types` (BookingPage.AircraftConfigNeverServed).
- FlightBoard.SortBy: proves sorted and a permutation, not that flights with equal times keep their order (`Array.prototype.sort` is stable).
- FlightBoard: the board asks for the first 50 flights by departure time, so past flights can crowd upcoming ones out of the window. The model takes whatever list the server answers.
- FlightSearch.ApplyFilters: states which flights are kept and that none is added, not that they keep the answer's order.

## Findings

| source | as written | input that shows it | evidently intended | confidence | as-written member | corrected member |
|---|---|---|---|---|---|---|
| server/controllers/boardingController.js:237 | `mongoose.Types.ObjectId` is called, but the module never requires `mongoose` | any `GET /api/boarding/flight/:flightId/stats` request | report the flight's checked-in or boarded bookings as `total` and the count of queue entries in each status | not executed | BoardingController.GetBoardingStatsAsWritten | BoardingController.BoardingStats |
| public/js/flight-search.js:55-61 | origin and destination are joined into one `search` term, which the server matches as a single pattern against one field at a time (server/controllers/flightController.js:29-35) | origin "JFK", destination "LAX", flight "AA100" from JFK to LAX | the flight flying that route is found | not executed | FlightSearch.JoinedSearchMissesRoute | FlightSearch.SearchTermKeepsWanted |
| server/controllers/bookingController.js:20-33 | `getBookings` builds its filter from `status`, `flightId` and `search` only; the `passengerId` that public/js/my-bookings.js:77-81 sends to list one passenger's bookings is never read | a store holding one booking, of passenger 1, and the query `passengerId=2` | only the named passenger's bookings are listed | not executed | BookingController.PassengerIdIgnored | BookingController.ListBookingsForPassenger |

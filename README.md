# Seat hold and finalize in the movie seating service

This project models the seat-reservation core of the movie seating service.
It covers the `BusinessLogic` handlers `processSeatRequest` and `finalizeSeatBooking`, and the `Movies` entity they work on.

A seat request names a title, a showtime and a seat number:

- The handler asks the catalog for every showing with that title, in store order.
- It scans them and holds the seat in the first showing where the seat exists, the showtime matches and the seat is AVAILABLE.
- It puts HOLDING into that showing's own seat map, saves the showing, and records the hold in two process-local tables:
  - `movieMap`: correlator id to the saved `Movies` object;
  - `heldSeats`: that object, by reference, to the seat number.
- When no showing qualifies, it answers 500 with the reason recorded for the last showing it looked at.

Finalize looks the correlator id up:

- It puts BOOKED under the seat key `heldSeats` gives for the movie, whatever status that seat held.
- It saves the movie, and drops both table entries only when the saved object reads BOOKED under that key.
- It then answers "BOOKED".

Modules:

- `Wrappers`: `Option`, standing for a nullable Java reference.
- `Movies`:
  - `SeatStatus`, exactly the three values AVAILABLE, HOLDING and BOOKED.
  - `SeatMap`, a mutable `HashMap<String, SeatStatus>`. Its key type is `Option<string>`, because a Java `HashMap` accepts the null key.
  - `Movie`, a class with reference identity. `GetSeats` hands out the live map.
- `Topics`: the request and response messages and the response `Status`.
- `Postgres`: the catalog as an in-memory sequence of rows.
  - `save` answers with a configurable object (`stub`). When `stub` is null, `save` answers with the object it was given. This lets both branches of the read-back in finalize be reached.
- `SeatStateMachine`: the scan's decision as a pure function of what it reads (`DecideHold`), and the two seat transitions.
- `SeatBooking`: the `BusinessLogic` class. Its scan is a `while` loop proved against `DecideHold`.
- `Scenarios`: whole request flows on concrete stores, stated as method contracts.

Where the tests and the code disagree, the model follows the code:

- With no showings, the answer is the default message "Inernal Error Failed to process SeatRequest". The test at src/test/java/com/businessLogic/BusinessLogicTest.java:183 expects "No movies found with the title …".
- An unknown correlator id gives "Inernal Error No held seat found for correlatorId", with the misspelling of the code. The test at src/test/java/com/businessLogic/BusinessLogicTest.java:200 expects "Internal Error …".

`heldSeats` is keyed by object identity, and the model keeps that behaviour without fixing it:

- Two holds whose `save` answers with the same object share one `heldSeats` entry, so the second seat overwrites the first.
- Finalizing the first correlator id then books the second seat and leaves the first one HOLDING.
- Finalizing the second id then finds no seat and books the null key.
- `Scenarios.TwoHoldsOneShowing` and `Scenarios.FinalizeBothHolds` show this.

## Model

| member | source | states |
|---|---|---|
| Movies.SeatMap.Get | src/main/java/com/businessLogic/BusinessLogic.java:62-63 | `get` answers the stored status exactly when the key is present, and null otherwise |
| Movies.SeatMap.Put | src/main/java/com/businessLogic/BusinessLogic.java:71 | `put` stores the status under the key, adds the key if it is new, and leaves every other entry alone |
| Movies.Movie.Empty | src/main/java/com/postgres/models/Movies.java:40-42 | the JPA constructor leaves id, name, showtime and seats null |
| Movies.Movie.constructor | src/main/java/com/postgres/models/Movies.java:44-47 | the three-argument constructor sets name and showtime, ignores the genre, and leaves id and seats null |
| Movies.Movie.SetId | src/main/java/com/postgres/models/Movies.java:53-55 | `setId` stores the id and touches no other field |
| Movies.Movie.SetMovieName | src/main/java/com/postgres/models/Movies.java:61-63 | `setMovieName` stores the name and touches no other field |
| Movies.Movie.SetShowtime | src/main/java/com/postgres/models/Movies.java:69-71 | `setShowtime` stores the showtime and touches no other field |
| Movies.Movie.SetSeats | src/main/java/com/postgres/models/Movies.java:77-79 | `setSeats` stores the map object itself and touches no other field |
| Movies.SettersRoundTrip | src/main/java/com/postgres/models/Movies.java:49-79 | each getter returns what its setter stored; a put into the map `getSeats` returned is what the entity's map then holds |
| Movies.IdentityKeys | src/main/java/com/postgres/models/Movies.java:18-80 | two entities with equal fields are distinct objects and distinct map keys, each keeping its own value (the consequence for `heldSeats` is `Scenarios.TwoHoldsOneShowing`) |
| Postgres.WithName | src/main/java/com/postgres/PostgresService.java:15-17 | the lookup answers only rows with that title, and every row with that title |
| Postgres.WithNameKeepsOrder | src/main/java/com/postgres/PostgresService.java:15-17 | the lookup distributes over concatenation of the rows, so it keeps store order |
| Postgres.Catalog.FindByMovieName | src/main/java/com/postgres/PostgresService.java:15-17 | `findByMovieName` answers exactly the stored rows with that title |
| Postgres.Catalog.Reply | src/main/java/com/postgres/PostgresService.java:20-22 | `save` answers with the configured reply object when there is one, and otherwise with the object it was given |
| Postgres.Catalog.Save | src/main/java/com/postgres/PostgresService.java:19-22 | `save` records the write, stores the object if it is not yet a row, keeps the other rows, and answers with `Reply` |
| SeatStateMachine.ScanFindsFirstEligible | src/main/java/com/businessLogic/BusinessLogic.java:60-91 | the scan from any position holds in the first eligible showing; it fails exactly when none is eligible, with the reason recorded for the last showing |
| SeatStateMachine.DecideHold | src/main/java/com/businessLogic/BusinessLogic.java:57-92 | a hold happens if and only if some showing has the seat, the showtime and AVAILABLE; it is the first such showing; otherwise the reason is that of the last showing, or the default message when there were none |
| SeatStateMachine.LaterShowingsNotExamined | src/main/java/com/businessLogic/BusinessLogic.java:69-85 | once a showing is eligible, showings after it do not change the decision |
| SeatStateMachine.NoReentryToHolding | src/main/java/com/businessLogic/BusinessLogic.java:69 | a seat that is HOLDING or BOOKED is never chosen for a hold |
| SeatStateMachine.HoldSeat | src/main/java/com/businessLogic/BusinessLogic.java:71 | the hold sets the requested seat to HOLDING, keeps the key set of a map that has the seat, and leaves every other seat's status |
| SeatStateMachine.BookSeat | src/main/java/com/businessLogic/BusinessLogic.java:126 | finalize sets the key to BOOKED whatever it held, adds it if absent, and leaves every other seat's status |
| SeatBooking.CreateSeatResponse | src/main/java/com/businessLogic/BusinessLogic.java:100-111 | the response has topic "SeatResponse", the given status and creation time, and echoes correlator id, title, seat number and showtime |
| SeatBooking.BusinessLogic.constructor | src/main/java/com/businessLogic/BusinessLogic.java:33-40 | both tables start empty, and over a valid store the class invariant holds from the start |
| SeatBooking.BusinessLogic.HeldKey | src/main/java/com/businessLogic/BusinessLogic.java:124 | `heldSeats.get(movie)` is the recorded seat number, or null when the object has no entry |
| SeatBooking.BusinessLogic.ProcessSeatRequest | src/main/java/com/businessLogic/BusinessLogic.java:47-98 | the loop decides as `DecideHold` on the showings as they were. On a hold: 200 with a HOLDING response; only the chosen showing's seat map changes, by `HoldSeat`; only that showing is saved; `movieMap[id]` and `heldSeats[saved]` are recorded. Otherwise: 500 with the last reason; no save, no seat map and no table changes |
| SeatBooking.BusinessLogic.HoldAndRecord | src/main/java/com/businessLogic/BusinessLogic.java:71-77 | the seat goes to HOLDING in the showing's own map, the showing is saved once, and both tables record the object save answered with |
| SeatBooking.BusinessLogic.FinalizeSeatBooking | src/main/java/com/businessLogic/BusinessLogic.java:115-144 | an unknown id gives 500 "Inernal Error No held seat found for correlatorId" and changes nothing. A known id: the held key is set to BOOKED in the movie's own map, the movie is saved, and the answer is 200 "BOOKED". Both table entries are dropped if and only if the saved object reads BOOKED under that key |
| Scenarios.OneShowing | src/test/java/com/businessLogic/BusinessLogicTest.java:63-82 | the test's store: one evening showing with A1 to A5 free, and a save that answers with the same object |
| Scenarios.HoldOnOnlyShowing | src/main/java/com/businessLogic/BusinessLogic.java:56-97 | with one showing and any request time, a hold succeeds exactly when that showing is eligible; otherwise it is 500 with that showing's reason and nothing changes |
| Scenarios.FinalizeAgainstEchoingStore | src/main/java/com/businessLogic/BusinessLogic.java:124-143 | when save answers with the same object, finalize always reads BOOKED back and always drops both table entries |
| Scenarios.HoldThenFinalize | src/main/java/com/businessLogic/BusinessLogic.java:47-143 | for any request against a store whose save answers with the same object: when the seat is held, finalize answers "BOOKED", the seat ends BOOKED with the key set and every other seat's status kept, the id leaves `movieMap` and the movie leaves `heldSeats`, and a second finalize answers 500; when it is not held, the answer is 500 with the scan's reason |
| Scenarios.HoldFreeSeat | src/test/java/com/businessLogic/BusinessLogicTest.java:84-104 | holding free seat A5 answers 200 HOLDING echoing the title and A5, sets only A5 to HOLDING, and records A5 for the id |
| Scenarios.WrongShowtime | src/main/java/com/businessLogic/BusinessLogic.java:69-91 | a free seat requested for another start time is not held: 500 "already booked/held" and the seat stays AVAILABLE |
| Scenarios.HoldTakenSeat | src/main/java/com/businessLogic/BusinessLogic.java:87-91 | a second hold of A5 answers 500 "Seat A5 is already booked/held." and leaves the seat map as it was |
| Scenarios.NoShowings | src/main/java/com/businessLogic/BusinessLogic.java:57-59 | a title with no showings answers 500 with the default message |
| Scenarios.NoSuchSeat | src/main/java/com/businessLogic/BusinessLogic.java:63-67 | a seat the showing lacks answers 500 "Seat Z9 does not exist." |
| Scenarios.FinalizeUnknown | src/test/java/com/businessLogic/BusinessLogicTest.java:191-200 | finalize for an id never held answers 500 with the no-held-seat message |
| Scenarios.HoldThenFinalizeTwice | src/test/java/com/businessLogic/BusinessLogicTest.java:106-121 | hold then finalize leaves A5 BOOKED and answers "BOOKED"; a second finalize for the same id answers 500 |
| Scenarios.TwoHoldsOneShowing | src/main/java/com/businessLogic/BusinessLogic.java:76-77 | two holds whose save answers with one object leave both ids mapped to it and `heldSeats` holding only the second seat |
| Scenarios.FinalizeBothHolds | src/main/java/com/businessLogic/BusinessLogic.java:124-136 | after the overwrite, the first finalize books the second seat and leaves the first HOLDING; the second finalize books the null key |

## Left out

- Request showtime: the conversion of the request showtime to local time through the system time zone is not modelled. `ProcessSeatRequest` takes the converted time as its `local` parameter.
- Response timestamp: `new Date()` becomes the `now` parameter.
- `toJson` (Jackson serialisation): a hold's body is modelled as the `Json` response value, not as its text.
- Logging is left out, including the operator-precedence slip in the summary log line. The "is now being held" message is assigned to the reason variable after a hold but never read (a dead store), so it is left out.
- `@Transactional`, rollback and concurrency are left out; the model is single-threaded.
- The HTTP controller, schema validation, `JsonConverter`, the `Seat` entity and the Spring Data repository behind `PostgresService` are not part of this model. The catalog is an in-memory sequence of rows.
- SeatBooking.BusinessLogic.ProcessSeatRequest: requires every stored row, and the object save answers with, to have a title, a showtime and a seat map. This is stronger than the source needs: it throws at src/main/java/com/businessLogic/BusinessLogic.java:62 only for a row with the requested title and a null seat map, and at :69 only for such a row that has the seat but a null showtime; exceptions are not modelled. The title and showtime columns are non-null in the schema (src/main/java/com/postgres/models/Movies.java:29-33).
- SeatBooking.BusinessLogic.FinalizeSeatBooking: `save` never answers null here (a repository save never does). The `FAILED` answer, which needs a null result, is therefore not reached. In the source, the read-back dereferences that result before the null test anyway.
- A seat map cannot hold a null status here (`map<SeatKey, SeatStatus>`). A Java map can, for example when the stored JSON has `"A5": null`, and the scan would then report "does not exist" for that seat.
- The object identity of the store is that of the test's mock: every lookup and every save hands out the same live objects. A JPA repository may give each transaction its own instances, so two holds on one showing need not share a `heldSeats` entry there. Saving a seat map with a null key may also fail under the JSON converter, which the model does not capture; `Scenarios.TwoHoldsOneShowing` and `Scenarios.FinalizeBothHolds` show the behaviour of the mock store.
- `getId`, `getMovieName`, `getShowtime` and `getSeats` are functions without contracts of their own. `Movies.SettersRoundTrip` states their behaviour.
- `Topics.Status.Value` returns the constant's name and has no contract of its own. The scenarios use it through `FinalizeSeatBooking`.

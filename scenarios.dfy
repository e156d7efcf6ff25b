/**
 * Whole request flows against a store built in place: a hold on a free
 * seat, a second hold on the same seat, a title with no showings, an
 * unknown correlator id, a hold followed by its finalize, and two holds on
 * one showing that share a single `heldSeats` entry.
 */
module Scenarios {
  import opened Wrappers
  import opened Movies
  import opened Postgres
  import opened SeatStateMachine
  import opened SeatBooking
  import T = Topics

  const Title: string := "The Dark Knight"
  const Evening: LocalDateTime := LocalDateTime(2025, 11, 10, 21, 45, 0, 0)
  const At: T.Timestamp := T.Timestamp(1762807500000)
  const Now: T.Timestamp := T.Timestamp(1762800000000)

  /** Seats A1 to A5, all AVAILABLE. */
  function FreeRow(): (r: map<SeatKey, SeatStatus>)
    ensures r.Keys == {Some("A1"), Some("A2"), Some("A3"), Some("A4"), Some("A5")}
    ensures forall k :: k in r ==> r[k] == AVAILABLE
  {
    map[Some("A1") := AVAILABLE, Some("A2") := AVAILABLE, Some("A3") := AVAILABLE,
        Some("A4") := AVAILABLE, Some("A5") := AVAILABLE]
  }

  function Request(correlatorId: int, seat: string): (r: T.SeatRequest)
    ensures r.correlatorId == correlatorId && r.seatNumber == seat && r.movieName == Title
  {
    T.SeatRequest("SeatRequest", correlatorId, Title, At, seat)
  }

  /** One evening showing of the title with seats A1 to A5 free, in a store whose save answers with the same object. */
  method OneShowing() returns (logic: BusinessLogic, m: Movie)
    ensures fresh(logic) && fresh(m) && fresh(m.seats) && fresh(logic.postgresService)
    ensures logic.Valid()
    ensures logic.postgresService.rows == [m] && logic.postgresService.stub == null
    ensures logic.postgresService.writes == []
    ensures m.movieName == Some(Title) && m.showtime == Some(Evening)
    ensures m.seats != null && m.seats.entries == FreeRow()
    ensures logic.movieMap == map[] && logic.heldSeats == map[]
  {
    var seats := new SeatMap(FreeRow());
    m := new Movie(Title, Evening, Genre("Action"));
    m.SetSeats(seats);
    var store := new Catalog([m], null);
    logic := new BusinessLogic(store);
  }

  /**
   * A hold request against a store whose only row is `m` and whose save
   * answers with the same object: the outcome `DecideHold` gives for that one
   * showing.
   */
  method HoldOnOnlyShowing(logic: BusinessLogic, m: Movie, correlatorId: int, seat: string, local: LocalDateTime)
      returns (r: Response)
    requires logic.Valid()
    requires logic.postgresService.rows == [m] && logic.postgresService.stub == null
    requires m.movieName == Some(Title) && m.showtime == Some(Evening) && m.seats != null
    modifies logic, logic.postgresService, m`seats, m.seats
    ensures logic.Valid()
    ensures logic.postgresService.rows == [m] && logic.postgresService.stub == null
    ensures m.seats == old(m.seats) && m.movieName == Some(Title) && m.showtime == Some(Evening)
    ensures var s := Showing(Evening, old(m.seats.entries));
      if Eligible(s, seat, local) then
        && r.code == 200 && r.body == Json(CreateSeatResponse(Request(correlatorId, seat), T.Status.HOLDING, Now))
        && m.seats.entries == HoldSeat(old(m.seats.entries), seat)
        && logic.movieMap == old(logic.movieMap)[correlatorId := m]
        && logic.heldSeats == old(logic.heldSeats)[m := seat]
      else
        && r == Response(500, Text(Reason(s, seat)))
        && m.seats.entries == old(m.seats.entries)
        && logic.movieMap == old(logic.movieMap) && logic.heldSeats == old(logic.heldSeats)
  {
    assert (set x | x in logic.postgresService.rows) == {m};
    assert SeatMapsOf(logic.postgresService.rows) == {m.seats};
    ghost var showings, d;
    r, showings, d := logic.ProcessSeatRequest(Request(correlatorId, seat), local, Now);
    assert showings == [m] by {
      assert WithName([m], Title) == [m];
    }
  }

  /**
   * Finalize against a store whose save answers with the very object it was
   * given: the held key is always read back as BOOKED, so the ledger entry
   * is always dropped, and the store's rows stay as they were.
   */
  method FinalizeAgainstEchoingStore(logic: BusinessLogic, correlatorId: int) returns (r: Response)
    requires logic.Valid() && logic.postgresService.stub == null
    requires correlatorId in logic.movieMap
    modifies logic, logic.postgresService
    modifies {logic.movieMap[correlatorId]}`seats, logic.movieMap[correlatorId].seats
    ensures logic.Valid() && logic.postgresService.stub == null
    ensures var movie := old(logic.movieMap[correlatorId]);
      && r == Response(200, Text("BOOKED"))
      && movie.seats == old(movie.seats)
      && movie.seats.entries == BookSeat(old(movie.seats.entries), old(logic.HeldKey(movie)))
      && logic.postgresService.rows == old(logic.postgresService.rows)
      && logic.movieMap == old(logic.movieMap) - {correlatorId}
      && logic.heldSeats == old(logic.heldSeats) - {movie}
  {
    r := logic.FinalizeSeatBooking(correlatorId);
  }

  /**
   * Any request against a store whose save answers with the object it was
   * given: when the seat is held, finalize for the same correlator id books
   * it, answers "BOOKED" and drops the ledger entry, so a second finalize
   * answers 500.
   */
  method HoldThenFinalize(logic: BusinessLogic, request: T.SeatRequest, local: LocalDateTime, now: T.Timestamp)
      returns (hold: Response, booked: Response, again: Response, ghost showings: seq<Movie>, ghost d: Decision)
    requires logic.Valid() && logic.postgresService.stub == null
    modifies logic, logic.postgresService
    modifies (set m | m in logic.postgresService.rows)`seats, SeatMapsOf(logic.postgresService.rows)
    ensures showings == old(logic.postgresService.FindByMovieName(request.movieName))
    ensures forall i :: 0 <= i < |showings| ==> showings[i] in old(logic.postgresService.rows) && showings[i].WellFormed()
    ensures d == DecideHold(old(View(showings)), request.seatNumber, local)
    ensures d.Fail? ==> hold == Response(500, Text(d.reason)) && booked == hold && again == hold
    ensures d.Hold? ==> (d.index < |showings| &&
      var m := showings[d.index];
      && hold == Response(200, Json(CreateSeatResponse(request, T.Status.HOLDING, now)))
      && booked == Response(200, Text("BOOKED"))
      && m.seats != null && m.seats.entries.Keys == old(m.seats.entries.Keys)
      && m.seats.entries[Some(request.seatNumber)] == BOOKED
      && (forall k :: k in old(m.seats.entries) && k != Some(request.seatNumber) ==>
            m.seats.entries[k] == old(m.seats.entries[k]))
      && request.correlatorId !in logic.movieMap && m !in logic.heldSeats
      && again == Response(500, Text(NoHeldSeat)))
  {
    hold, showings, d := logic.ProcessSeatRequest(request, local, now);
    if hold.code == 200 {
      ghost var m := showings[d.index];
      assert logic.movieMap[request.correlatorId] == m && logic.HeldKey(m) == Some(request.seatNumber);
      booked := FinalizeAgainstEchoingStore(logic, request.correlatorId);
      again := logic.FinalizeSeatBooking(request.correlatorId);
    } else {
      booked, again := hold, hold;
    }
  }

  /**
   * A hold on a free seat answers 200 with a HOLDING response, sets that
   * seat alone to HOLDING, and records the showing for the correlator id.
   */
  method HoldFreeSeat() returns (r: Response, seats: map<SeatKey, SeatStatus>, seatOf: map<int, string>)
    ensures r.code == 200 && r.body.Json?
    ensures r.body.response.status == T.Status.HOLDING
    ensures r.body.response.correlatorId == 123456 && r.body.response.seatNumber == "A5"
    ensures r.body.response.movieName == Title
    ensures seats == FreeRow()[Some("A5") := HOLDING]
    ensures seatOf == map[123456 := "A5"]
  {
    var logic, m := OneShowing();
    r := HoldOnOnlyShowing(logic, m, 123456, "A5", Evening);
    seats := m.seats.entries;
    seatOf := map[123456 := logic.heldSeats[logic.movieMap[123456]]];
  }

  /**
   * A second hold on a seat that is already HOLDING answers 500 with the
   * "already booked/held" reason and leaves the seat map as the first hold left it.
   */
  method HoldTakenSeat() returns (first: Response, second: Response, seats: map<SeatKey, SeatStatus>)
    ensures first.code == 200
    ensures second == Response(500, Text(AlreadyTaken("A5")))
    ensures seats == FreeRow()[Some("A5") := HOLDING]
  {
    var logic, m := OneShowing();
    first := HoldOnOnlyShowing(logic, m, 123456, "A5", Evening);
    second := HoldOnOnlyShowing(logic, m, 654321, "A5", Evening);
    seats := m.seats.entries;
  }

  /** A title with no showings answers 500 with the default reason. */
  method NoShowings() returns (r: Response)
    ensures r == Response(500, Text(DefaultReason))
  {
    var store := new Catalog([], null);
    var logic := new BusinessLogic(store);
    ghost var showings, d;
    r, showings, d := logic.ProcessSeatRequest(Request(123456, "A5"), Evening, Now);
  }

  /** A seat number the showing does not have answers 500 with the "does not exist" reason. */
  method NoSuchSeat() returns (r: Response)
    ensures r == Response(500, Text(DoesNotExist("Z9")))
  {
    var logic, m := OneShowing();
    r := HoldOnOnlyShowing(logic, m, 123456, "Z9", Evening);
  }

  /**
   * A free seat requested for another start time of the same title is not
   * held: the answer is 500 with the "already booked/held" reason, and the
   * seat stays AVAILABLE.
   */
  method WrongShowtime() returns (r: Response, seats: map<SeatKey, SeatStatus>)
    ensures r == Response(500, Text(AlreadyTaken("A5")))
    ensures seats == FreeRow()
  {
    var logic, m := OneShowing();
    r := HoldOnOnlyShowing(logic, m, 123456, "A5", LocalDateTime(2025, 11, 10, 19, 0, 0, 0));
    seats := m.seats.entries;
  }

  /** Finalize for a correlator id nothing was held for answers 500. */
  method FinalizeUnknown() returns (r: Response)
    ensures r == Response(500, Text(NoHeldSeat))
  {
    var logic, m := OneShowing();
    r := logic.FinalizeSeatBooking(999);
  }

  /**
   * Hold, then finalize: the seat ends BOOKED, finalize answers "BOOKED" and
   * drops the ledger entry, so a second finalize for the same id answers 500.
   */
  method HoldThenFinalizeTwice() returns (hold: Response, booked: Response, again: Response,
                                          seats: map<SeatKey, SeatStatus>)
    ensures hold.code == 200
    ensures booked == Response(200, Text("BOOKED"))
    ensures again == Response(500, Text(NoHeldSeat))
    ensures seats == FreeRow()[Some("A5") := BOOKED]
  {
    var logic, m := OneShowing();
    hold := HoldOnOnlyShowing(logic, m, 123456, "A5", Evening);
    booked := FinalizeAgainstEchoingStore(logic, 123456);
    again := logic.FinalizeSeatBooking(123456);
    seats := m.seats.entries;
  }

  /**
   * Two holds on the same showing: save answers with the same object both
   * times, so both correlator ids map to that object and `heldSeats`, keyed
   * by it, keeps only the second seat.
   */
  method TwoHoldsOneShowing() returns (logic: BusinessLogic, m: Movie)
    ensures fresh(logic) && fresh(m) && fresh(m.seats) && fresh(logic.postgresService)
    ensures logic.Valid()
    ensures logic.postgresService.rows == [m] && logic.postgresService.stub == null
    ensures m.seats != null && m.seats.entries.Keys == FreeRow().Keys
    ensures m.seats.entries[Some("A1")] == HOLDING && m.seats.entries[Some("A2")] == HOLDING
    ensures logic.movieMap == map[1 := m, 2 := m] && logic.heldSeats == map[m := "A2"]
  {
    logic, m := OneShowing();
    var r := HoldOnOnlyShowing(logic, m, 1, "A1", Evening);
    r := HoldOnOnlyShowing(logic, m, 2, "A2", Evening);
  }

  /**
   * Finalizing both holds of `TwoHoldsOneShowing`: the first id books the
   * SECOND seat and leaves the first one HOLDING; the second id then finds no
   * seat for the object and books the null key. Both answer "BOOKED".
   */
  method FinalizeBothHolds() returns (booked1: Response, booked2: Response, seats: map<SeatKey, SeatStatus>)
    ensures booked1 == Response(200, Text("BOOKED")) && booked2 == Response(200, Text("BOOKED"))
    ensures seats.Keys == FreeRow().Keys + {None}
    ensures seats[Some("A1")] == HOLDING && seats[Some("A2")] == BOOKED && seats[None] == BOOKED
  {
    var logic, m := TwoHoldsOneShowing();
    booked1 := FinalizeAgainstEchoingStore(logic, 1);
    booked2 := FinalizeAgainstEchoingStore(logic, 2);
    seats := m.seats.entries;
  }
}

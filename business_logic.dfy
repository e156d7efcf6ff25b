/**
 * `BusinessLogic`: the seat hold and finalize handlers and the two
 * process-local tables that link a hold to its later finalize:
 *   movieMap:  correlator id -> the Movies object the hold saved
 *   heldSeats: that Movies object (by reference) -> the held seat number
 */
module SeatBooking {
  import opened Wrappers
  import opened Movies
  import opened Postgres
  import opened SeatStateMachine
  import T = Topics

  /** What a handler answers: the HTTP status code and the body. */
  datatype Body = Text(text: string) | Json(response: T.SeatResponse)
  datatype Response = Response(code: int, body: Body)

  const NoHeldSeat: string := "Inernal Error No held seat found for correlatorId"

  /** `createSeatResponse`: a response with the given status that echoes the request; `now` is the time of creation. */
  function CreateSeatResponse(request: T.SeatRequest, status: T.Status, now: T.Timestamp): (r: T.SeatResponse)
    ensures r.topicName == "SeatResponse" && r.status == status && r.timestamp == now
    ensures r.correlatorId == request.correlatorId && r.movieName == request.movieName
    ensures r.seatNumber == request.seatNumber && r.showtime == request.showtime
  {
    T.SeatResponse("SeatResponse", request.correlatorId, status, request.movieName,
                   request.seatNumber, request.showtime, now)
  }

  /** What the scan reads of each movie of `ms`: its start time and the current entries of its seat map. */
  ghost function View(ms: seq<Movie>): (v: seq<Showing>)
    requires forall i :: 0 <= i < |ms| ==> ms[i].showtime.Some? && ms[i].seats != null
    reads ms, SeatMapsOf(ms)
    ensures |v| == |ms|
    ensures forall i :: 0 <= i < |ms| ==> v[i] == Showing(ms[i].showtime.value, ms[i].seats.entries)
  {
    if ms == [] then []
    else [Showing(ms[0].showtime.value, ms[0].seats.entries)] + View(ms[1..])
  }

  class BusinessLogic {
    const postgresService: Catalog
    var movieMap: map<int, Movie>
    var heldSeats: map<Movie, string>

    constructor (postgresService: Catalog)
      ensures this.postgresService == postgresService
      ensures movieMap == map[] && heldSeats == map[]
      ensures postgresService.Valid() ==> Valid()
    {
      this.postgresService := postgresService;
      movieMap := map[];
      heldSeats := map[];
    }

    /** The store is valid and every movie the ledger refers to is a row or the store's reply object. */
    ghost predicate Valid()
      reads this, postgresService, postgresService.rows, postgresService.stub
    {
      && postgresService.Valid()
      && forall c :: c in movieMap ==> movieMap[c] in postgresService.rows || movieMap[c] == postgresService.stub
    }

    /** The seat key finalize reads for `movie`: its held seat number, or null when heldSeats lacks it. */
    function HeldKey(movie: Movie): (k: SeatKey)
      reads this
      ensures k.Some? <==> movie in heldSeats
      ensures k.Some? ==> k.value == heldSeats[movie]
    {
      if movie in heldSeats then Some(heldSeats[movie]) else None
    }

    /**
     * `processSeatRequest`. `local` is the request's showtime already
     * converted to the store's local time; `now` is the response timestamp.
     * The showings the title lookup returned are scanned in order; the first
     * eligible one (see `DecideHold`) gets the seat set to HOLDING in place,
     * is saved, and the ledger records the saved object. If none is eligible,
     * nothing changes and the last recorded reason is returned with 500.
     */
    method ProcessSeatRequest(request: T.SeatRequest, local: LocalDateTime, now: T.Timestamp)
        returns (r: Response, ghost showings: seq<Movie>, ghost d: Decision)
      requires Valid()
      modifies this, postgresService
      modifies (set m | m in postgresService.rows)`seats, SeatMapsOf(postgresService.rows)
      ensures Valid()
      ensures showings == old(postgresService.FindByMovieName(request.movieName))
      ensures forall i :: 0 <= i < |showings| ==> showings[i] in old(postgresService.rows) && showings[i].WellFormed()
      ensures d == DecideHold(old(View(showings)), request.seatNumber, local)
      ensures postgresService.rows == old(postgresService.rows)
      ensures postgresService.stub == old(postgresService.stub)
      ensures unchanged(postgresService.rows)
      // nothing is held: 500 with the last reason, and no state changes
      ensures d.Fail? ==>
        && r == Response(500, Text(d.reason))
        && movieMap == old(movieMap) && heldSeats == old(heldSeats)
        && postgresService.writes == old(postgresService.writes)
        && unchanged(old(SeatMapsOf(postgresService.rows)))
      // a hold: only the chosen showing's seat changes, it alone is saved, the ledger records the saved object
      ensures d.Hold? ==> (d.index < |showings| &&
        var m := showings[d.index];
        var saved := old(postgresService.Reply(m));
        && r == Response(200, Json(CreateSeatResponse(request, T.Status.HOLDING, now)))
        && m.seats.entries == HoldSeat(old(m.seats.entries), request.seatNumber)
        && unchanged(old(SeatMapsOf(postgresService.rows)) - {m.seats})
        && postgresService.writes == old(postgresService.writes) + [m]
        && movieMap == old(movieMap)[request.correlatorId := saved]
        && heldSeats == old(heldSeats)[saved := request.seatNumber])
    {
      var movieCheck := postgresService.FindByMovieName(request.movieName);
      showings := movieCheck;
      forall i | 0 <= i < |movieCheck|
        ensures movieCheck[i] in postgresService.rows && movieCheck[i].WellFormed()
      {
        assert movieCheck[i] in movieCheck;
      }
      ghost var shows := View(movieCheck);
      ghost var maps := SeatMapsOf(postgresService.rows);
      d := Scan(shows, request.seatNumber, local, 0, DefaultReason);
      var movie: Movie? := null;
      var logStatus := T.Status.FAILED;
      var logMessage := DefaultReason;
      var i := 0;
      while i < |movieCheck|
        invariant 0 <= i <= |movieCheck|
        invariant movie == null
        invariant unchanged(this, postgresService)
        invariant unchanged(postgresService.rows)
        invariant unchanged(maps)
        invariant Scan(shows, request.seatNumber, local, i, logMessage) == d
      {
        var m := movieCheck[i];
        var seats := m.GetSeats();
        var status := seats.Get(Some(request.seatNumber));
        if status.None? {
          logMessage := DoesNotExist(request.seatNumber);
          i := i + 1;
          continue;
        } else if m.showtime.value == local && status == Some(AVAILABLE) {
          movie := HoldAndRecord(m, seats, request.correlatorId, request.seatNumber);
          logStatus := T.Status.HOLDING;
          break;
        } else {
          logMessage := AlreadyTaken(request.seatNumber);
        }
        i := i + 1;
      }
      var seatResponse := CreateSeatResponse(request, logStatus, now);
      r := if movie != null then Response(200, Json(seatResponse)) else Response(500, Text(logMessage));
    }

    /**
     * The hold step of `processSeatRequest`: the seat is set to HOLDING in
     * the showing's own seat map, the showing is saved, and the ledger maps
     * the correlator id to the object save answered with, and that object to
     * the seat number.
     */
    method HoldAndRecord(m: Movie, seats: SeatMap, correlatorId: int, seatNumber: string) returns (movie: Movie)
      requires Valid() && m in postgresService.rows && m.seats == seats
      modifies this, postgresService, m`seats, seats
      ensures Valid()
      ensures movie == old(postgresService.Reply(m))
      ensures m.seats == seats
      ensures seats.entries == old(seats.entries)[Some(seatNumber) := HOLDING]
      ensures postgresService.rows == old(postgresService.rows)
      ensures postgresService.stub == old(postgresService.stub)
      ensures postgresService.writes == old(postgresService.writes) + [m]
      ensures movieMap == old(movieMap)[correlatorId := movie]
      ensures heldSeats == old(heldSeats)[movie := seatNumber]
    {
      seats.Put(Some(seatNumber), HOLDING);
      m.SetSeats(seats);
      movie := postgresService.Save(m);
      movieMap := movieMap[correlatorId := movie];
      heldSeats := heldSeats[movie := seatNumber];
    }

    /**
     * `finalizeSeatBooking`. An unknown correlator id answers 500 and
     * changes nothing. Otherwise the seat key heldSeats gives for the held
     * movie is set to BOOKED in place, whatever it held, and the movie is
     * saved; the ledger entries are removed only when the object save
     * answered with reads BOOKED under that key. The answer is then "BOOKED".
     */
    method FinalizeSeatBooking(correlatorId: int) returns (r: Response)
      requires Valid()
      modifies this, postgresService
      modifies (if correlatorId in movieMap then {movieMap[correlatorId]} else {})`seats
      modifies if correlatorId in movieMap then {movieMap[correlatorId].seats} else {}
      ensures Valid()
      ensures correlatorId !in old(movieMap) ==>
        && r == Response(500, Text(NoHeldSeat))
        && movieMap == old(movieMap) && heldSeats == old(heldSeats)
        && unchanged(postgresService)
      ensures correlatorId in old(movieMap) ==>
        var movie := old(movieMap[correlatorId]);
        var key := old(HeldKey(movie));
        var booking := old(postgresService.Reply(movie));
        && r == Response(200, Text(T.Status.BOOKED.Value()))
        && movie.seats == old(movie.seats)
        && movie.seats.entries == BookSeat(old(movie.seats.entries), key)
        && postgresService.writes == old(postgresService.writes) + [movie]
        && postgresService.rows == (if movie in old(postgresService.rows) then old(postgresService.rows)
                                    else old(postgresService.rows) + [movie])
        && postgresService.stub == old(postgresService.stub)
        && booking.seats != null
        && if key in booking.seats.entries && booking.seats.entries[key] == BOOKED
           then movieMap == old(movieMap) - {correlatorId} && heldSeats == old(heldSeats) - {movie}
           else movieMap == old(movieMap) && heldSeats == old(heldSeats)
    {
      if correlatorId !in movieMap {
        r := Response(500, Text(NoHeldSeat));
        return;
      }
      var movie := movieMap[correlatorId];
      var seat := HeldKey(movie);
      var seats := movie.GetSeats();
      seats.Put(seat, BOOKED);
      movie.SetSeats(seats);
      var bookingResponse := postgresService.Save(movie);
      var bookedSeats := bookingResponse.GetSeats();
      var readBack := bookedSeats.Get(seat);
      if readBack == Some(BOOKED) {
        movieMap := movieMap - {correlatorId};
        heldSeats := heldSeats - {movie};
      }
      r := Response(200, Text(T.Status.BOOKED.Value()));
    }
  }
}

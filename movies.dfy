/**
 * The `Movies` JPA entity: one showing of a movie (title, start time) with
 * its seat map, and the `SeatStatus` enumeration of a seat.
 *
 * `Movies` is a mutable record with reference identity: it defines neither
 * `equals` nor `hashCode`, so two objects with equal fields are still two
 * different keys of a `HashMap`. Its seat map is itself a mutable object, and
 * `getSeats` hands out that very object, so a caller that puts into it
 * changes the entity.
 */
module Movies {
  import opened Wrappers

  /** The three states of a seat, and no other. */
  datatype SeatStatus = AVAILABLE | HOLDING | BOOKED

  /** A `java.time.LocalDateTime`; `isEqual` on it is equality of all fields. */
  datatype LocalDateTime = LocalDateTime(year: int, month: int, day: int,
                                         hour: int, minute: int, second: int, nano: int)

  /** `MovieListRequest.Genre` is not part of this model; the constructor ignores it. */
  datatype Genre = Genre(name: string)

  /** A key of a Java `HashMap<String, _>`: a seat number, or `null` (None), which HashMap accepts. */
  type SeatKey = Option<string>

  /** The `Map<String, SeatStatus>` a showing owns (a HashMap: get, put). */
  class SeatMap {
    var entries: map<SeatKey, SeatStatus>

    constructor (entries: map<SeatKey, SeatStatus>)
      ensures this.entries == entries
    {
      this.entries := entries;
    }

    /** `get`: the status stored under `key`, or null when the key is absent. */
    function Get(key: SeatKey): (r: Option<SeatStatus>)
      reads this
      ensures r.Some? <==> key in entries
      ensures r.Some? ==> r.value == entries[key]
    {
      if key in entries then Some(entries[key]) else None
    }

    /** `put`: stores `status` under `key`, adding the key when it is new. */
    method Put(key: SeatKey, status: SeatStatus)
      modifies this
      ensures entries == old(entries)[key := status]
    {
      entries := entries[key := status];
    }
  }

  class Movie {
    var id: Option<int>
    var movieName: Option<string>
    var showtime: Option<LocalDateTime>
    var seats: SeatMap?

    /** The no-argument constructor JPA uses: every field is null. */
    constructor Empty()
      ensures id == None && movieName == None && showtime == None && seats == null
    {
      id := None;
      movieName := None;
      showtime := None;
      seats := null;
    }

    /** Sets the name and the showtime; `genre` is ignored, `id` and `seats` stay null. */
    constructor (movieName: string, showtime: LocalDateTime, genre: Genre)
      ensures this.movieName == Some(movieName) && this.showtime == Some(showtime)
      ensures id == None && seats == null
    {
      this.movieName := Some(movieName);
      this.showtime := Some(showtime);
      id := None;
      seats := null;
    }

    /** A row as the store holds it: the non-null columns are set and a seat map is attached. */
    predicate WellFormed()
      reads this
    {
      movieName.Some? && showtime.Some? && seats != null
    }

    function GetId(): Option<int>
      reads this
    {
      id
    }

    method SetId(id: Option<int>)
      modifies this`id
      ensures this.id == id
    {
      this.id := id;
    }

    function GetMovieName(): Option<string>
      reads this
    {
      movieName
    }

    method SetMovieName(movieName: Option<string>)
      modifies this`movieName
      ensures this.movieName == movieName
    {
      this.movieName := movieName;
    }

    function GetShowtime(): Option<LocalDateTime>
      reads this
    {
      showtime
    }

    method SetShowtime(showtime: Option<LocalDateTime>)
      modifies this`showtime
      ensures this.showtime == showtime
    {
      this.showtime := showtime;
    }

    /** Hands out the live seat map object, not a copy. */
    function GetSeats(): SeatMap?
      reads this
    {
      seats
    }

    method SetSeats(seats: SeatMap?)
      modifies this`seats
      ensures this.seats == seats
    {
      this.seats := seats;
    }
  }

  /**
   * Every setter is undone by its getter: what is stored is what is loaded,
   * and each setter leaves the other fields alone. Putting into the map that
   * `GetSeats` returned changes what the entity's seat map holds.
   */
  method SettersRoundTrip(m: Movie, id: Option<int>, name: Option<string>,
                          time: Option<LocalDateTime>, seats: SeatMap, key: SeatKey)
      returns (id': Option<int>, name': Option<string>, time': Option<LocalDateTime>,
               status: Option<SeatStatus>)
    modifies m, seats
    ensures id' == id && name' == name && time' == time
    ensures m.seats == seats && status == Some(BOOKED)
  {
    m.SetId(id);
    m.SetMovieName(name);
    m.SetShowtime(time);
    m.SetSeats(seats);
    id' := m.GetId();
    name' := m.GetMovieName();
    time' := m.GetShowtime();
    var live := m.GetSeats();
    live.Put(key, BOOKED);
    status := m.GetSeats().Get(key);
  }

  /**
   * Movies has no value equality: two entities with the same fields are two
   * keys of a map keyed by Movies, each keeping its own value. (Distinct
   * objects are distinct by the language itself; the consequence for the
   * service's `heldSeats` table is shown by `Scenarios.TwoHoldsOneShowing`.)
   */
  method IdentityKeys(name: string, time: LocalDateTime, genre: Genre)
      returns (held: map<Movie, string>, a: Movie, b: Movie)
    ensures a != b && a.movieName == b.movieName && a.showtime == b.showtime
    ensures held.Keys == {a, b} && held[a] == "A1" && held[b] == "A2"
  {
    a := new Movie(name, time, genre);
    b := new Movie(name, time, genre);
    held := map[a := "A1"];
    held := held[b := "A2"];
  }
}

/**
 * The decision `processSeatRequest` makes, as a function of what it reads:
 * the showings a title lookup returned (start time and seat map of each, in
 * store order), the requested seat number and the requested start time.
 * Also the two transitions the service applies to a seat map.
 */
module SeatStateMachine {
  import opened Wrappers
  import opened Movies

  /** What the scan reads of one showing. */
  datatype Showing = Showing(showtime: LocalDateTime, seats: map<SeatKey, SeatStatus>)

  /** The result of the scan: hold the seat in the showing at `index`, or fail with `reason`. */
  datatype Decision = Hold(index: nat) | Fail(reason: string)

  /** The reason reported when no showing was examined. */
  const DefaultReason: string := "Inernal Error Failed to process SeatRequest"

  function DoesNotExist(seat: string): string
  {
    "Seat " + seat + " does not exist."
  }

  function AlreadyTaken(seat: string): string
  {
    "Seat " + seat + " is already booked/held."
  }

  /** A showing in which the seat can be held: the seat exists, the start time matches, the seat is AVAILABLE. */
  predicate Eligible(s: Showing, seat: string, time: LocalDateTime)
  {
    Some(seat) in s.seats && s.showtime == time && s.seats[Some(seat)] == AVAILABLE
  }

  /** The reason recorded after examining a showing that is not eligible. */
  function Reason(s: Showing, seat: string): string
  {
    if Some(seat) !in s.seats then DoesNotExist(seat) else AlreadyTaken(seat)
  }

  /**
   * The scan from position `i` on, `last` being the reason recorded so far:
   * a showing lacking the seat records "does not exist" and the scan goes on;
   * a showing with the seat, the requested start time and an AVAILABLE
   * status ends the scan with a hold; any other showing records "already
   * booked/held" and the scan goes on. Past the end, the last reason stands.
   */
  function Scan(shows: seq<Showing>, seat: string, time: LocalDateTime, i: nat, last: string): Decision
    requires i <= |shows|
    decreases |shows| - i
  {
    if i == |shows| then Fail(last)
    else if Some(seat) !in shows[i].seats then Scan(shows, seat, time, i + 1, DoesNotExist(seat))
    else if shows[i].showtime == time && shows[i].seats[Some(seat)] == AVAILABLE then Hold(i)
    else Scan(shows, seat, time, i + 1, AlreadyTaken(seat))
  }

  /**
   * The scan holds in the first eligible showing from `i` on, and fails
   * exactly when there is none, with the reason recorded for the last
   * showing (or `last` when nothing was left to examine).
   */
  lemma {:induction false} ScanFindsFirstEligible(shows: seq<Showing>, seat: string, time: LocalDateTime,
                                                  i: nat, last: string)
    requires i <= |shows|
    decreases |shows| - i
    ensures var d := Scan(shows, seat, time, i, last);
      && (d.Hold? ==> i <= d.index < |shows| && Eligible(shows[d.index], seat, time))
      && (d.Hold? ==> forall j :: i <= j < d.index ==> !Eligible(shows[j], seat, time))
      && (d.Fail? ==> forall j :: i <= j < |shows| ==> !Eligible(shows[j], seat, time))
      && (d.Fail? ==> d.reason == if i == |shows| then last else Reason(shows[|shows| - 1], seat))
  {
    if i < |shows| {
      if Some(seat) !in shows[i].seats {
        ScanFindsFirstEligible(shows, seat, time, i + 1, DoesNotExist(seat));
      } else if !(shows[i].showtime == time && shows[i].seats[Some(seat)] == AVAILABLE) {
        ScanFindsFirstEligible(shows, seat, time, i + 1, AlreadyTaken(seat));
      }
    }
  }

  /**
   * The decision for a whole lookup result: hold in the FIRST eligible
   * showing if there is one; otherwise fail with the reason recorded for the
   * last showing, or the default reason when there were none.
   */
  function DecideHold(shows: seq<Showing>, seat: string, time: LocalDateTime): (d: Decision)
    ensures d.Hold? <==> exists j :: 0 <= j < |shows| && Eligible(shows[j], seat, time)
    ensures d.Hold? ==> d.index < |shows| && Eligible(shows[d.index], seat, time)
    ensures d.Hold? ==> forall j :: 0 <= j < d.index ==> !Eligible(shows[j], seat, time)
    ensures d.Fail? ==> d.reason == if shows == [] then DefaultReason else Reason(shows[|shows| - 1], seat)
  {
    ScanFindsFirstEligible(shows, seat, time, 0, DefaultReason);
    Scan(shows, seat, time, 0, DefaultReason)
  }

  /**
   * The scan stops at the first eligible showing: whatever follows it does
   * not change the decision.
   */
  lemma LaterShowingsNotExamined(shows: seq<Showing>, later: seq<Showing>, seat: string, time: LocalDateTime)
    requires DecideHold(shows, seat, time).Hold?
    ensures DecideHold(shows + later, seat, time) == DecideHold(shows, seat, time)
  {
    var d := DecideHold(shows, seat, time);
    var all := shows + later;
    assert all[d.index] == shows[d.index];
    forall j | 0 <= j < d.index
      ensures !Eligible(all[j], seat, time)
    {
      assert all[j] == shows[j];
    }
  }

  /** A seat that is HOLDING or BOOKED is never chosen for a hold. */
  lemma NoReentryToHolding(shows: seq<Showing>, seat: string, time: LocalDateTime, j: nat)
    requires j < |shows| && Some(seat) in shows[j].seats
    requires shows[j].seats[Some(seat)] in {HOLDING, BOOKED}
    ensures DecideHold(shows, seat, time) != Hold(j)
  {
  }

  /**
   * The hold transition: the requested seat becomes HOLDING. Applied to a
   * seat that exists (as `DecideHold` guarantees), the key set is unchanged.
   */
  function HoldSeat(seats: map<SeatKey, SeatStatus>, seat: string): (r: map<SeatKey, SeatStatus>)
    ensures r.Keys == seats.Keys + {Some(seat)}
    ensures r[Some(seat)] == HOLDING
    ensures forall k :: k in seats && k != Some(seat) ==> r[k] == seats[k]
  {
    seats[Some(seat) := HOLDING]
  }

  /**
   * The finalize transition: the key becomes BOOKED whatever it held before,
   * and is added when absent (as a Java put does, null key included).
   */
  function BookSeat(seats: map<SeatKey, SeatStatus>, key: SeatKey): (r: map<SeatKey, SeatStatus>)
    ensures r.Keys == seats.Keys + {key}
    ensures r[key] == BOOKED
    ensures forall k :: k in seats && k != key ==> r[k] == seats[k]
  {
    seats[key := BOOKED]
  }
}

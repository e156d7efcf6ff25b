/**
 * `PostgresService`, the seat catalog, at its boundary: a store of `Movies`
 * rows with lookup by title and save. The rows are the live entity objects,
 * so a change made to a row's seat map is what the store holds.
 */
module Postgres {
  import opened Wrappers
  import opened Movies

  /** The rows of `rows` whose title is `name`, in the order of `rows`. */
  function WithName(rows: seq<Movie>, name: string): (r: seq<Movie>)
    reads rows
    ensures |r| <= |rows|
    ensures forall m :: m in r ==> m in rows && m.movieName == Some(name)
    ensures forall i :: 0 <= i < |rows| && rows[i].movieName == Some(name) ==> rows[i] in r
  {
    if rows == [] then []
    else if rows[0].movieName == Some(name) then [rows[0]] + WithName(rows[1..], name)
    else WithName(rows[1..], name)
  }

  /** Filtering by title commutes with concatenation, so the lookup keeps store order. */
  lemma {:induction false} WithNameKeepsOrder(a: seq<Movie>, b: seq<Movie>, name: string)
    ensures WithName(a + b, name) == WithName(a, name) + WithName(b, name)
  {
    if a == [] {
      assert a + b == b;
    } else {
      assert (a + b)[0] == a[0];
      assert (a + b)[1..] == a[1..] + b;
      WithNameKeepsOrder(a[1..], b, name);
    }
  }

  /** The seat map objects the movies of `ms` own. */
  function SeatMapsOf(ms: seq<Movie>): (r: set<SeatMap>)
    reads ms
    ensures forall m :: m in ms && m.seats != null ==> m.seats in r
  {
    set m | m in ms && m.seats != null :: m.seats
  }

  class Catalog {
    /** The stored rows, in the order a query returns them. */
    var rows: seq<Movie>
    /** Every object handed to `save`, in call order. */
    var writes: seq<Movie>
    /**
     * What `save` answers with: when set, this one object, as a stubbed
     * repository does; when null, the very object it was given, as the
     * repository does for an entity it already manages.
     */
    var stub: Movie?

    constructor (rows: seq<Movie>, stub: Movie?)
      ensures this.rows == rows && this.stub == stub && writes == []
    {
      this.rows := rows;
      this.stub := stub;
      writes := [];
    }

    /** Every row, and the object save answers with, has its non-null columns and a seat map. */
    ghost predicate Valid()
      reads this, rows, stub
    {
      (forall m :: m in rows ==> m.WellFormed())
      && (stub != null ==> stub.WellFormed())
    }

    /** `findByMovieName`: the rows titled `name`, in store order; empty when there are none. */
    function FindByMovieName(name: string): (r: seq<Movie>)
      reads this, rows
      ensures forall m :: m in r ==> m in rows && m.movieName == Some(name)
      ensures forall i :: 0 <= i < |rows| && rows[i].movieName == Some(name) ==> rows[i] in r
    {
      WithName(rows, name)
    }

    /** The object `save(m)` answers with. */
    function Reply(m: Movie): (r: Movie)
      reads this
      ensures r == m || r == stub
      ensures stub == null ==> r == m
      ensures stub != null ==> r == stub
    {
      if stub != null then stub else m
    }

    /** `save`: records the write, stores `m` if it is not a row yet, and answers with `Reply(m)`. */
    method Save(m: Movie) returns (r: Movie)
      modifies this
      ensures r == old(Reply(m))
      ensures writes == old(writes) + [m]
      ensures rows == if m in old(rows) then old(rows) else old(rows) + [m]
      ensures stub == old(stub)
    {
      r := Reply(m);
      writes := writes + [m];
      if m !in rows {
        rows := rows + [m];
      }
    }
  }
}

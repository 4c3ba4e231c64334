/** The booking table of `booking_service`, kept in memory in insertion
    order: the conflict check and insert of `create_booking`, and the seat
    decoding of `list_bookings_for_event`. The clock that stamps
    `created_at` is a parameter. */
module Booking {
  import opened Wrappers
  import opened Text
  import opened Collections

  /** The `seats_json` column: a list of seat codes, or text that
      `json.loads` rejects. */
  datatype SeatsJson = Decoded(seats: seq<string>) | Malformed

  /** One row of the bookings table. */
  datatype StoredBooking = StoredBooking(id: int, eventId: int, name: string, email: string,
                                         seatsJson: SeatsJson, createdAt: string)

  /** A booking as `list_bookings_for_event` returns it. */
  datatype BookingView = BookingView(id: int, name: string, email: string, seats: seq<string>, createdAt: string)

  /** Why `create_booking` raises. */
  datatype BookingError = NoSeatsSelected | AlreadyReserved(conflicts: seq<string>)

  /** The seats a row holds: its decoded list, none when it does not decode. */
  function SeatsOf(b: StoredBooking): seq<string> {
    match b.seatsJson
    case Decoded(seats) => seats
    case Malformed => []
  }

  // ---------------------------------------------------------------------
  // The requested seats.

  /** One requested seat: its normal form, or nothing when it is blank. */
  function NormalOf(s: string): Option<string> {
    if Trim(s) != "" then Some(TrimUpper(s)) else None
  }

  /** `[s.strip().upper() for s in seats if s.strip()]`. */
  function NormalizeSeats(seats: seq<string>): seq<string> {
    FilterMap(NormalOf, seats)
  }

  /** The normalised list holds the normal form of every non-blank
      requested seat and nothing else. */
  lemma NormalizeSeatsMembers(seats: seq<string>)
    ensures forall i :: 0 <= i < |seats| && Trim(seats[i]) != "" ==> TrimUpper(seats[i]) in NormalizeSeats(seats)
    ensures forall x :: x in NormalizeSeats(seats) ==>
      exists i :: 0 <= i < |seats| && Trim(seats[i]) != "" && x == TrimUpper(seats[i])
  {
    FilterMapMembers(NormalOf, seats);
    assert forall i :: 0 <= i < |seats| && Trim(seats[i]) != "" ==> NormalOf(seats[i]) == Some(TrimUpper(seats[i]));
    forall x | x in NormalizeSeats(seats)
      ensures exists i :: 0 <= i < |seats| && Trim(seats[i]) != "" && x == TrimUpper(seats[i])
    {
      var i :| 0 <= i < |seats| && NormalOf(seats[i]) == Some(x);
      assert Trim(seats[i]) != "" && x == TrimUpper(seats[i]);
    }
  }

  /** Every normalised seat is non-blank and already in normal form. */
  lemma NormalizedAreNormal(seats: seq<string>)
    ensures forall x :: x in NormalizeSeats(seats) ==> x != "" && TrimUpper(x) == x
  {
    NormalizeSeatsMembers(seats);
    forall x | x in NormalizeSeats(seats)
      ensures x != "" && TrimUpper(x) == x
    {
      var i :| 0 <= i < |seats| && Trim(seats[i]) != "" && x == TrimUpper(seats[i]);
      TrimUpperIdempotent(seats[i]);
    }
  }

  /** Normalising the normalised seats again gives their own set. */
  lemma NormalizedImage(seats: seq<string>)
    ensures Image(TrimUpper, NormalizeSeats(seats)) == set x | x in NormalizeSeats(seats)
  {
    var norm := NormalizeSeats(seats);
    NormalizedAreNormal(seats);
    assert forall i :: 0 <= i < |norm| ==> norm[i] in norm;
    ImageFixed(TrimUpper, norm);
  }

  /** Nothing is left exactly when every requested seat is blank. */
  lemma NormalizeSeatsEmpty(seats: seq<string>)
    ensures NormalizeSeats(seats) == [] <==> forall i :: 0 <= i < |seats| ==> Trim(seats[i]) == ""
  {
    FilterMapEmpty(NormalOf, seats);
    assert forall i :: 0 <= i < |seats| ==> (NormalOf(seats[i]).None? <==> Trim(seats[i]) == "");
  }

  /** With no blank seat, the list keeps its order and its duplicates:
      entry i is the normal form of requested seat i. */
  lemma {:induction false} NormalizeKeepsOrder(seats: seq<string>)
    requires forall i :: 0 <= i < |seats| ==> Trim(seats[i]) != ""
    ensures |NormalizeSeats(seats)| == |seats|
    ensures forall i :: 0 <= i < |seats| ==> NormalizeSeats(seats)[i] == TrimUpper(seats[i])
  {
    if seats != [] {
      var init := seats[..|seats| - 1];
      NormalizeKeepsOrder(init);
      assert NormalOf(seats[|seats| - 1]) == Some(TrimUpper(seats[|seats| - 1]));
    }
  }

  // ---------------------------------------------------------------------
  // The seats already reserved for an event.

  /** The union of the normalised seats of the event's bookings. */
  function ReservedOf(rows: seq<StoredBooking>, eventId: int): set<string> {
    if rows == [] then {}
    else
      var b := rows[|rows| - 1];
      ReservedOf(rows[..|rows| - 1], eventId) + (if b.eventId == eventId then Image(TrimUpper, SeatsOf(b)) else {})
  }

  lemma ReservedOfSnoc(rows: seq<StoredBooking>, b: StoredBooking, eventId: int)
    ensures ReservedOf(rows + [b], eventId) ==
      ReservedOf(rows, eventId) + (if b.eventId == eventId then Image(TrimUpper, SeatsOf(b)) else {})
  {
    assert (rows + [b])[..|rows|] == rows;
  }

  /** The reserved set holds the seats of every booking of the event, and
      only those. */
  lemma {:induction false} ReservedOfMembers(rows: seq<StoredBooking>, eventId: int)
    ensures forall i :: 0 <= i < |rows| && rows[i].eventId == eventId ==>
      Image(TrimUpper, SeatsOf(rows[i])) <= ReservedOf(rows, eventId)
    ensures forall x :: x in ReservedOf(rows, eventId) ==>
      exists i :: 0 <= i < |rows| && rows[i].eventId == eventId && x in Image(TrimUpper, SeatsOf(rows[i]))
  {
    if rows != [] {
      var init := rows[..|rows| - 1];
      ReservedOfMembers(init, eventId);
      assert forall i :: 0 <= i < |init| ==> init[i] == rows[i];
    }
  }

  /** The inner loop of `create_booking`: one booking's seats, normalised,
      added to the set. */
  method AddSeatsOf(reserved: set<string>, existing: seq<string>) returns (r: set<string>)
    ensures r == reserved + Image(TrimUpper, existing)
  {
    r := reserved;
    for j := 0 to |existing|
      invariant r == reserved + Image(TrimUpper, existing[..j])
    {
      assert existing[..j + 1] == existing[..j] + [existing[j]];
      ImageSnoc(TrimUpper, existing[..j], existing[j]);
      r := r + {TrimUpper(existing[j])};
    }
    assert existing[..|existing|] == existing;
  }

  /** The outer loop of `create_booking`, over the event's bookings. */
  method CollectReserved(rows: seq<StoredBooking>, eventId: int) returns (reserved: set<string>)
    ensures reserved == ReservedOf(rows, eventId)
  {
    reserved := {};
    for i := 0 to |rows|
      invariant reserved == ReservedOf(rows[..i], eventId)
    {
      assert rows[..i + 1] == rows[..i] + [rows[i]];
      ReservedOfSnoc(rows[..i], rows[i], eventId);
      if rows[i].eventId == eventId {
        reserved := AddSeatsOf(reserved, SeatsOf(rows[i]));
      }
    }
    assert rows[..|rows|] == rows;
  }

  // ---------------------------------------------------------------------
  // The decision of `create_booking`.

  /** `reserved_seats.intersection(normalized_seats)`. */
  function Conflicts(reserved: set<string>, requested: seq<string>): set<string> {
    set x | x in requested && x in reserved
  }

  /** What `create_booking` does with a request: refuses an empty one,
      refuses one that meets reserved seats, or books the normalised list. */
  datatype Verdict = NothingRequested | Taken(conflicts: set<string>) | Free(seats: seq<string>)

  function Decide(rows: seq<StoredBooking>, eventId: int, seats: seq<string>): Verdict {
    var norm := NormalizeSeats(seats);
    if norm == [] then NothingRequested
    else
      var c := Conflicts(ReservedOf(rows, eventId), norm);
      if c != {} then Taken(c) else Free(norm)
  }

  /** No requested seat meets the reserved set exactly when no non-blank
      requested seat is reserved in normal form. */
  lemma NoConflictIff(seats: seq<string>, reserved: set<string>)
    ensures Conflicts(reserved, NormalizeSeats(seats)) == {} <==>
      forall i :: 0 <= i < |seats| && Trim(seats[i]) != "" ==> TrimUpper(seats[i]) !in reserved
  {
    var norm := NormalizeSeats(seats);
    NormalizeSeatsMembers(seats);
    if Conflicts(reserved, norm) == {} {
      forall i | 0 <= i < |seats| && Trim(seats[i]) != ""
        ensures TrimUpper(seats[i]) !in reserved
      {
        assert TrimUpper(seats[i]) in norm;
        assert TrimUpper(seats[i]) !in Conflicts(reserved, norm);
      }
    } else {
      var x :| x in Conflicts(reserved, norm);
      var i :| 0 <= i < |seats| && Trim(seats[i]) != "" && x == TrimUpper(seats[i]);
      assert TrimUpper(seats[i]) in reserved;
    }
  }

  /** A request is booked exactly when some requested seat is not blank
      and no requested seat is reserved by a booking of the event; it is
      then booked with its normalised list. */
  lemma DecideFree(rows: seq<StoredBooking>, eventId: int, seats: seq<string>)
    ensures Decide(rows, eventId, seats).Free? <==>
      (exists i :: 0 <= i < |seats| && Trim(seats[i]) != "")
      && forall i :: 0 <= i < |seats| && Trim(seats[i]) != "" ==> TrimUpper(seats[i]) !in ReservedOf(rows, eventId)
    ensures Decide(rows, eventId, seats).Free? ==> Decide(rows, eventId, seats).seats == NormalizeSeats(seats)
  {
    NormalizeSeatsEmpty(seats);
    NoConflictIff(seats, ReservedOf(rows, eventId));
  }

  /** Every seat a refusal lists was requested and is held by an earlier
      booking of the same event. */
  lemma TakenSeatsAreBooked(rows: seq<StoredBooking>, eventId: int, seats: seq<string>)
    requires Decide(rows, eventId, seats).Taken?
    ensures Decide(rows, eventId, seats).conflicts != {}
    ensures forall x :: x in Decide(rows, eventId, seats).conflicts ==>
      x in NormalizeSeats(seats)
      && exists i :: 0 <= i < |rows| && rows[i].eventId == eventId && x in Image(TrimUpper, SeatsOf(rows[i]))
  {
    ReservedOfMembers(rows, eventId);
  }

  /** A request that names the same free seat twice is booked, with both
      copies: only earlier bookings are checked. */
  lemma RepeatedFreeSeatBooked(rows: seq<StoredBooking>, eventId: int, s: string)
    requires Trim(s) != "" && TrimUpper(s) !in ReservedOf(rows, eventId)
    ensures Decide(rows, eventId, [s, s]) == Free([TrimUpper(s), TrimUpper(s)])
  {
    NormalizeKeepsOrder([s, s]);
  }

  // ---------------------------------------------------------------------
  // What a booking changes.

  /** The row a successful request appends. */
  function NewRow(id: int, eventId: int, name: string, email: string, seats: seq<string>, createdAt: string): StoredBooking {
    StoredBooking(id, eventId, name, email, Decoded(seats), createdAt)
  }

  /** After a booking, the event's reserved seats are the old ones and the
      booked ones; every other event's are unchanged. */
  lemma BookingReserves(rows: seq<StoredBooking>, eventId: int, seats: seq<string>, id: int, name: string,
                        email: string, createdAt: string, other: int)
    requires Decide(rows, eventId, seats).Free?
    ensures var b := NewRow(id, eventId, name, email, NormalizeSeats(seats), createdAt);
      && ReservedOf(rows + [b], eventId) == ReservedOf(rows, eventId) + set x | x in NormalizeSeats(seats)
      && (other != eventId ==> ReservedOf(rows + [b], other) == ReservedOf(rows, other))
  {
    var norm := NormalizeSeats(seats);
    var b := NewRow(id, eventId, name, email, norm, createdAt);
    ReservedOfSnoc(rows, b, eventId);
    ReservedOfSnoc(rows, b, other);
    NormalizedImage(seats);
  }

  /** No seat is held by two bookings of the same event. */
  predicate NoDoubleBooking(rows: seq<StoredBooking>) {
    forall i, j :: 0 <= i < j < |rows| && rows[i].eventId == rows[j].eventId ==>
      Image(TrimUpper, SeatsOf(rows[i])) !! Image(TrimUpper, SeatsOf(rows[j]))
  }

  /** A booking the check lets through keeps every seat held at most once. */
  lemma BookingKeepsSeatsUnique(rows: seq<StoredBooking>, eventId: int, seats: seq<string>, id: int, name: string,
                                email: string, createdAt: string)
    requires NoDoubleBooking(rows) && Decide(rows, eventId, seats).Free?
    ensures NoDoubleBooking(rows + [NewRow(id, eventId, name, email, NormalizeSeats(seats), createdAt)])
  {
    var norm := NormalizeSeats(seats);
    var b := NewRow(id, eventId, name, email, norm, createdAt);
    FreeSeatsUnreserved(rows, eventId, seats);
    ReservedOfMembers(rows, eventId);
    AppendKeepsUnique(rows, b, ReservedOf(rows, eventId));
  }

  /** The seats a request books are not reserved for the event. */
  lemma FreeSeatsUnreserved(rows: seq<StoredBooking>, eventId: int, seats: seq<string>)
    requires Decide(rows, eventId, seats).Free?
    ensures Image(TrimUpper, NormalizeSeats(seats)) !! ReservedOf(rows, eventId)
  {
    var norm := NormalizeSeats(seats);
    NormalizedImage(seats);
    assert Conflicts(ReservedOf(rows, eventId), norm) == {};
    forall x | x in norm
      ensures x !in ReservedOf(rows, eventId)
    {
      assert x !in Conflicts(ReservedOf(rows, eventId), norm);
    }
  }

  /** Appending a row whose seats miss every seat the earlier rows of its
      event hold keeps each seat held at most once. */
  lemma AppendKeepsUnique(rows: seq<StoredBooking>, b: StoredBooking, held: set<string>)
    requires NoDoubleBooking(rows) && Image(TrimUpper, SeatsOf(b)) !! held
    requires forall i :: 0 <= i < |rows| && rows[i].eventId == b.eventId ==> Image(TrimUpper, SeatsOf(rows[i])) <= held
    ensures NoDoubleBooking(rows + [b])
  {
    var all := rows + [b];
    forall i, j | 0 <= i < j < |all| && all[i].eventId == all[j].eventId
      ensures Image(TrimUpper, SeatsOf(all[i])) !! Image(TrimUpper, SeatsOf(all[j]))
    {
      if j < |rows| {
        assert all[i] == rows[i] && all[j] == rows[j];
      } else {
        assert all[i] == rows[i] && all[j] == b;
      }
    }
  }

  // ---------------------------------------------------------------------
  // Listing.

  /** The row as `list_bookings_for_event` returns it; seats that do not
      decode read as none. */
  function ViewOf(b: StoredBooking): BookingView {
    BookingView(b.id, b.name, b.email, SeatsOf(b), b.createdAt)
  }

  /** The event's bookings, in insertion order. */
  function Listed(rows: seq<StoredBooking>, eventId: int): seq<BookingView> {
    if rows == [] then []
    else
      var b := rows[|rows| - 1];
      Listed(rows[..|rows| - 1], eventId) + (if b.eventId == eventId then [ViewOf(b)] else [])
  }

  lemma ListedSnoc(rows: seq<StoredBooking>, b: StoredBooking, eventId: int)
    ensures Listed(rows + [b], eventId) == Listed(rows, eventId) + (if b.eventId == eventId then [ViewOf(b)] else [])
  {
    assert (rows + [b])[..|rows|] == rows;
  }

  /** Every booking of the event is listed, and only those; a booking
      whose seats do not decode is listed with no seats. */
  lemma {:induction false} ListedMembers(rows: seq<StoredBooking>, eventId: int)
    ensures forall i :: 0 <= i < |rows| && rows[i].eventId == eventId ==> ViewOf(rows[i]) in Listed(rows, eventId)
    ensures forall v :: v in Listed(rows, eventId) ==>
      exists i :: 0 <= i < |rows| && rows[i].eventId == eventId && v == ViewOf(rows[i])
    ensures forall i :: 0 <= i < |rows| && rows[i].seatsJson.Malformed? ==> ViewOf(rows[i]).seats == []
  {
    if rows != [] {
      var init := rows[..|rows| - 1];
      ListedMembers(init, eventId);
      assert forall i :: 0 <= i < |init| ==> init[i] == rows[i];
    }
  }

  /** Rows in the order of their creation times (ISO 8601 timestamps of
      one width compare as strings in time order). */
  predicate ByCreation(rows: seq<StoredBooking>) {
    forall i, j :: 0 <= i < j < |rows| ==> LexLe(rows[i].createdAt, rows[j].createdAt)
  }

  /** Listed bookings in the order of their creation times: what
      `ORDER BY created_at` returns. */
  predicate ViewsByCreation(vs: seq<BookingView>) {
    forall i, j :: 0 <= i < j < |vs| ==> LexLe(vs[i].createdAt, vs[j].createdAt)
  }

  /** When rows were stored in creation order, the listing in row order is
      ordered by creation time, so it agrees with `ORDER BY created_at`
      (up to the order of bookings made within the same second). */
  lemma {:induction false} ListedByCreation(rows: seq<StoredBooking>, eventId: int)
    requires ByCreation(rows)
    ensures ViewsByCreation(Listed(rows, eventId))
  {
    if rows != [] {
      var init := rows[..|rows| - 1];
      var b := rows[|rows| - 1];
      assert ByCreation(init);
      ListedByCreation(init, eventId);
      ListedMembers(init, eventId);
      var l := Listed(init, eventId);
      forall i | 0 <= i < |l|
        ensures LexLe(l[i].createdAt, b.createdAt)
      {
        assert l[i] in l;
        var k :| 0 <= k < |init| && init[k].eventId == eventId && l[i] == ViewOf(init[k]);
        assert init[k] == rows[k];
      }
    }
  }

  /** Appending a row created no earlier than the last one keeps the rows
      in creation order. */
  lemma AppendByCreation(rows: seq<StoredBooking>, b: StoredBooking)
    requires ByCreation(rows)
    requires rows == [] || LexLe(rows[|rows| - 1].createdAt, b.createdAt)
    ensures ByCreation(rows + [b])
  {
    var r := rows + [b];
    forall i, j | 0 <= i < j < |r|
      ensures LexLe(r[i].createdAt, r[j].createdAt)
    {
      if j == |rows| && i < |rows| - 1 {
        LexLeTransitive(rows[i].createdAt, rows[|rows| - 1].createdAt, b.createdAt);
      }
    }
  }

  /** A booking made for an event is listed last for it, with its
      normalised seats; other events' listings are unchanged. */
  lemma BookingListed(rows: seq<StoredBooking>, eventId: int, seats: seq<string>, id: int, name: string,
                      email: string, createdAt: string, other: int)
    requires Decide(rows, eventId, seats).Free?
    ensures var b := NewRow(id, eventId, name, email, NormalizeSeats(seats), createdAt);
      && Listed(rows + [b], eventId) == Listed(rows, eventId) + [BookingView(id, name, email, NormalizeSeats(seats), createdAt)]
      && (other != eventId ==> Listed(rows + [b], other) == Listed(rows, other))
  {
    var b := NewRow(id, eventId, name, email, NormalizeSeats(seats), createdAt);
    ListedSnoc(rows, b, eventId);
    ListedSnoc(rows, b, other);
  }

  // ---------------------------------------------------------------------
  // The store.

  class BookingStore {
    /** The rows, in insertion order. */
    var rows: seq<StoredBooking>
    /** The id the next row gets (the table's autoincrement). */
    var nextId: int

    /** Ids are positive and increase with insertion; rows are stored in
        creation order. */
    predicate Valid()
      reads this
    {
      0 < nextId
      && (forall i :: 0 <= i < |rows| ==> 0 < rows[i].id < nextId)
      && (forall i, j :: 0 <= i < j < |rows| ==> rows[i].id < rows[j].id)
      && ByCreation(rows)
    }

    constructor()
      ensures Valid() && rows == [] && nextId == 1
    {
      rows := [];
      nextId := 1;
    }

    /** `create_booking`: a request with no non-blank seat is refused, one
        that meets seats already reserved for the event is refused with
        those seats sorted, and otherwise one row holding the normalised
        list is appended. A refused request changes nothing. The creation
        time is the clock's reading, which does not go back. */
    method CreateBooking(eventId: int, name: string, email: string, seats: seq<string>, createdAt: string)
      returns (error: Option<BookingError>)
      requires Valid()
      requires rows == [] || LexLe(rows[|rows| - 1].createdAt, createdAt)
      modifies this
      ensures Valid()
      ensures match Decide(old(rows), eventId, seats)
        case NothingRequested =>
          error == Some(NoSeatsSelected) && rows == old(rows) && nextId == old(nextId)
        case Taken(c) =>
          && error.Some? && error.value.AlreadyReserved?
          && StrictlySorted(error.value.conflicts) && (forall x :: x in error.value.conflicts <==> x in c)
          && rows == old(rows) && nextId == old(nextId)
        case Free(norm) =>
          && error.None? && nextId == old(nextId) + 1
          && rows == old(rows) + [NewRow(old(nextId), eventId, name, email, norm, createdAt)]
    {
      var norm := NormalizeSeats(seats);
      if norm == [] {
        return Some(NoSeatsSelected);
      }
      var reserved := CollectReserved(rows, eventId);
      var conflict := Conflicts(reserved, norm);
      if conflict != {} {
        var sorted := SortStrings(conflict);
        return Some(AlreadyReserved(sorted));
      }
      var b := NewRow(nextId, eventId, name, email, norm, createdAt);
      AppendByCreation(rows, b);
      rows := rows + [b];
      nextId := nextId + 1;
      return None;
    }

    /** `list_bookings_for_event`: the loop that decodes each row. */
    method ListBookings(eventId: int) returns (bookings: seq<BookingView>)
      requires Valid()
      ensures bookings == Listed(rows, eventId)
      ensures ViewsByCreation(bookings)
    {
      ListedByCreation(rows, eventId);
      bookings := [];
      for i := 0 to |rows|
        invariant bookings == Listed(rows[..i], eventId)
      {
        assert rows[..i + 1] == rows[..i] + [rows[i]];
        ListedSnoc(rows[..i], rows[i], eventId);
        var b := rows[i];
        if b.eventId == eventId {
          var seats := match b.seatsJson case Decoded(s) => s case Malformed => [];
          bookings := bookings + [BookingView(b.id, b.name, b.email, seats, b.createdAt)];
        }
      }
      assert rows[..|rows|] == rows;
    }
  }
}

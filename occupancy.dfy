/** The admin tables: events with their occupancy, halls with their
    capacity. The hall and the event's bookings come from the services and
    are parameters here. */
module Occupancy {
  import opened Wrappers
  import opened Text
  import opened Numeric
  import opened Records
  import opened Booking
  import Common

  /** The elements of a layout as the admin tables read it: a list as it
      is, a dict's `items` (none when missing), anything else none. */
  function LayoutItems(layout: LayoutField): seq<ItemDict> {
    match layout
    case LayoutList(items) => items
    case LayoutDict(entries, _, _) => entries.GetOr([])
    case _ => []
  }

  /** The hall's seat count: its elements of type "seat". */
  function TotalSeats(hall: Hall): nat {
    SeatCount(LayoutItems(hall.layout))
  }

  /** Σ len(seats) over the bookings. */
  function Occupied(bookings: seq<BookingView>): nat {
    if bookings == [] then 0
    else Occupied(bookings[..|bookings| - 1]) + |bookings[|bookings| - 1].seats|
  }

  lemma OccupiedSnoc(bookings: seq<BookingView>, b: BookingView)
    ensures Occupied(bookings + [b]) == Occupied(bookings) + |b.seats|
  {
    assert (bookings + [b])[..|bookings|] == bookings;
  }

  /** `calculate_occupancy_ratio`: occupied seats over the hall's seats; 0
      for an unknown hall or a hall without seats. */
  function OccupancyRatio(bookings: seq<BookingView>, hall: Option<Hall>): (r: real)
    ensures r >= 0.0
    ensures hall.None? || TotalSeats(hall.value) == 0 ==> r == 0.0
    ensures hall.Some? && TotalSeats(hall.value) > 0 ==> r * TotalSeats(hall.value) as real == Occupied(bookings) as real
  {
    if hall.None? then 0.0
    else
      var total := TotalSeats(hall.value);
      if total == 0 then 0.0 else Occupied(bookings) as real / total as real
  }

  /** The ratio is at most 1 while no more seats are booked than the hall
      has, exactly 1 when they are all booked, and above 1 otherwise: it is
      not capped. */
  lemma OccupancyRatioBounds(bookings: seq<BookingView>, hall: Hall)
    requires TotalSeats(hall) > 0
    ensures Occupied(bookings) <= TotalSeats(hall) <==> OccupancyRatio(bookings, Some(hall)) <= 1.0
    ensures Occupied(bookings) == TotalSeats(hall) <==> OccupancyRatio(bookings, Some(hall)) == 1.0
  {
    RatioAgainstOne(Occupied(bookings) as real, TotalSeats(hall) as real, OccupancyRatio(bookings, Some(hall)));
  }

  lemma RatioAgainstOne(o: real, t: real, r: real)
    requires t > 0.0 && r * t == o
    ensures o <= t <==> r <= 1.0
    ensures o == t <==> r == 1.0
  {
    assert (r - 1.0) * t == o - t;
    if r > 1.0 {
      assert (r - 1.0) * t > 0.0;
    } else if r < 1.0 {
      assert (1.0 - r) * t > 0.0;
    }
  }

  /** `calculate_occupancy_text`. */
  function OccupancyText(bookings: seq<BookingView>, hall: Option<Hall>): string {
    PercentText(OccupancyRatio(bookings, hall))
  }

  /** A hall with no booking shows "0%", a fully booked one "100%". */
  lemma OccupancyTextEnds(bookings: seq<BookingView>, hall: Hall)
    requires TotalSeats(hall) > 0
    ensures Occupied(bookings) == 0 ==> OccupancyText(bookings, Some(hall)) == "0%"
    ensures Occupied(bookings) == TotalSeats(hall) ==> OccupancyText(bookings, Some(hall)) == "100%"
  {
    OccupancyRatioBounds(bookings, hall);
    PercentTextEnds();
    if Occupied(bookings) == 0 {
      assert OccupancyRatio(bookings, Some(hall)) * TotalSeats(hall) as real == 0.0;
    }
  }

  /** The bar painted in the occupancy column carries the column's own
      text, and turns red once four fifths of the seats are booked. */
  lemma OccupancyBand(bookings: seq<BookingView>, hall: Hall)
    requires TotalSeats(hall) > 0
    ensures Common.BandLabel(Some(OccupancyRatio(bookings, Some(hall)))) == OccupancyText(bookings, Some(hall))
    ensures Common.BandColour(Some(OccupancyRatio(bookings, Some(hall)))) == Common.Red
      <==> 5 * Occupied(bookings) >= 4 * TotalSeats(hall)
  {
    var r := OccupancyRatio(bookings, Some(hall));
    Common.BandColourBands(Some(r));
    var o, t := Occupied(bookings), TotalSeats(hall);
    RatioAgainst(o as real, t as real, r, 0.8);
    assert r >= 0.8 <==> o as real >= 0.8 * t as real;
    assert o as real >= 0.8 * t as real <==> 5 * o >= 4 * t;
    assert Common.BandColour(Some(r)) == Common.Red <==> r >= 0.8;
  }

  lemma RatioAgainst(o: real, t: real, r: real, c: real)
    requires t > 0.0 && r * t == o
    ensures r >= c <==> o >= c * t
  {
    assert (r - c) * t == o - c * t;
    if r >= c {
      assert (r - c) * t >= 0.0;
    } else {
      assert (c - r) * t > 0.0;
    }
  }

  /** A booking the store accepts raises its event's occupied count by the
      number of seats it holds and leaves every other event's alone. */
  lemma BookingRaisesOccupied(rows: seq<StoredBooking>, eventId: int, seats: seq<string>, id: int, name: string,
                              email: string, createdAt: string, other: int)
    requires Decide(rows, eventId, seats).Free?
    ensures var b := NewRow(id, eventId, name, email, NormalizeSeats(seats), createdAt);
      && Occupied(Listed(rows + [b], eventId)) == Occupied(Listed(rows, eventId)) + |NormalizeSeats(seats)|
      && (other != eventId ==> Occupied(Listed(rows + [b], other)) == Occupied(Listed(rows, other)))
  {
    BookingListed(rows, eventId, seats, id, name, email, createdAt, other);
    OccupiedSnoc(Listed(rows, eventId), BookingView(id, name, email, NormalizeSeats(seats), createdAt));
  }

  /** The capacity column: `f"{seat_count} locuri"`. */
  function CapacityText(hall: Hall): (r: string)
    ensures |r| > 7 && r[|r| - 7..] == " locuri"
  {
    IntToString(TotalSeats(hall)) + " locuri"
  }

  /** The capacity column shows the seat count the occupancy divides by. */
  lemma CapacityIsTotal(hall: Hall)
    ensures var r := CapacityText(hall);
      ParseInt(r[..|r| - 7]) == Some(TotalSeats(hall) as int)
  {
    var r := CapacityText(hall);
    assert r[..|r| - 7] == IntToString(TotalSeats(hall));
    ParseIntOfIntToString(TotalSeats(hall));
  }

  class EventsTableModel {
    var events: seq<Event>

    constructor(events: seq<Event>)
      ensures this.events == events
    {
      this.events := events;
    }

    /** `set_events`. */
    method SetEvents(events: seq<Event>)
      modifies this
      ensures this.events == events
    {
      this.events := events;
    }

    /** `get_event_at_row`: the event shown in the row, none outside the
        table. */
    function EventAtRow(row: int): (r: Option<Event>)
      reads this
      ensures r.Some? <==> 0 <= row < |events|
      ensures r.Some? ==> r.value == events[row]
    {
      if 0 <= row < |events| then Some(events[row]) else None
    }

    /** `calculate_occupancy_ratio`, with its counting loop. `bookings` is
        what `list_bookings_for_event` returns for the event and `hall` what
        the hall lookup returns for its hall. */
    method CalculateOccupancyRatio(bookings: seq<BookingView>, hall: Option<Hall>) returns (ratio: real)
      ensures ratio == OccupancyRatio(bookings, hall)
    {
      if hall.None? {
        return 0.0;
      }
      var occupied := 0;
      for i := 0 to |bookings|
        invariant occupied == Occupied(bookings[..i])
      {
        assert bookings[..i + 1] == bookings[..i] + [bookings[i]];
        OccupiedSnoc(bookings[..i], bookings[i]);
        occupied := occupied + |bookings[i].seats|;
      }
      assert bookings[..|bookings|] == bookings;
      var total := SeatCount(LayoutItems(hall.value.layout));
      if total == 0 {
        return 0.0;
      }
      ratio := occupied as real / total as real;
    }

    /** `calculate_occupancy_text`. */
    method CalculateOccupancyText(bookings: seq<BookingView>, hall: Option<Hall>) returns (text: string)
      ensures text == OccupancyText(bookings, hall)
    {
      var ratio := CalculateOccupancyRatio(bookings, hall);
      text := PercentText(ratio);
    }
  }

  class HallsTableModel {
    var halls: seq<Hall>

    constructor(halls: seq<Hall>)
      ensures this.halls == halls
    {
      this.halls := halls;
    }

    /** `set_halls`. */
    method SetHalls(halls: seq<Hall>)
      modifies this
      ensures this.halls == halls
    {
      this.halls := halls;
    }

    /** `get_hall_at_row`. */
    function HallAtRow(row: int): (r: Option<Hall>)
      reads this
      ensures r.Some? <==> 0 <= row < |halls|
      ensures r.Some? ==> r.value == halls[row]
    {
      if 0 <= row < |halls| then Some(halls[row]) else None
    }

    /** The capacity cell (column 1) of a row. */
    function CapacityAt(row: int): (r: Option<string>)
      reads this
      ensures r.Some? <==> 0 <= row < |halls|
      ensures r.Some? ==> r.value == CapacityText(halls[row])
    {
      if 0 <= row < |halls| then Some(CapacityText(halls[row])) else None
    }
  }
}

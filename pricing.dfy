/** The booking form: the price of the chosen seats, zone by zone, and the
    checks made when the form is confirmed. The hall comes from the hall
    lookup and is a parameter. */
module Pricing {
  import opened Wrappers
  import opened Text
  import opened Records
  import opened Validators

  // ---------------------------------------------------------------------
  // What `_calculate_price` reads from the hall.

  /** What makes `_calculate_price` raise: a layout that is a non-empty
      dict (iterating it yields its keys, which have no `get`), or a zone
      price that `float()` rejects. */
  datatype PricingError = LayoutNotAList | PriceNotANumber

  /** `hall.get("layout", []) or []`, iterated as a list of elements. */
  function PricingItems(hall: Option<Hall>): (r: Result<seq<ItemDict>, PricingError>)
    ensures r.Failure? <==> (hall.Some? && hall.value.layout.LayoutDict?
      && !(hall.value.layout.entries.None? && hall.value.layout.rows.None? && hall.value.layout.cols.None?))
  {
    if hall.None? then Success([])
    else
      match hall.value.layout
      case LayoutList(items) => Success(items)
      case LayoutDict(entries, rows, cols) =>
        if entries.None? && rows.None? && cols.None? then Success([]) else Failure(LayoutNotAList)
      case _ => Success([])
  }

  /** `hall.get("zones", []) or []`. */
  function PricingZones(hall: Option<Hall>): seq<Zone> {
    if hall.None? then [] else hall.value.zones.GetOr([])
  }

  /** A zone's price and colour as `zone_meta` keeps them. */
  datatype Meta = Meta(price: real, color: Option<string>)

  /** `z.get("id")` is truthy. */
  predicate HasId(z: Zone) {
    z.id.Some? && z.id.value != ""
  }

  /** `zone_meta`: the zones with an id, by id, a later zone replacing an
      earlier one; `float(z.get("price", 0))` must succeed for each. */
  function ZoneMeta(zones: seq<Zone>): Result<map<string, Meta>, PricingError> {
    if zones == [] then Success(map[])
    else
      match ZoneMeta(zones[..|zones| - 1])
      case Failure(e) => Failure(e)
      case Success(m) =>
        var z := zones[|zones| - 1];
        if !HasId(z) then Success(m)
        else
          match z.price
          case PriceUnparsable => Failure(PriceNotANumber)
          case PriceMissing => Success(m[z.id.value := Meta(0.0, z.color)])
          case PriceValue(v) => Success(m[z.id.value := Meta(v, z.color)])
  }

  /** The price `float()` reads from a parsable price field. */
  function PriceOf(p: PriceField): real
    requires !p.PriceUnparsable?
  {
    if p.PriceValue? then p.value else 0.0
  }

  /** `zone_meta` fails exactly when a zone with an id has an unparsable
      price. */
  lemma {:induction false} ZoneMetaFails(zones: seq<Zone>)
    ensures ZoneMeta(zones).Failure? <==>
      exists i :: 0 <= i < |zones| && HasId(zones[i]) && zones[i].price.PriceUnparsable?
  {
    if zones != [] {
      var init := zones[..|zones| - 1];
      ZoneMetaFails(init);
      assert forall i :: 0 <= i < |init| ==> init[i] == zones[i];
    }
  }

  /** The only error `zone_meta` raises is the price's. */
  lemma {:induction false} ZoneMetaFailure(zones: seq<Zone>)
    ensures ZoneMeta(zones).Failure? ==> ZoneMeta(zones).error == PriceNotANumber
  {
    if zones != [] {
      ZoneMetaFailure(zones[..|zones| - 1]);
    }
  }

  /** When `zone_meta` is built, its keys are the ids of the zones that
      have one. */
  lemma {:induction false} ZoneMetaKeys(zones: seq<Zone>)
    ensures ZoneMeta(zones).Success? ==> forall id :: id in ZoneMeta(zones).value <==>
      exists i :: 0 <= i < |zones| && HasId(zones[i]) && zones[i].id.value == id
  {
    if zones != [] {
      var init := zones[..|zones| - 1];
      ZoneMetaKeys(init);
      assert forall i :: 0 <= i < |init| ==> init[i] == zones[i];
    }
  }

  /** When `zone_meta` is built, each id carries the price and colour of
      the last zone with that id. */
  lemma {:induction false} ZoneMetaValues(zones: seq<Zone>)
    ensures ZoneMeta(zones).Success? ==> forall i :: (0 <= i < |zones| && HasId(zones[i])
      && (forall j :: i < j < |zones| && HasId(zones[j]) ==> zones[j].id != zones[i].id)) ==>
      !zones[i].price.PriceUnparsable? && zones[i].id.value in ZoneMeta(zones).value &&
      ZoneMeta(zones).value[zones[i].id.value] == Meta(PriceOf(zones[i].price), zones[i].color)
  {
    if zones != [] {
      var init := zones[..|zones| - 1];
      ZoneMetaFails(init);
      ZoneMetaKeys(init);
      ZoneMetaValues(init);
      assert forall i :: 0 <= i < |init| ==> init[i] == zones[i];
    }
  }

  /** `str(it.get("zone_id") or "Z1")`. */
  function SeatZoneOf(zoneId: Option<string>): string {
    if zoneId.Some? && zoneId.value != "" then zoneId.value else "Z1"
  }

  /** `seat_to_zone`: the layout's seats by id, a later seat replacing an
      earlier one. */
  function SeatZones(items: seq<ItemDict>): map<string, string> {
    if items == [] then map[]
    else
      var m := SeatZones(items[..|items| - 1]);
      var it := items[|items| - 1];
      if it.kind == "seat" then m[it.id := SeatZoneOf(it.zoneId)] else m
  }

  /** The ids in `seat_to_zone` are those of the layout's seats. */
  lemma {:induction false} SeatZonesKeys(items: seq<ItemDict>)
    ensures forall id :: id in SeatZones(items) <==>
      exists i :: 0 <= i < |items| && items[i].kind == "seat" && items[i].id == id
  {
    if items != [] {
      var init := items[..|items| - 1];
      SeatZonesKeys(init);
      assert forall i :: 0 <= i < |init| ==> init[i] == items[i];
    }
  }

  /** Each seat id maps to the zone of the last seat with that id, a blank
      zone read as Z1. */
  lemma {:induction false} SeatZonesValues(items: seq<ItemDict>)
    ensures forall i :: (0 <= i < |items| && items[i].kind == "seat"
      && (forall j :: i < j < |items| && items[j].kind == "seat" ==> items[j].id != items[i].id)) ==>
      items[i].id in SeatZones(items) && SeatZones(items)[items[i].id] == SeatZoneOf(items[i].zoneId)
  {
    if items != [] {
      var init := items[..|items| - 1];
      SeatZonesKeys(init);
      SeatZonesValues(init);
      assert forall i :: 0 <= i < |init| ==> init[i] == items[i];
    }
  }

  /** `seat_to_zone.get(str(sid), "Z1")`. */
  function ZoneOfSeat(seatZones: map<string, string>, sid: string): string {
    if sid in seatZones then seatZones[sid] else "Z1"
  }

  /** A chosen id that no seat of the layout carries, compared exactly,
      without stripping or upper-casing, is charged as zone Z1. */
  lemma UnknownSeatIsZ1(items: seq<ItemDict>, sid: string)
    requires forall i :: 0 <= i < |items| && items[i].kind == "seat" ==> items[i].id != sid
    ensures ZoneOfSeat(SeatZones(items), sid) == "Z1"
  {
    SeatZonesKeys(items);
  }

  /** `zone_meta.get(zid, {"price": 0.0, ...})["price"]`. */
  function Price(meta: map<string, Meta>, zid: string): real {
    if zid in meta then meta[zid].price else 0.0
  }

  /** A zone without an entry is charged nothing. */
  lemma UnknownZoneIsFree(zones: seq<Zone>, zid: string)
    requires ZoneMeta(zones).Success?
    requires forall i :: 0 <= i < |zones| && HasId(zones[i]) ==> zones[i].id.value != zid
    ensures Price(ZoneMeta(zones).value, zid) == 0.0
  {
    ZoneMetaKeys(zones);
  }

  /** `meta["color"]` of a line, "#DDDDDD" for a zone without an entry. */
  function Colour(meta: map<string, Meta>, zid: string): Option<string> {
    if zid in meta then meta[zid].color else Some("#DDDDDD")
  }

  // ---------------------------------------------------------------------
  // Counting and totals.

  function Get(counts: map<string, nat>, zid: string): nat {
    if zid in counts then counts[zid] else 0
  }

  /** `counts` after the loop over the chosen ids. */
  function Counts(seatZones: map<string, string>, seats: seq<string>): map<string, nat> {
    if seats == [] then map[]
    else
      var c := Counts(seatZones, seats[..|seats| - 1]);
      var z := ZoneOfSeat(seatZones, seats[|seats| - 1]);
      c[z := Get(c, z) + 1]
  }

  /** How many chosen ids fall in zone z. */
  function InZone(seatZones: map<string, string>, seats: seq<string>, z: string): nat {
    if seats == [] then 0
    else InZone(seatZones, seats[..|seats| - 1], z) + (if ZoneOfSeat(seatZones, seats[|seats| - 1]) == z then 1 else 0)
  }

  /** `counts` holds exactly the zones of the chosen ids, each with the
      number of ids in it; a repeated id counts twice. */
  lemma {:induction false} CountsSpec(seatZones: map<string, string>, seats: seq<string>)
    ensures forall z :: Get(Counts(seatZones, seats), z) == InZone(seatZones, seats, z)
    ensures forall z :: z in Counts(seatZones, seats) <==> InZone(seatZones, seats, z) > 0
  {
    if seats != [] {
      CountsSpec(seatZones, seats[..|seats| - 1]);
    }
  }

  /** Σ over the chosen ids of the price of their zone. */
  function SeatTotal(meta: map<string, Meta>, seatZones: map<string, string>, seats: seq<string>): real {
    if seats == [] then 0.0
    else SeatTotal(meta, seatZones, seats[..|seats| - 1]) + Price(meta, ZoneOfSeat(seatZones, seats[|seats| - 1]))
  }

  /** Σ over the listed zones of price · count. */
  function KeyTotal(meta: map<string, Meta>, counts: map<string, nat>, keys: seq<string>): real {
    if keys == [] then 0.0
    else KeyTotal(meta, counts, keys[..|keys| - 1]) + Price(meta, keys[|keys| - 1]) * Get(counts, keys[|keys| - 1]) as real
  }

  predicate Distinct(keys: seq<string>) {
    forall i, j :: 0 <= i < j < |keys| ==> keys[i] != keys[j]
  }

  lemma {:induction false} KeyTotalAgree(meta: map<string, Meta>, c: map<string, nat>, d: map<string, nat>, keys: seq<string>)
    requires forall k :: k in keys ==> Get(c, k) == Get(d, k)
    ensures KeyTotal(meta, c, keys) == KeyTotal(meta, d, keys)
  {
    if keys != [] {
      KeyTotalAgree(meta, c, d, keys[..|keys| - 1]);
    }
  }

  /** One more seat in zone z adds the price of z once. */
  lemma {:induction false} KeyTotalBump(meta: map<string, Meta>, c: map<string, nat>, keys: seq<string>, z: string)
    requires Distinct(keys) && z in keys
    ensures KeyTotal(meta, c[z := Get(c, z) + 1], keys) == KeyTotal(meta, c, keys) + Price(meta, z)
  {
    var init := keys[..|keys| - 1];
    var last := keys[|keys| - 1];
    var d := c[z := Get(c, z) + 1];
    if last == z {
      assert z !in init;
      KeyTotalAgree(meta, c, d, init);
      assert Price(meta, z) * Get(d, z) as real == Price(meta, z) * Get(c, z) as real + Price(meta, z);
    } else {
      assert z in init;
      KeyTotalBump(meta, c, init, z);
    }
  }

  lemma {:induction false} KeyTotalNone(meta: map<string, Meta>, keys: seq<string>)
    ensures KeyTotal(meta, map[], keys) == 0.0
  {
    if keys != [] {
      KeyTotalNone(meta, keys[..|keys| - 1]);
    }
  }

  /** Summing price · count over any duplicate-free list of zones that
      covers the counted ones gives the sum over the chosen ids. */
  lemma {:induction false} KeyTotalIsSeatTotal(meta: map<string, Meta>, seatZones: map<string, string>,
                                               seats: seq<string>, keys: seq<string>)
    requires Distinct(keys)
    requires forall z :: z in Counts(seatZones, seats) ==> z in keys
    ensures KeyTotal(meta, Counts(seatZones, seats), keys) == SeatTotal(meta, seatZones, seats)
  {
    if seats == [] {
      KeyTotalNone(meta, keys);
    } else {
      var init := seats[..|seats| - 1];
      var z := ZoneOfSeat(seatZones, seats[|seats| - 1]);
      var c := Counts(seatZones, init);
      assert forall y :: y in c ==> y in Counts(seatZones, seats);
      KeyTotalIsSeatTotal(meta, seatZones, init, keys);
      KeyTotalBump(meta, c, keys, z);
    }
  }

  // ---------------------------------------------------------------------
  // The breakdown.

  /** One breakdown line: zone, count, unit price, subtotal and the colour
      of its swatch. */
  datatype Line = Line(zid: string, count: nat, price: real, subtotal: real, color: Option<string>)

  datatype Quote = Quote(lines: seq<Line>, total: real)

  function LineFor(meta: map<string, Meta>, counts: map<string, nat>, zid: string): Line {
    var p := Price(meta, zid);
    Line(zid, Get(counts, zid), p, p * Get(counts, zid) as real, Colour(meta, zid))
  }

  function Zids(lines: seq<Line>): seq<string> {
    seq(|lines|, i requires 0 <= i < |lines| => lines[i].zid)
  }

  /** What the form shows for a hall, a zone table and the chosen ids: one
      line per zone met, in zone order, each with its count and subtotal,
      and the total: Σ over the chosen ids of the price of their zone. */
  ghost predicate QuoteFor(q: Quote, meta: map<string, Meta>, seatZones: map<string, string>, seats: seq<string>) {
    var counts := Counts(seatZones, seats);
    && StrictlySorted(Zids(q.lines))
    && (forall z :: z in Zids(q.lines) <==> InZone(seatZones, seats, z) > 0)
    && (forall i :: 0 <= i < |q.lines| ==> q.lines[i] == LineFor(meta, counts, q.lines[i].zid))
    && q.total == SeatTotal(meta, seatZones, seats)
  }

  /** The form's quote for the hall, or why `_calculate_price` raises. */
  ghost predicate QuoteOf(r: Result<Quote, PricingError>, hall: Option<Hall>, seats: seq<string>) {
    match ZoneMeta(PricingZones(hall))
    case Failure(e) => r == Failure(e)
    case Success(meta) =>
      match PricingItems(hall)
      case Failure(e) => r == Failure(e)
      case Success(items) => r.Success? && QuoteFor(r.value, meta, SeatZones(items), seats)
  }

  /** `_calculate_price`: the hall's zone table and seat table, then its
      two loops, over the chosen ids and over the sorted zones. */
  method CalculatePrice(hall: Option<Hall>, seats: seq<string>) returns (r: Result<Quote, PricingError>)
    ensures QuoteOf(r, hall, seats)
  {
    var metaOr := ZoneMeta(PricingZones(hall));
    if metaOr.Failure? {
      return Failure(metaOr.error);
    }
    var items := PricingItems(hall);
    if items.Failure? {
      return Failure(items.error);
    }
    var seatZones := SeatZones(items.value);
    var counts := CountByZone(seatZones, seats);
    var keys := SortStrings(counts.Keys);
    var lines, total := Breakdown(metaOr.value, counts, keys);
    BreakdownIsQuote(metaOr.value, seatZones, seats, keys, lines, total);
    r := Success(Quote(lines, total));
  }

  /** The zone table is built before the layout is read: a zone with an id
      and an unparsable price is reported whatever the layout holds. */
  lemma PriceCheckedFirst(r: Result<Quote, PricingError>, hall: Option<Hall>, seats: seq<string>, i: nat)
    requires QuoteOf(r, hall, seats)
    requires i < |PricingZones(hall)| && HasId(PricingZones(hall)[i])
    requires PricingZones(hall)[i].price.PriceUnparsable?
    ensures r == Failure(PriceNotANumber)
  {
    ZoneMetaFails(PricingZones(hall));
    ZoneMetaFailure(PricingZones(hall));
  }

  /** The counting loop of `_calculate_price`. */
  method CountByZone(seatZones: map<string, string>, seats: seq<string>) returns (counts: map<string, nat>)
    ensures counts == Counts(seatZones, seats)
  {
    counts := map[];
    for i := 0 to |seats|
      invariant counts == Counts(seatZones, seats[..i])
    {
      assert seats[..i + 1][..i] == seats[..i];
      var zid := ZoneOfSeat(seatZones, seats[i]);
      counts := counts[zid := Get(counts, zid) + 1];
    }
    assert seats[..|seats|] == seats;
  }

  /** The loop over the sorted zones: one line per zone and the running
      total. */
  method Breakdown(meta: map<string, Meta>, counts: map<string, nat>, keys: seq<string>)
    returns (lines: seq<Line>, total: real)
    ensures Zids(lines) == keys
    ensures forall i :: 0 <= i < |lines| ==> lines[i] == LineFor(meta, counts, keys[i])
    ensures total == KeyTotal(meta, counts, keys)
  {
    lines := [];
    total := 0.0;
    for j := 0 to |keys|
      invariant Zids(lines) == keys[..j]
      invariant forall i :: 0 <= i < j ==> lines[i] == LineFor(meta, counts, keys[i])
      invariant total == KeyTotal(meta, counts, keys[..j])
    {
      assert keys[..j + 1][..j] == keys[..j];
      var zid := keys[j];
      var p := Price(meta, zid);
      var subtotal := p * Get(counts, zid) as real;
      total := total + subtotal;
      lines := lines + [Line(zid, Get(counts, zid), p, subtotal, Colour(meta, zid))];
    }
    assert keys[..|keys|] == keys;
  }

  /** The lines built over the sorted counted zones make the quote. */
  lemma BreakdownIsQuote(meta: map<string, Meta>, seatZones: map<string, string>, seats: seq<string>,
                         keys: seq<string>, lines: seq<Line>, total: real)
    requires StrictlySorted(keys)
    requires forall x :: x in keys <==> x in Counts(seatZones, seats)
    requires Zids(lines) == keys
    requires forall i :: 0 <= i < |lines| ==> lines[i] == LineFor(meta, Counts(seatZones, seats), keys[i])
    requires total == KeyTotal(meta, Counts(seatZones, seats), keys)
    ensures QuoteFor(Quote(lines, total), meta, seatZones, seats)
  {
    KeyTotalIsSeatTotal(meta, seatZones, seats, keys);
    CountsSpec(seatZones, seats);
    forall i | 0 <= i < |lines| ensures lines[i].zid == keys[i] {
      assert Zids(lines)[i] == lines[i].zid;
    }
  }

  /** No chosen seat: no line and a total of 0 (the form shows "-" and
      0.00 lei). */
  lemma EmptySelectionQuote(q: Quote, meta: map<string, Meta>, seatZones: map<string, string>)
    requires QuoteFor(q, meta, seatZones, [])
    ensures q.lines == [] && q.total == 0.0
  {
    HeadIn(Zids(q.lines));
  }

  /** A quote is determined by its inputs: two quotes for the same hall and
      the same chosen ids are equal. */
  lemma QuoteUnique(q: Quote, q': Quote, meta: map<string, Meta>, seatZones: map<string, string>, seats: seq<string>)
    requires QuoteFor(q, meta, seatZones, seats) && QuoteFor(q', meta, seatZones, seats)
    ensures q == q'
  {
    var a, b := Zids(q.lines), Zids(q'.lines);
    assert forall z :: z in a <==> z in b;
    SortedUnique(a, b);
    assert |q.lines| == |q'.lines|;
    forall i | 0 <= i < |q.lines| ensures q.lines[i] == q'.lines[i] {
      assert a[i] == b[i];
    }
  }

  lemma HeadIn(s: seq<string>)
    ensures |s| > 0 ==> s[0] in s
  {
  }

  /** Two strictly sorted lists with the same elements are the same list. */
  lemma {:induction false} SortedUnique(a: seq<string>, b: seq<string>)
    requires StrictlySorted(a) && StrictlySorted(b)
    requires forall z :: z in a <==> z in b
    ensures a == b
    decreases |a|
  {
    if a != [] && b != [] {
      assert a[0] in b && b[0] in a;
      var i :| 0 <= i < |b| && b[i] == a[0];
      var j :| 0 <= j < |a| && a[j] == b[0];
      if a[0] != b[0] {
        assert i > 0 && j > 0;
        assert LexLe(b[0], b[i]) && LexLe(a[0], a[j]);
        LexLeAntisymmetric(a[0], b[0]);
      }
      var a', b' := a[1..], b[1..];
      forall z ensures z in a' <==> z in b' {
        if z in a' {
          var k :| 0 <= k < |a'| && a'[k] == z;
          assert a[k + 1] == z && z != a[0];
          assert z in b;
          var m :| 0 <= m < |b| && b[m] == z;
          assert m != 0 && b'[m - 1] == z;
        }
        if z in b' {
          var k :| 0 <= k < |b'| && b'[k] == z;
          assert b[k + 1] == z && z != b[0];
          assert z in a;
          var m :| 0 <= m < |a| && a[m] == z;
          assert m != 0 && a'[m - 1] == z;
        }
      }
      SortedUnique(a[1..], b[1..]);
      assert a == [a[0]] + a[1..] && b == [b[0]] + b[1..];
    } else {
      HeadIn(a);
      HeadIn(b);
    }
  }

  // ---------------------------------------------------------------------
  // The form.

  datatype AcceptOutcome = MissingFields | BadEmail(error: EmailError) | NoSeatsSelected | Accepted

  /** What `on_accept` decides for the texts in the name and e-mail boxes
      and the chosen seats. */
  function AcceptVerdict(name: string, email: string, seats: seq<string>): AcceptOutcome {
    if Trim(name) == "" || Trim(email) == "" then MissingFields
    else
      match ValidateEmail(Some(Trim(email)))
      case Failure(err) => BadEmail(err)
      case Success(_) => if seats == [] then NoSeatsSelected else Accepted
  }

  /** The form is accepted exactly when the name is not blank, the address
      matches the e-mail pattern once stripped and lower-cased, and a seat
      is chosen; the address is never refused as missing, since a blank one
      was already caught. */
  lemma AcceptVerdictSpec(name: string, email: string, seats: seq<string>)
    ensures AcceptVerdict(name, email, seats) == Accepted <==>
      Trim(name) != "" && EmailRegex(Lower(Trim(email))) && seats != []
    ensures AcceptVerdict(name, email, seats) != BadEmail(EmailRequired)
  {
    var t := Trim(email);
    TrimIdempotent(email);
    assert Some(t).GetOr("") == t && Trim(t) == t;
    ValidateEmailSpec(Some(t));
    if EmailRegex(Lower(t)) {
      assert |Lower(t)| == |t|;
      assert t != "";
    }
  }

  class BookingDialog {
    var name: string
    var email: string
    var emailReadOnly: bool
    var selectedSeats: seq<string>
    var quote: Quote
    var accepted: bool

    /** The empty form; the e-mail of a logged-in user is filled in and
        locked. */
    constructor(sessionEmail: Option<string>)
      ensures name == "" && selectedSeats == [] && quote == Quote([], 0.0) && !accepted
      ensures sessionEmail.Some? && sessionEmail.value != "" ==> email == sessionEmail.value && emailReadOnly
      ensures !(sessionEmail.Some? && sessionEmail.value != "") ==> email == "" && !emailReadOnly
    {
      name := "";
      if sessionEmail.Some? && sessionEmail.value != "" {
        email := sessionEmail.value;
        emailReadOnly := true;
      } else {
        email := "";
        emailReadOnly := false;
      }
      selectedSeats := [];
      quote := Quote([], 0.0);
      accepted := false;
    }

    /** After the seat dialog is confirmed: the chosen ids are kept and the
        breakdown recomputed; when the computation raises, the breakdown
        keeps its previous text. */
    method OnSeatsChosen(hall: Option<Hall>, seats: seq<string>)
      modifies this
      ensures selectedSeats == seats
      ensures name == old(name) && email == old(email) && emailReadOnly == old(emailReadOnly)
      ensures accepted == old(accepted)
      ensures exists r :: QuoteOf(r, hall, seats) && quote == (if r.Success? then r.value else old(quote))
    {
      selectedSeats := seats;
      var r := CalculatePrice(hall, seats);
      if r.Success? {
        quote := r.value;
      }
    }

    /** `on_accept`: refuses with a message, changing nothing, or stores the
        validated address and closes the form. */
    method OnAccept() returns (outcome: AcceptOutcome)
      modifies this
      ensures outcome == AcceptVerdict(old(name), old(email), old(selectedSeats))
      ensures outcome == Accepted ==> accepted && email == ValidateEmail(Some(Trim(old(email)))).value
      ensures outcome != Accepted ==> accepted == old(accepted) && email == old(email)
      ensures name == old(name) && selectedSeats == old(selectedSeats) && quote == old(quote)
      ensures emailReadOnly == old(emailReadOnly)
    {
      var n := Trim(name);
      var e := Trim(email);
      if n == "" || e == "" {
        return MissingFields;
      }
      var v := ValidateEmail(Some(e));
      if v.Failure? {
        return BadEmail(v.error);
      }
      if selectedSeats == [] {
        return NoSeatsSelected;
      }
      email := v.value;
      accepted := true;
      return Accepted;
    }
  }
}

/** The JSON records the application stores: layout elements, price zones,
    halls and events. A key that a record may lack is an `Option`. */
module Records {
  import opened Wrappers

  /** One element of a hall layout: a seat, a table or a decor piece. */
  datatype ItemDict = ItemDict(
    id: string,
    kind: string,
    x: real,
    y: real,
    w: Option<real>,
    h: Option<real>,
    rotation: Option<real>,
    parentId: Option<string>,
    caption: Option<string>,
    zoneId: Option<string>)

  /** The `price` key of a zone: missing, a number (or numeric text), or a
      value that `float()` rejects. */
  datatype PriceField = PriceMissing | PriceValue(value: real) | PriceUnparsable

  /** A price zone; `id` is `None` when the key is missing or null. */
  datatype Zone = Zone(id: Option<string>, name: Option<string>, price: PriceField, color: Option<string>)

  /** The `layout` key of a hall: missing, null, a list of elements, or a
      dict with optional `items`, `rows` and `cols`. */
  datatype LayoutField =
    | LayoutAbsent
    | LayoutNull
    | LayoutList(items: seq<ItemDict>)
    | LayoutDict(entries: Option<seq<ItemDict>>, rows: Option<int>, cols: Option<int>)

  datatype Hall = Hall(name: Option<string>, layout: LayoutField, zones: Option<seq<Zone>>)

  datatype Event = Event(id: int, title: string, date: string, time: string, hallId: int, hallName: string)

  /** `w` and `h` are present, as `item['w']` and `item['h']` require. */
  predicate HasSize(s: seq<ItemDict>) {
    forall i :: 0 <= i < |s| ==> s[i].w.Some? && s[i].h.Some?
  }

  /** The number of elements of kind "seat". */
  function SeatCount(s: seq<ItemDict>): nat {
    if |s| == 0 then 0 else (if s[0].kind == "seat" then 1 else 0) + SeatCount(s[1..])
  }

  lemma {:induction false} SeatCountConcat(a: seq<ItemDict>, b: seq<ItemDict>)
    ensures SeatCount(a + b) == SeatCount(a) + SeatCount(b)
  {
    if |a| == 0 {
      assert a + b == b;
    } else {
      assert (a + b)[1..] == a[1..] + b;
      SeatCountConcat(a[1..], b);
    }
  }

  /** Only the kinds matter. */
  lemma {:induction false} SeatCountSameKinds(a: seq<ItemDict>, b: seq<ItemDict>)
    requires |a| == |b| && forall i :: 0 <= i < |a| ==> a[i].kind == b[i].kind
    ensures SeatCount(a) == SeatCount(b)
  {
    if |a| > 0 {
      SeatCountSameKinds(a[1..], b[1..]);
    }
  }

  lemma {:induction false} SeatCountAllSeats(s: seq<ItemDict>)
    requires forall i :: 0 <= i < |s| ==> s[i].kind == "seat"
    ensures SeatCount(s) == |s|
  {
    if |s| > 0 {
      SeatCountAllSeats(s[1..]);
    }
  }

  lemma {:induction false} SeatCountNoSeats(s: seq<ItemDict>)
    requires forall i :: 0 <= i < |s| ==> s[i].kind != "seat"
    ensures SeatCount(s) == 0
  {
    if |s| > 0 {
      SeatCountNoSeats(s[1..]);
    }
  }
}

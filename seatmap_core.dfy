/** The hall editor canvas (`ui/seatmap/seatmap_core.py`): the layout model
    as a list of `MapItem` records, id allocation, loading, appending and
    cascade deletion, the seat graphics with their reserved and selected
    state, and the scene's tool state and placement on a click. Qt objects
    become plain records and classes; hit-testing is done by the caller. */
module SeatMapCore {
  import opened Wrappers
  import opened Text
  import opened Records
  import opened LayoutGenerator
  import opened Numeric

  /** One element of the model (`MapItem`); `caption` is the source's
      `label`. */
  datatype MapItem = MapItem(
    id: string,
    x: real,
    y: real,
    kind: string,
    w: real,
    h: real,
    parentId: Option<string>,
    rotation: real,
    caption: string,
    zoneId: string)

  /** Python truthiness of an optional string. */
  predicate Truthy(s: Option<string>) {
    s.Some? && s.value != ""
  }

  // ---------------------------------------------------------------------
  // Id allocation (`get_next_id`).

  /** The number captured by `^prefix(\d+)` on s, if the pattern matches,
      with `\d` read as the ASCII digits '0'..'9' only. */
  function NumberAfter(prefix: string, s: string): Option<nat> {
    if StartsWith(s, prefix) then
      var digits := LeadingDigits(s[|prefix|..]);
      if digits == [] then None else Some(ParseDigits(digits))
    else None
  }

  function MaxNat(a: nat, b: nat): nat {
    if a >= b then a else b
  }

  /** The largest number an item contributes: from its id and from its
      parent id when that is non-empty; 0 when neither matches. */
  function ItemNumber(prefix: string, item: MapItem): (r: nat)
    ensures NumberAfter(prefix, item.id).Some? ==> NumberAfter(prefix, item.id).value <= r
    ensures Truthy(item.parentId) && NumberAfter(prefix, item.parentId.value).Some? ==>
              NumberAfter(prefix, item.parentId.value).value <= r
    ensures r == 0 || Some(r) == NumberAfter(prefix, item.id)
            || (Truthy(item.parentId) && Some(r) == NumberAfter(prefix, item.parentId.value))
  {
    var a := NumberAfter(prefix, item.id).GetOr(0);
    var b := if Truthy(item.parentId) then NumberAfter(prefix, item.parentId.value).GetOr(0) else 0;
    MaxNat(a, b)
  }

  function MaxNumber(prefix: string, items: seq<MapItem>): nat {
    if items == [] then 0
    else MaxNat(MaxNumber(prefix, items[..|items| - 1]), ItemNumber(prefix, items[|items| - 1]))
  }

  /** The id `get_next_id` returns. */
  function NextId(prefix: string, items: seq<MapItem>): string {
    prefix + NatToString(MaxNumber(prefix, items) + 1)
  }

  /** MaxNumber bounds every item's number and, unless it is 0, is some
      item's number. */
  lemma {:induction false} MaxNumberIsMax(prefix: string, items: seq<MapItem>)
    ensures forall i :: 0 <= i < |items| ==> ItemNumber(prefix, items[i]) <= MaxNumber(prefix, items)
    ensures MaxNumber(prefix, items) == 0
            || exists i :: 0 <= i < |items| && ItemNumber(prefix, items[i]) == MaxNumber(prefix, items)
  {
    if items != [] {
      var init := items[..|items| - 1];
      MaxNumberIsMax(prefix, init);
      assert forall i :: 0 <= i < |init| ==> items[i] == init[i];
      if MaxNumber(prefix, items) != 0 && MaxNumber(prefix, items) == MaxNumber(prefix, init) {
        var i :| 0 <= i < |init| && ItemNumber(prefix, init[i]) == MaxNumber(prefix, init);
        assert ItemNumber(prefix, items[i]) == MaxNumber(prefix, items);
      }
    }
  }

  method GetNextId(prefix: string, items: seq<MapItem>) returns (r: string)
    ensures r == NextId(prefix, items)
  {
    var maxVal: nat := 0;
    for i := 0 to |items|
      invariant maxVal == MaxNumber(prefix, items[..i])
    {
      assert items[..i + 1][..i] == items[..i];
      var item := items[i];
      var m := NumberAfter(prefix, item.id);
      if m.Some? && m.value > maxVal {
        maxVal := m.value;
      }
      if Truthy(item.parentId) {
        var mp := NumberAfter(prefix, item.parentId.value);
        if mp.Some? && mp.value > maxVal {
          maxVal := mp.value;
        }
      }
    }
    assert items[..|items|] == items;
    r := prefix + NatToString(maxVal + 1);
  }

  /** The pattern reads back the number written after the prefix. */
  lemma NumberAfterWritten(prefix: string, n: nat)
    ensures NumberAfter(prefix, prefix + NatToString(n)) == Some(n)
  {
    var s := prefix + NatToString(n);
    assert s[|prefix|..] == NatToString(n) + [];
    LeadingDigitsOfDigits(NatToString(n), []);
    ParseNatToString(n);
  }

  /** The new id is neither an existing id nor an existing parent id: a
      clash would carry a number above the maximum. */
  lemma NextIdIsFresh(prefix: string, items: seq<MapItem>)
    ensures forall i :: 0 <= i < |items| ==> items[i].id != NextId(prefix, items)
    ensures forall i :: 0 <= i < |items| && items[i].parentId.Some? ==> items[i].parentId.value != NextId(prefix, items)
  {
    var m := MaxNumber(prefix, items);
    MaxNumberIsMax(prefix, items);
    NumberAfterWritten(prefix, m + 1);
  }

  /** With no number after the prefix anywhere, the first id is prefix + "1". */
  lemma NextIdWithoutMatches(prefix: string, items: seq<MapItem>)
    requires forall i :: 0 <= i < |items| ==> NumberAfter(prefix, items[i].id).None?
    requires forall i :: 0 <= i < |items| && Truthy(items[i].parentId) ==> NumberAfter(prefix, items[i].parentId.value).None?
    ensures NextId(prefix, items) == prefix + "1"
  {
    MaxNumberIsMax(prefix, items);
    assert forall i :: 0 <= i < |items| ==> ItemNumber(prefix, items[i]) == 0;
  }

  /** A label that "D-" + label + tail starts with repeats "D-" from its
      first character on, so none of its characters is a digit. */
  lemma {:induction false} DecorLabelPeriodic(caption: string, tail: string, j: nat)
    requires StartsWith("D-" + caption + tail, caption)
    requires j < |caption|
    ensures caption[j] == (if j % 2 == 0 then 'D' else '-')
  {
    var s := "D-" + caption + tail;
    assert caption[j] == s[j];
    if j >= 2 {
      DecorLabelPeriodic(caption, tail, j - 2);
    }
  }

  /** A decor piece is stored as "D-" + label + n, which the label's own
      pattern `^label(\d+)` never matches, whatever the label: the
      character after a matching label is 'D' or '-'. */
  lemma DecorIdUnmatched(caption: string, n: nat)
    ensures NumberAfter(caption, "D-" + caption + NatToString(n)) == None
  {
    var s := "D-" + caption + NatToString(n);
    if StartsWith(s, caption) {
      var k := |caption|;
      if k >= 2 {
        DecorLabelPeriodic(caption, NatToString(n), k - 2);
        assert s[k] == caption[k - 2];
      }
      assert !IsDigit(s[k]);
      assert s[k..][0] == s[k];
    }
  }

  /** So placing the same decor again yields the same id: decor ids are
      not unique. */
  lemma DecorIdRepeats(caption: string, items: seq<MapItem>, placed: MapItem)
    requires placed.id == "D-" + NextId(caption, items) && placed.parentId == None
    ensures NextId(caption, items + [placed]) == NextId(caption, items)
  {
    assert (items + [placed])[..|items|] == items;
    DecorIdUnmatched(caption, MaxNumber(caption, items) + 1);
    assert placed.id == "D-" + caption + NatToString(MaxNumber(caption, items) + 1);
  }

  // ---------------------------------------------------------------------
  // Records in and out of the model.

  /** Non-seat elements carry the empty zone. */
  predicate WellFormed(m: MapItem) {
    m.kind != "seat" ==> m.zoneId == ""
  }

  /** One dict turned into a `MapItem` as `load_data` (and a placing click)
      does: w and h default to 30, rotation to 0, the label to "", a seat's
      zone to "Z1"; other elements get the empty zone. */
  function LoadItem(d: ItemDict): (m: MapItem)
    ensures WellFormed(m)
    ensures m.id == d.id && m.kind == d.kind && m.x == d.x && m.y == d.y && m.parentId == d.parentId
  {
    MapItem(d.id, d.x, d.y, d.kind, d.w.GetOr(30.0), d.h.GetOr(30.0), d.parentId,
            d.rotation.GetOr(0.0), d.caption.GetOr(""), if d.kind == "seat" then d.zoneId.GetOr("Z1") else "")
  }

  /** `MapItem.to_dict`: every key present. */
  function ToDict(m: MapItem): ItemDict {
    ItemDict(m.id, m.kind, m.x, m.y, Some(m.w), Some(m.h), Some(m.rotation), m.parentId, Some(m.caption), Some(m.zoneId))
  }

  /** Writing an item out and loading it back gives it back exactly when it
      is well formed. */
  lemma LoadToDict(m: MapItem)
    ensures LoadItem(ToDict(m)) == m <==> WellFormed(m)
  {
  }

  function LoadAll(data: seq<ItemDict>): (r: seq<MapItem>)
    ensures |r| == |data|
  {
    seq(|data|, i requires 0 <= i < |data| => LoadItem(data[i]))
  }

  lemma LoadAllSnoc(data: seq<ItemDict>, d: ItemDict)
    ensures LoadAll(data + [d]) == LoadAll(data) + [LoadItem(d)]
  {
    assert forall i :: 0 <= i < |data| ==> (data + [d])[i] == data[i];
  }

  /** The model after `remove_item` writes it out and loads it back. */
  function ToDicts(s: seq<MapItem>): (r: seq<ItemDict>)
    ensures |r| == |s|
  {
    seq(|s|, i requires 0 <= i < |s| => ToDict(s[i]))
  }

  function Reload(s: seq<MapItem>): (r: seq<MapItem>)
    ensures |r| == |s|
  {
    LoadAll(ToDicts(s))
  }

  lemma ReloadWellFormed(s: seq<MapItem>)
    requires forall i :: 0 <= i < |s| ==> WellFormed(s[i])
    ensures Reload(s) == s
  {
    forall i | 0 <= i < |s|
      ensures Reload(s)[i] == s[i]
    {
      LoadToDict(s[i]);
    }
  }

  /** Loading always gives well-formed elements, so a second round trip
      changes nothing. */
  lemma ReloadTwice(s: seq<MapItem>)
    ensures Reload(Reload(s)) == Reload(s)
  {
    ReloadWellFormed(Reload(s));
  }

  // ---------------------------------------------------------------------
  // Cascade deletion (`remove_item`).

  /** Ids of the items whose parent is pid. */
  function ChildIds(s: seq<MapItem>, pid: string): set<string> {
    if s == [] then {}
    else ChildIds(s[..|s| - 1], pid) + (if s[|s| - 1].parentId == Some(pid) then {s[|s| - 1].id} else {})
  }

  lemma {:induction false} ChildIdsMembers(s: seq<MapItem>, pid: string)
    ensures forall id :: id in ChildIds(s, pid) <==> exists i :: 0 <= i < |s| && s[i].parentId == Some(pid) && s[i].id == id
  {
    if s != [] {
      var init := s[..|s| - 1];
      ChildIdsMembers(init, pid);
      assert forall i :: 0 <= i < |init| ==> s[i] == init[i];
    }
  }

  /** The target id and the ids of its direct children. */
  function RemovalIds(s: seq<MapItem>, targetId: string): set<string> {
    {targetId} + ChildIds(s, targetId)
  }

  /** An item survives when neither it nor its parent is being removed. */
  predicate Kept(m: MapItem, ids: set<string>) {
    m.id !in ids && !(m.parentId.Some? && m.parentId.value in ids)
  }

  function Survivors(s: seq<MapItem>, ids: set<string>): seq<MapItem> {
    if s == [] then []
    else Survivors(s[..|s| - 1], ids) + (if Kept(s[|s| - 1], ids) then [s[|s| - 1]] else [])
  }

  lemma {:induction false} SurvivorsMembers(s: seq<MapItem>, ids: set<string>)
    ensures forall m :: m in Survivors(s, ids) <==> m in s && Kept(m, ids)
  {
    if s != [] {
      SurvivorsMembers(s[..|s| - 1], ids);
      assert s == s[..|s| - 1] + [s[|s| - 1]];
    }
  }

  /** Filtering distributes over concatenation, so survivors keep their
      relative order. */
  lemma {:induction false} SurvivorsConcat(a: seq<MapItem>, b: seq<MapItem>, ids: set<string>)
    ensures Survivors(a + b, ids) == Survivors(a, ids) + Survivors(b, ids)
    decreases |b|
  {
    if b == [] {
      assert a + b == a;
    } else {
      var c := b[..|b| - 1];
      assert (a + b)[..|a + b| - 1] == a + c;
      SurvivorsConcat(a, c, ids);
    }
  }

  /** Nothing is dropped when everything is kept. */
  lemma {:induction false} SurvivorsAllKept(s: seq<MapItem>, ids: set<string>)
    requires forall i :: 0 <= i < |s| ==> Kept(s[i], ids)
    ensures Survivors(s, ids) == s
  {
    if s != [] {
      SurvivorsAllKept(s[..|s| - 1], ids);
    }
  }

  /** Deleting removes the target, its direct children, any other item
      sharing a child's id, and every item parented to one of those ids;
      everything else survives. */
  lemma RemovalCascade(s: seq<MapItem>, targetId: string)
    ensures var r := Survivors(s, RemovalIds(s, targetId));
      var children := ChildIds(s, targetId);
      forall m :: m in r <==>
        && m in s && m.id != targetId && m.id !in children
        && m.parentId != Some(targetId) && !(m.parentId.Some? && m.parentId.value in children)
  {
    SurvivorsMembers(s, RemovalIds(s, targetId));
  }

  // ---------------------------------------------------------------------
  // Zone colours and reserved codes, fixed when the view is built.

  const FreeColour := "#A5D6A7"
  const ReservedColour := "#EF9A9A"
  const SelectedColour := "#FFF59D"

  /** `str(z.get("id") or "").strip()` and the same for the colour. */
  function ZoneKey(z: Zone): string {
    Trim(z.id.GetOr(""))
  }

  function ZoneColourText(z: Zone): string {
    Trim(z.color.GetOr(""))
  }

  /** Each zone as its (id, colour) pair, both trimmed. */
  function ZonePairs(zones: seq<Zone>): (r: seq<(string, string)>)
    ensures |r| == |zones|
  {
    seq(|zones|, i requires 0 <= i < |zones| => (ZoneKey(zones[i]), ZoneColourText(zones[i])))
  }

  /** The colour table built from (id, colour) pairs: each pair with a
      non-blank id and colour, a later pair overriding an earlier one. */
  function ColourTable(pairs: seq<(string, string)>): map<string, string> {
    if pairs == [] then map[]
    else
      var m := ColourTable(pairs[..|pairs| - 1]);
      var last := pairs[|pairs| - 1];
      if last.0 != "" && last.1 != "" then m[last.0 := last.1] else m
  }

  function ZoneColours(zones: seq<Zone>): map<string, string> {
    ColourTable(ZonePairs(zones))
  }

  /** A usable (id, colour) pair for k at index i: both non-blank. */
  predicate ColouredAt(pairs: seq<(string, string)>, i: int, k: string) {
    0 <= i < |pairs| && pairs[i].0 == k && k != "" && pairs[i].1 != ""
  }

  /** An id has a colour iff some pair with that id has a non-blank
      colour. */
  lemma {:induction false} ColourTableDomain(pairs: seq<(string, string)>, k: string)
    ensures k in ColourTable(pairs) <==> exists i :: ColouredAt(pairs, i, k)
  {
    if pairs != [] {
      var init := pairs[..|pairs| - 1];
      var last := |pairs| - 1;
      ColourTableDomain(init, k);
      assert forall i :: ColouredAt(init, i, k) ==> ColouredAt(pairs, i, k);
      if pairs[last].0 != "" && pairs[last].1 != "" {
        assert ColourTable(pairs) == ColourTable(init)[pairs[last].0 := pairs[last].1];
      } else {
        assert ColourTable(pairs) == ColourTable(init);
      }
      if exists i :: ColouredAt(pairs, i, k) {
        var i :| ColouredAt(pairs, i, k);
        if i < last {
          assert ColouredAt(init, i, k);
        }
        assert k in ColourTable(pairs);
      }
      if k in ColourTable(pairs) {
        if !ColouredAt(pairs, last, k) {
          assert k in ColourTable(init);
          var i :| ColouredAt(init, i, k);
          assert ColouredAt(pairs, i, k);
        }
      }
    }
  }

  /** The colour is the one of the last pair with that id and a non-blank
      colour. */
  lemma {:induction false} ColourTableLast(pairs: seq<(string, string)>, k: string)
    requires k in ColourTable(pairs)
    ensures exists i :: ColouredAt(pairs, i, k) && ColourTable(pairs)[k] == pairs[i].1
                        && forall j :: i < j < |pairs| ==> !ColouredAt(pairs, j, k)
  {
    var init := pairs[..|pairs| - 1];
    var last := |pairs| - 1;
    if ColouredAt(pairs, last, k) {
      assert ColourTable(pairs) == ColourTable(init)[k := pairs[last].1];
    } else {
      if pairs[last].0 != "" && pairs[last].1 != "" {
        assert ColourTable(pairs) == ColourTable(init)[pairs[last].0 := pairs[last].1];
      } else {
        assert ColourTable(pairs) == ColourTable(init);
      }
      ColourTableLast(init, k);
      var i :| ColouredAt(init, i, k) && ColourTable(init)[k] == init[i].1
               && forall j :: i < j < |init| ==> !ColouredAt(init, j, k);
      assert ColouredAt(pairs, i, k);
      forall j | i < j < |pairs|
        ensures !ColouredAt(pairs, j, k)
      {
        if j < last {
          assert !ColouredAt(init, j, k);
        }
      }
    }
  }

  /** A seat's base colour: its zone's colour, else the free colour. */
  function ZoneColour(colours: map<string, string>, zoneId: string): string {
    if zoneId in colours then colours[zoneId] else FreeColour
  }

  /** The reserved codes as the view keeps them: trimmed and upper-cased. */
  function NormaliseReserved(raw: set<string>): (r: set<string>)
    ensures forall c :: c in raw ==> TrimUpper(c) in r
    ensures forall c :: c in r ==> exists d :: d in raw && c == TrimUpper(d)
  {
    set c | c in raw :: TrimUpper(c)
  }

  /** Normalising codes that are already normal changes nothing. */
  lemma NormaliseReservedIdempotent(raw: set<string>)
    ensures NormaliseReserved(NormaliseReserved(raw)) == NormaliseReserved(raw)
  {
    forall c | c in raw {
      TrimUpperIdempotent(c);
    }
  }

  // ---------------------------------------------------------------------
  // Seat graphics (`GraphicSeat`).

  class GraphicSeat {
    const data: MapItem
    const isReserved: bool
    const baseColour: string
    /** The Qt flags `ItemIsSelectable` and `ItemIsMovable`. */
    const selectable: bool
    const movable: bool
    var isSelected: bool

    constructor(data: MapItem, isReserved: bool, baseColour: string, selectable: bool, movable: bool)
      ensures this.data == data && this.isReserved == isReserved && this.baseColour == baseColour
      ensures this.selectable == selectable && this.movable == movable && !isSelected
    {
      this.data := data;
      this.isReserved := isReserved;
      this.baseColour := baseColour;
      this.selectable := selectable;
      this.movable := movable;
      isSelected := false;
    }

    /** `update_color`: reserved before selected before the zone colour. */
    function Colour(): string
      reads this
    {
      if isReserved then ReservedColour else if isSelected then SelectedColour else baseColour
    }

    /** `mousePressEvent`: a reserved seat ignores the click; a selectable,
        immovable seat flips its selection. */
    method MousePress()
      modifies this
      ensures isSelected == (old(isSelected) != (!isReserved && selectable && !movable))
    {
      if isReserved {
        return;
      }
      if selectable && !movable {
        isSelected := !isSelected;
      }
    }
  }

  /** The seat elements of a model, in order. */
  function SeatItems(model: seq<MapItem>): seq<MapItem> {
    if model == [] then []
    else SeatItems(model[..|model| - 1]) + (if model[|model| - 1].kind == "seat" then [model[|model| - 1]] else [])
  }

  /** Ids of the selected seats among gs, in order. */
  function SelectedIn(gs: seq<GraphicSeat>): seq<string>
    reads gs
  {
    if gs == [] then []
    else SelectedIn(gs[..|gs| - 1]) + (if gs[|gs| - 1].isSelected then [gs[|gs| - 1].data.id] else [])
  }

  lemma {:induction false} SelectedInMembers(gs: seq<GraphicSeat>)
    ensures forall id :: id in SelectedIn(gs) <==> exists k :: 0 <= k < |gs| && gs[k].isSelected && gs[k].data.id == id
  {
    if gs != [] {
      var init := gs[..|gs| - 1];
      SelectedInMembers(init);
      assert forall k :: 0 <= k < |init| ==> gs[k] == init[k];
    }
  }

  /** The zone-colour loop of the view's constructor and of
      `_push_zones_to_map`. */
  method BuildZoneColours(zones: seq<Zone>) returns (colours: map<string, string>)
    ensures colours == ZoneColours(zones)
  {
    colours := map[];
    ghost var pairs := ZonePairs(zones);
    for i := 0 to |zones|
      invariant colours == ColourTable(pairs[..i])
    {
      assert pairs[..i + 1][..i] == pairs[..i];
      var zid := Trim(zones[i].id.GetOr(""));
      var col := Trim(zones[i].color.GetOr(""));
      if zid != "" && col != "" {
        colours := colours[zid := col];
      }
    }
    assert pairs[..|zones|] == pairs;
  }

  // ---------------------------------------------------------------------
  // The view (`SeatMapView`): the model and one graphic per seat.

  /** g is the graphic `_draw` makes for item in a view with the given
      reserved codes, zone colours and editing flag: reserved by its
      normalised code, coloured by its zone, movable and selectable when
      editing, otherwise selectable only when free; a reserved seat is never
      selected. */
  predicate Drawn(g: GraphicSeat, item: MapItem, reserved: set<string>, zoneColours: map<string, string>, editable: bool)
    reads g
  {
    && g.data == item && g.isReserved == (TrimUpper(item.id) in reserved)
    && g.baseColour == ZoneColour(zoneColours, item.zoneId)
    && g.movable == editable && g.selectable == (editable || !g.isReserved)
    && (g.isReserved ==> !g.isSelected)
  }

  /** No graphic in gs is selected, as with fresh `GraphicSeat`s. */
  predicate Unselected(gs: seq<GraphicSeat>)
    reads gs
  {
    forall k :: 0 <= k < |gs| ==> !gs[k].isSelected
  }

  /** Every element of a model is well formed. */
  predicate AllWellFormed(model: seq<MapItem>) {
    forall i :: 0 <= i < |model| ==> WellFormed(model[i])
  }

  /** gs are, position by position, the graphics drawn for items. */
  predicate AllDrawn(gs: seq<GraphicSeat>, items: seq<MapItem>, reserved: set<string>,
                     zoneColours: map<string, string>, editable: bool)
    reads gs
  {
    |gs| == |items| && forall k :: 0 <= k < |gs| ==> Drawn(gs[k], items[k], reserved, zoneColours, editable)
  }

  lemma AllWellFormedSnoc(model: seq<MapItem>, item: MapItem)
    requires AllWellFormed(model) && WellFormed(item)
    ensures AllWellFormed(model + [item])
  {
    forall i | 0 <= i < |model| + 1
      ensures WellFormed((model + [item])[i])
    {
      if i < |model| {
        assert (model + [item])[i] == model[i];
      }
    }
  }

  lemma AllDrawnConcat(gs: seq<GraphicSeat>, items: seq<MapItem>, gs': seq<GraphicSeat>, items': seq<MapItem>,
                       reserved: set<string>, zoneColours: map<string, string>, editable: bool)
    requires AllDrawn(gs, items, reserved, zoneColours, editable)
    requires AllDrawn(gs', items', reserved, zoneColours, editable)
    ensures AllDrawn(gs + gs', items + items', reserved, zoneColours, editable)
  {
    forall k | 0 <= k < |gs| + |gs'|
      ensures Drawn((gs + gs')[k], (items + items')[k], reserved, zoneColours, editable)
    {
      if k < |gs| {
        assert (gs + gs')[k] == gs[k] && (items + items')[k] == items[k];
      } else {
        assert (gs + gs')[k] == gs'[k - |gs|] && (items + items')[k] == items'[k - |gs|];
      }
    }
  }

  /** Appending an element, and its graphic when it is a seat, keeps a
      view's elements well formed and its graphics drawn. */
  lemma AppendedValid(model: seq<MapItem>, gs: seq<GraphicSeat>, item: MapItem, drawn: seq<GraphicSeat>,
                      reserved: set<string>, zoneColours: map<string, string>, editable: bool)
    requires AllWellFormed(model) && WellFormed(item)
    requires AllDrawn(gs, SeatItems(model), reserved, zoneColours, editable)
    requires AllDrawn(drawn, if item.kind == "seat" then [item] else [], reserved, zoneColours, editable)
    ensures AllWellFormed(model + [item])
    ensures AllDrawn(gs + drawn, SeatItems(model + [item]), reserved, zoneColours, editable)
  {
    AllWellFormedSnoc(model, item);
    assert (model + [item])[..|model|] == model;
    AllDrawnConcat(gs, SeatItems(model), drawn, if item.kind == "seat" then [item] else [],
                   reserved, zoneColours, editable);
  }

  lemma UnselectedConcat(gs: seq<GraphicSeat>, gs': seq<GraphicSeat>)
    requires Unselected(gs) && Unselected(gs')
    ensures Unselected(gs + gs')
  {
    forall k | 0 <= k < |gs| + |gs'|
      ensures !(gs + gs')[k].isSelected
    {
      if k < |gs| {
        assert (gs + gs')[k] == gs[k];
      } else {
        assert (gs + gs')[k] == gs'[k - |gs|];
      }
    }
  }

  /** The graphics are distinct objects, as each is drawn afresh. */
  predicate Distinct(gs: seq<GraphicSeat>) {
    forall i, j :: 0 <= i < j < |gs| ==> gs[i] != gs[j]
  }

  /** Appending at most one graphic not already present keeps them distinct. */
  lemma DistinctAppend(gs: seq<GraphicSeat>, drawn: seq<GraphicSeat>)
    requires Distinct(gs) && |drawn| <= 1
    requires forall g :: g in drawn ==> g !in gs
    ensures Distinct(gs + drawn)
  {
    forall i, j | 0 <= i < j < |gs + drawn|
      ensures (gs + drawn)[i] != (gs + drawn)[j]
    {
      assert (gs + drawn)[i] == gs[i];
      if j == |gs| {
        assert (gs + drawn)[j] == drawn[0] && drawn[0] in drawn && gs[i] in gs;
      } else {
        assert (gs + drawn)[j] == gs[j];
      }
    }
  }

  class SeatMapView {
    var model: seq<MapItem>
    var seats: seq<GraphicSeat>
    const reserved: set<string>
    var zoneColours: map<string, string>
    const editable: bool

    /** The seat code as `_draw` compares it with the reserved set. */
    predicate IsReserved(id: string) {
      TrimUpper(id) in reserved
    }

    predicate Valid()
      reads this, seats
    {
      AllWellFormed(model) && AllDrawn(seats, SeatItems(model), reserved, zoneColours, editable) && Distinct(seats)
    }

    constructor(layout: seq<ItemDict>, rawReserved: set<string>, editable: bool, zones: seq<Zone>)
      ensures Valid() && model == LoadAll(layout)
      ensures reserved == NormaliseReserved(rawReserved) && zoneColours == ZoneColours(zones)
      ensures this.editable == editable
      ensures Unselected(seats)
    {
      reserved := NormaliseReserved(rawReserved);
      var colours := BuildZoneColours(zones);
      zoneColours := colours;
      this.editable := editable;
      model := [];
      seats := [];
      new;
      LoadData(layout);
    }

    /** `_draw` for a seat element: a fresh, unselected `GraphicSeat`. */
    method Draw(item: MapItem) returns (g: GraphicSeat)
      ensures fresh(g) && Drawn(g, item, reserved, zoneColours, editable) && !g.isSelected
    {
      var res := TrimUpper(item.id) in reserved;
      var base := ZoneColour(zoneColours, item.zoneId);
      g := new GraphicSeat(item, res, base, editable || !res, editable);
    }

    /** Appends one element to the model and draws it: a seat gets a fresh
        graphic, other elements a shape, which is not modelled. */
    method Append(item: MapItem)
      requires Valid() && WellFormed(item) && Unselected(seats)
      modifies this
      ensures Valid() && model == old(model) + [item] && zoneColours == old(zoneColours)
      ensures Unselected(seats)
    {
      ghost var m0 := model;
      ghost var s0 := seats;
      var drawn: seq<GraphicSeat> := [];
      if item.kind == "seat" {
        var g := Draw(item);
        drawn := [g];
      }
      assert forall g :: g in drawn ==> g !in s0;
      model := model + [item];
      seats := seats + drawn;
      AppendedValid(m0, s0, item, drawn, reserved, zoneColours, editable);
      DistinctAppend(s0, drawn);
      UnselectedConcat(s0, drawn);
    }

    /** `add_item`: appends one element and draws it; a seat's graphic
        starts unselected. */
    method AddItem(item: MapItem)
      requires Valid() && WellFormed(item)
      modifies this
      ensures Valid() && model == old(model) + [item] && zoneColours == old(zoneColours)
      ensures |seats| == old(|seats|) + (if item.kind == "seat" then 1 else 0)
      ensures seats[..old(|seats|)] == old(seats)
      ensures item.kind == "seat" ==> fresh(seats[|seats| - 1]) && !seats[|seats| - 1].isSelected
    {
      ghost var m0 := model;
      ghost var s0 := seats;
      var drawn: seq<GraphicSeat> := [];
      if item.kind == "seat" {
        var g := Draw(item);
        drawn := [g];
      }
      assert forall g :: g in drawn ==> g !in s0;
      model := model + [item];
      seats := seats + drawn;
      AppendedValid(m0, s0, item, drawn, reserved, zoneColours, editable);
      DistinctAppend(s0, drawn);
    }

    /** `load_data`: the model becomes one element per input dict, in
        order, each drawn afresh, so no seat is selected afterwards. */
    method LoadData(data: seq<ItemDict>)
      modifies this
      ensures Valid() && model == LoadAll(data) && zoneColours == old(zoneColours)
      ensures Unselected(seats)
    {
      model := [];
      seats := [];
      for i := 0 to |data|
        invariant Valid() && model == LoadAll(data[..i]) && zoneColours == old(zoneColours)
        invariant Unselected(seats)
      {
        assert data[..i + 1] == data[..i] + [data[i]];
        LoadAllSnoc(data[..i], data[i]);
        Append(LoadItem(data[i]));
      }
      assert data[..|data|] == data;
    }

    /** The placing loop of `mousePressEvent`: each placed dict is added
        with `add_item` as a loaded element, in order. */
    method AddAll(placed: seq<ItemDict>)
      requires Valid()
      modifies this
      ensures Valid() && model == old(model) + LoadAll(placed)
    {
      for i := 0 to |placed|
        invariant Valid() && model == old(model) + LoadAll(placed[..i])
      {
        assert placed[..i + 1] == placed[..i] + [placed[i]];
        LoadAllSnoc(placed[..i], placed[i]);
        AddItem(LoadItem(placed[i]));
      }
      assert placed[..|placed|] == placed;
    }

    /** `remove_item`: deletes the target, its children and their children
        (by id), then reloads the survivors. */
    method RemoveItem(target: MapItem)
      requires Valid()
      modifies this
      ensures Valid() && model == Reload(Survivors(old(model), RemovalIds(old(model), target.id)))
      ensures model == Survivors(old(model), RemovalIds(old(model), target.id))
      ensures zoneColours == old(zoneColours)
      ensures Unselected(seats)
    {
      var ids := {target.id};
      for i := 0 to |model|
        invariant ids == {target.id} + ChildIds(model[..i], target.id)
      {
        assert model[..i + 1][..i] == model[..i];
        if model[i].parentId == Some(target.id) {
          ids := ids + {model[i].id};
        }
      }
      assert model[..|model|] == model;
      var kept := Survivors(model, ids);
      SurvivorsMembers(model, ids);
      forall i | 0 <= i < |kept|
        ensures WellFormed(kept[i])
      {
        assert kept[i] in model;
      }
      ReloadWellFormed(kept);
      LoadData(ToDicts(kept));
    }

    /** `_push_zones_to_map`: the zone colours are rebuilt from zones and
        the elements are written out and loaded back (ReloadWellFormed:
        unchanged when they are well formed, as in a valid view). */
    method PushZones(zones: seq<Zone>)
      modifies this
      ensures Valid() && zoneColours == ZoneColours(zones) && model == Reload(old(model))
      ensures Unselected(seats)
    {
      zoneColours := BuildZoneColours(zones);
      LoadData(ToDicts(model));
    }

    /** `get_selected_seats`, in model order. */
    function SelectedSeats(): seq<string>
      reads this, seats
    {
      SelectedIn(seats)
    }

    /** A click on seat graphic k. */
    method ClickSeat(k: nat)
      requires Valid() && k < |seats|
      modifies seats[k]
      ensures Valid()
      ensures seats[k].isSelected == (old(seats[k].isSelected) != (!seats[k].isReserved && !editable))
      ensures forall j :: 0 <= j < |seats| && j != k ==> seats[j].isSelected == old(seats[j].isSelected)
    {
      seats[k].MousePress();
    }

    /** No reserved code is ever among the selected seats. */
    lemma SelectedAreFree()
      requires Valid()
      ensures forall id :: id in SelectedSeats() ==> !IsReserved(id)
    {
      SelectedInMembers(seats);
    }

    /** The colour each seat shows: reserved (by normalised code) first,
        then selected, then its zone's colour. */
    lemma SeatColour(k: nat)
      requires Valid() && k < |seats|
      ensures var item := SeatItems(model)[k];
        seats[k].Colour() == if IsReserved(item.id) then ReservedColour
                             else if seats[k].isSelected then SelectedColour
                             else ZoneColour(zoneColours, item.zoneId)
    {
    }
  }

  // ---------------------------------------------------------------------
  // The editing scene (`InteractiveMapScene`): tool state and placement.

  /** The scene's tool; a name the scene does not know places nothing. */
  datatype Mode = View | Delete | AddSeat | AddDecor | AddTableRound | AddTableRect | Unknown(name: string)

  /** The tool configuration dict; a missing key is None. */
  datatype ToolConfig = ToolConfig(
    zoneId: Option<string>,
    decorType: Option<string>,
    caption: Option<string>,
    w: Option<real>,
    h: Option<real>,
    seats: Option<nat>,
    isSquare: Option<bool>)

  const EmptyConfig := ToolConfig(None, None, None, None, None, None, None)

  /** Qt's key code for R. */
  const KeyR := 0x52

  /** A zone id as the editor reads it from a config or the zone list: the
      value trimmed, "Z1" when it is missing, empty or blank. */
  function ZoneOrDefault(raw: Option<string>): string
  {
    var t := Trim(if Truthy(raw) then raw.value else "Z1");
    if t == [] then "Z1" else t
  }

  lemma TrimZ1()
    ensures Trim("Z1") == "Z1"
  {
    assert !IsSpace('Z') && !IsSpace('1');
    TrimOfTrimmed("Z1");
  }

  /** The zone is never blank and already trimmed; a value that is not
      blank is used, trimmed. */
  lemma ZoneOrDefaultTrimmed(raw: Option<string>)
    ensures ZoneOrDefault(raw) != [] && Trim(ZoneOrDefault(raw)) == ZoneOrDefault(raw)
    ensures Truthy(raw) && Trim(raw.value) != [] ==> ZoneOrDefault(raw) == Trim(raw.value)
    ensures !Truthy(raw) ==> ZoneOrDefault(raw) == "Z1"
  {
    TrimZ1();
    if Truthy(raw) {
      TrimIdempotent(raw.value);
    }
  }

  /** The preview's size after `update_config`. */
  function GhostSize(mode: Mode, cfg: ToolConfig): (real, real) {
    if mode == AddTableRound then
      var d := (2 * RoundRadius(cfg.seats.GetOr(0))) as real;
      (d, d)
    else if mode == AddTableRect then
      var n := cfg.seats.GetOr(0);
      var sq := cfg.isSquare.GetOr(false);
      (RectWidth(n, sq) as real, RectHeight(n, sq) as real)
    else if mode == AddDecor then (cfg.w.GetOr(100.0), cfg.h.GetOr(50.0))
    else (30.0, 30.0)
  }

  predicate InCanvas(cx: real, cy: real) {
    0.0 <= cx <= LogicalWidth && 0.0 <= cy <= LogicalHeight
  }

  /** The seat `add_seat` creates: 30 x 30, its top-left corner half the
      preview size up and left of the click. */
  function NewSeat(zid: string, ghostW: real, ghostH: real, model: seq<MapItem>, cx: real, cy: real): ItemDict {
    ItemDict(NextId("S", model), "seat", cx - ghostW / 2.0, cy - ghostH / 2.0, Some(30.0), Some(30.0), Some(0.0),
             None, None, Some(zid))
  }

  /** The decor `add_decor` creates: id "D-" + the next id for its label. */
  function NewDecor(cfg: ToolConfig, model: seq<MapItem>, cx: real, cy: real): (r: ItemDict)
    ensures r.w.Some? && r.h.Some?
  {
    var caption := cfg.caption.GetOr("Decor");
    var d := GenerateDecor(cx, cy, cfg.decorType.GetOr("decor_generic"), cfg.w.GetOr(100.0), cfg.h.GetOr(50.0), caption, 0.0);
    d[0].(id := "D-" + NextId(caption, model))
  }

  function NewRoundTable(cfg: ToolConfig, model: seq<MapItem>, cx: real, cy: real, trig: Trig): (r: seq<ItemDict>)
    ensures HasSize(r)
  {
    var n := cfg.seats.GetOr(4);
    RoundTableSetHasSize(trig, cx, cy, NextId("M", model), n);
    RoundTableSet(trig, cx, cy, NextId("M", model), n)
  }

  function NewRectTable(cfg: ToolConfig, model: seq<MapItem>, cx: real, cy: real): (r: seq<ItemDict>)
    ensures HasSize(r)
  {
    var n := cfg.seats.GetOr(6);
    var sq := cfg.isSquare.GetOr(false);
    RectTableSetHasSize(cx, cy, NextId("M", model), n, sq);
    RectTableSet(cx, cy, NextId("M", model), n, sq)
  }

  /** The dicts a click in a placing mode creates, before zone filling and
      rotation; other modes create nothing. */
  function NewItems(mode: Mode, cfg: ToolConfig, zid: string, ghostW: real, ghostH: real, model: seq<MapItem>,
                    cx: real, cy: real, trig: Trig): (r: seq<ItemDict>)
    ensures HasSize(r)
  {
    if mode == AddSeat then [NewSeat(zid, ghostW, ghostH, model, cx, cy)]
    else if mode == AddDecor then [NewDecor(cfg, model, cx, cy)]
    else if mode == AddTableRound then NewRoundTable(cfg, model, cx, cy, trig)
    else if mode == AddTableRect then NewRectTable(cfg, model, cx, cy)
    else []
  }

  /** Seats lacking a zone get zid; nothing else changes. */
  function ZoneFilled(s: seq<ItemDict>, zid: string): (r: seq<ItemDict>)
    ensures |r| == |s|
    ensures forall i :: 0 <= i < |s| ==> r[i].w == s[i].w && r[i].h == s[i].h
  {
    seq(|s|, i requires 0 <= i < |s| =>
      if s[i].kind == "seat" && !Truthy(s[i].zoneId) then s[i].(zoneId := Some(zid)) else s[i])
  }

  /** The dicts a click adds: created, zone-filled with zid, then turned by
      the pending rotation about the click point. */
  function Placed(mode: Mode, cfg: ToolConfig, zid: string, rotation: int, ghostW: real, ghostH: real, model: seq<MapItem>,
                  cx: real, cy: real, trig: Trig): seq<ItemDict>
  {
    var filled := ZoneFilled(NewItems(mode, cfg, zid, ghostW, ghostH, model, cx, cy, trig), zid);
    RotatedGroup(trig, filled, cx, cy, rotation as real)
  }

  /** The model after a click at (cx, cy) on the canvas; target is the
      element under the pointer, as hit-testing resolves it. */
  function PressResult(mode: Mode, cfg: ToolConfig, rotation: int, ghostW: real, ghostH: real, model: seq<MapItem>,
                       cx: real, cy: real, target: Option<MapItem>, trig: Trig): seq<MapItem>
  {
    if mode == View || !InCanvas(cx, cy) then model
    else if mode == Delete then
      if target.Some? then Reload(Survivors(model, RemovalIds(model, target.value.id))) else model
    else model + LoadAll(Placed(mode, cfg, ZoneOrDefault(cfg.zoneId), rotation, ghostW, ghostH, model, cx, cy, trig))
  }

  class InteractiveMapScene {
    var mode: Mode
    var config: ToolConfig
    var currentRotation: int
    /** The placement preview's size and visibility. */
    var ghostW: real
    var ghostH: real
    var ghostVisible: bool

    /** The pending rotation is a multiple of 45 in [0, 360); in a placing
        mode the preview has the size of what a click places. */
    predicate Valid()
      reads this
    {
      && 0 <= currentRotation < 360 && currentRotation % 45 == 0
      && (mode != View && mode != Delete ==> (ghostW, ghostH) == GhostSize(mode, config))
    }

    constructor()
      ensures Valid() && mode == View && config == EmptyConfig && currentRotation == 0 && !ghostVisible
    {
      mode := View;
      config := EmptyConfig;
      currentRotation := 0;
      ghostW, ghostH := 30.0, 30.0;
      ghostVisible := false;
    }

    /** `set_tool`: stores the mode and configuration (none means empty),
        clears the pending rotation, and shows a preview sized for the tool
        unless the mode is view or delete. */
    method SetTool(mode: Mode, config: Option<ToolConfig>)
      modifies this
      ensures Valid() && this.mode == mode && this.config == config.GetOr(EmptyConfig) && currentRotation == 0
      ensures ghostVisible == (mode != View && mode != Delete)
      ensures !ghostVisible ==> ghostW == old(ghostW) && ghostH == old(ghostH)
    {
      this.mode := mode;
      this.config := config.GetOr(EmptyConfig);
      currentRotation := 0;
      if mode == View || mode == Delete {
        ghostVisible := false;
      } else {
        var size := GhostSize(mode, this.config);
        ghostW, ghostH := size.0, size.1;
        ghostVisible := true;
      }
    }

    /** `keyPressEvent`: R advances the pending rotation by 45 degrees. */
    method KeyPress(key: int)
      requires Valid()
      modifies this
      ensures Valid() && mode == old(mode) && config == old(config)
      ensures currentRotation == if key == KeyR then (old(currentRotation) + 45) % 360 else old(currentRotation)
    {
      if key == KeyR {
        currentRotation := (currentRotation + 45) % 360;
      }
    }

    /** `mousePressEvent`: in view mode and outside the canvas nothing
        happens; delete removes the target with its dependants; a placing
        mode appends what it creates. */
    method MousePress(view: SeatMapView, cx: real, cy: real, target: Option<MapItem>, trig: Trig)
      requires Valid() && view.Valid()
      modifies view
      ensures view.Valid()
      ensures view.model == PressResult(mode, config, currentRotation, ghostW, ghostH, old(view.model), cx, cy, target, trig)
      ensures mode == View || !InCanvas(cx, cy) ==> view.model == old(view.model)
    {
      if mode == View {
        return;
      }
      if !(0.0 <= cx <= LogicalWidth && 0.0 <= cy <= LogicalHeight) {
        return;
      }
      if mode == Delete {
        if target.Some? {
          view.RemoveItem(target.value);
        }
        return;
      }
      ghost var m0 := view.model;
      PlaceNew(view, cx, cy, trig);
      PressAppends(mode, config, currentRotation, ghostW, ghostH, m0, cx, cy, target, trig);
    }

    /** The placing branch of `mousePressEvent`: create, fill zones, rotate
        and append. */
    method PlaceNew(view: SeatMapView, cx: real, cy: real, trig: Trig)
      requires view.Valid()
      modifies view
      ensures view.Valid()
      ensures view.model == old(view.model)
        + LoadAll(Placed(mode, config, ZoneOrDefault(config.zoneId), currentRotation, ghostW, ghostH, old(view.model), cx, cy, trig))
    {
      PlaceWith(view, mode, config, currentRotation, ghostW, ghostH, cx, cy, trig);
    }
  }

  /** The creation step of `mousePressEvent` for the placing modes. */
  method MakeNewItems(mode: Mode, config: ToolConfig, ghostW: real, ghostH: real, model: seq<MapItem>, zid: string,
                      cx: real, cy: real, trig: Trig) returns (items: seq<ItemDict>)
    ensures items == NewItems(mode, config, zid, ghostW, ghostH, model, cx, cy, trig)
  {
    if mode == AddSeat {
      var nextId := GetNextId("S", model);
      items := [ItemDict(nextId, "seat", cx - ghostW / 2.0, cy - ghostH / 2.0, Some(30.0), Some(30.0), Some(0.0),
                         None, None, Some(zid))];
    } else if mode == AddDecor {
      var caption := config.caption.GetOr("Decor");
      var nextLabel := GetNextId(caption, model);
      items := GenerateDecor(cx, cy, config.decorType.GetOr("decor_generic"), config.w.GetOr(100.0),
                             config.h.GetOr(50.0), caption, 0.0);
      items := [items[0].(id := "D-" + nextLabel)];
      assert items == [NewDecor(config, model, cx, cy)];
    } else if mode == AddTableRound {
      var nextId := GetNextId("M", model);
      items := GenerateRoundTableSet(trig, cx, cy, nextId, config.seats.GetOr(4));
      assert items == NewRoundTable(config, model, cx, cy, trig);
    } else if mode == AddTableRect {
      var nextId := GetNextId("M", model);
      items := GenerateRectTableSet(cx, cy, nextId, config.seats.GetOr(6), config.isSquare.GetOr(false));
      assert items == NewRectTable(config, model, cx, cy);
    } else {
      items := [];
    }
  }

  /** The placing branch of `mousePressEvent` for the given tool state. */
  method PlaceWith(view: SeatMapView, mode: Mode, config: ToolConfig, rotation: int, ghostW: real, ghostH: real,
                   cx: real, cy: real, trig: Trig)
    requires view.Valid()
    modifies view
    ensures view.Valid()
    ensures view.model == old(view.model)
      + LoadAll(Placed(mode, config, ZoneOrDefault(config.zoneId), rotation, ghostW, ghostH, old(view.model), cx, cy, trig))
  {
    var zid := ZoneOrDefault(config.zoneId);
    var created := MakeNewItems(mode, config, ghostW, ghostH, view.model, zid, cx, cy, trig);
    PlacedOf(mode, config, zid, rotation, ghostW, ghostH, view.model, cx, cy, trig, created);
    assert view.Valid() && HasSize(created);
    AddPlaced(view, created, zid, cx, cy, rotation, trig);
  }

  /** The zone fill loop of `mousePressEvent`, in place. */
  method FillZones(items: array<ItemDict>, zid: string)
    modifies items
    ensures items[..] == ZoneFilled(old(items[..]), zid)
  {
    ghost var created := items[..];
    for i := 0 to items.Length
      invariant forall k :: 0 <= k < i ==> items[k] == ZoneFilled(created, zid)[k]
      invariant forall k :: i <= k < items.Length ==> items[k] == created[k]
    {
      if items[i].kind == "seat" && !Truthy(items[i].zoneId) {
        items[i] := items[i].(zoneId := Some(zid));
      }
    }
  }

  /** The end of `mousePressEvent` in a placing mode: fill seat zones,
      rotate the group about the click point, append each as a `MapItem`. */
  method AddPlaced(view: SeatMapView, created: seq<ItemDict>, zid: string, cx: real, cy: real, rotation: int, trig: Trig)
    requires view.Valid() && HasSize(created)
    modifies view
    ensures view.Valid()
    ensures view.model == old(view.model) + LoadAll(RotatedGroup(trig, ZoneFilled(created, zid), cx, cy, rotation as real))
  {
    var items := ToArray(created);
    FillZones(items, zid);
    ApplyRotationToGroup(trig, items, cx, cy, rotation as real);
    view.AddAll(items[..]);
  }

  // ---------------------------------------------------------------------
  // What a click places.

  /** Placed is the created group, zone-filled and rotated. */
  lemma PlacedOf(mode: Mode, cfg: ToolConfig, zid: string, rotation: int, ghostW: real, ghostH: real, model: seq<MapItem>,
                 cx: real, cy: real, trig: Trig, created: seq<ItemDict>)
    requires created == NewItems(mode, cfg, zid, ghostW, ghostH, model, cx, cy, trig)
    ensures Placed(mode, cfg, zid, rotation, ghostW, ghostH, model, cx, cy, trig)
      == RotatedGroup(trig, ZoneFilled(created, zid), cx, cy, rotation as real)
  {
  }

  /** A placing click on the canvas keeps the model and appends the loaded
      new elements after it. */
  lemma PressAppends(mode: Mode, cfg: ToolConfig, rotation: int, ghostW: real, ghostH: real, model: seq<MapItem>,
                     cx: real, cy: real, target: Option<MapItem>, trig: Trig)
    requires mode != View && mode != Delete && InCanvas(cx, cy)
    ensures PressResult(mode, cfg, rotation, ghostW, ghostH, model, cx, cy, target, trig)
      == model + LoadAll(Placed(mode, cfg, ZoneOrDefault(cfg.zoneId), rotation, ghostW, ghostH, model, cx, cy, trig))
  {
  }

  /** Element i of a placed group keeps its id, kind and parent; a seat
      without a zone takes zid and anything that is not a seat loads with
      the empty zone. */
  lemma PlacedAt(trig: Trig, s: seq<ItemDict>, zid: string, cx: real, cy: real, angle: real, i: nat)
    requires HasSize(s) && i < |s|
    ensures HasSize(ZoneFilled(s, zid))
    ensures var m := LoadAll(RotatedGroup(trig, ZoneFilled(s, zid), cx, cy, angle))[i];
      && m.id == s[i].id && m.kind == s[i].kind && m.parentId == s[i].parentId
      && m.zoneId == (if s[i].kind != "seat" then "" else if Truthy(s[i].zoneId) then s[i].zoneId.value else zid)
  {
    var f := ZoneFilled(s, zid);
    assert HasSize(f) by {
      forall k | 0 <= k < |f| ensures f[k].w.Some? && f[k].h.Some? {
        assert f[k].w == s[k].w && f[k].h == s[k].h;
      }
    }
    if angle != 0.0 {
      RotatedGroupFields(trig, f, cx, cy, angle, i);
    }
  }

  /** A lone unrotated element turned about its own centre by an angle in
      [0, 360) keeps its place and takes that angle as its rotation. */
  lemma RotatedInPlace(trig: Trig, item: ItemDict, cx: real, cy: real, angle: int)
    requires item.w.Some? && item.h.Some? && item.rotation == Some(0.0) && 0 <= angle < 360
    requires cx == item.x + item.w.value / 2.0 && cy == item.y + item.h.value / 2.0
    ensures RotatedGroup(trig, [item], cx, cy, angle as real) == [item.(rotation := Some(angle as real))]
  {
    if angle != 0 {
      RotateAboutOwnCentre(trig, item, angle as real);
      FloorModInRange(angle as real, 360.0);
    }
  }

  /** In add_seat mode the placed group is the new seat alone: its zone is
      already set, so zone filling leaves it. */
  lemma PlacedSeatGroup(cfg: ToolConfig, zid: string, rotation: int, model: seq<MapItem>, cx: real, cy: real, trig: Trig)
    requires zid != []
    ensures Placed(AddSeat, cfg, zid, rotation, 30.0, 30.0, model, cx, cy, trig)
      == RotatedGroup(trig, [NewSeat(zid, 30.0, 30.0, model, cx, cy)], cx, cy, rotation as real)
  {
    var seat := NewSeat(zid, 30.0, 30.0, model, cx, cy);
    var f := ZoneFilled([seat], zid);
    assert f[0] == seat;
    assert f == [seat];
    assert NewItems(AddSeat, cfg, zid, 30.0, 30.0, model, cx, cy, trig) == [seat];
  }

  /** The seat a click in add_seat mode places, when the preview is the
      30 x 30 seat and the pending rotation is in [0, 360): it stays centred
      on the click and its rotation is the pending one. */
  lemma PlacedSeat(cfg: ToolConfig, zid: string, rotation: int, model: seq<MapItem>, cx: real, cy: real, trig: Trig)
    requires zid != [] && 0 <= rotation < 360
    ensures Placed(AddSeat, cfg, zid, rotation, 30.0, 30.0, model, cx, cy, trig)
      == [ItemDict(NextId("S", model), "seat", cx - 15.0, cy - 15.0, Some(30.0), Some(30.0), Some(rotation as real),
                   None, None, Some(zid))]
  {
    var seat := NewSeat(zid, 30.0, 30.0, model, cx, cy);
    PlacedSeatGroup(cfg, zid, rotation, model, cx, cy, trig);
    RotatedInPlace(trig, seat, cx, cy, rotation);
  }

  /** In add_seat mode a click on the canvas appends exactly one 30 x 30
      seat centred on the click, with the next "S" id (a fresh one), no
      parent and the configured zone; the pending rotation only sets its
      rotation field. */
  lemma AddSeatClick(cfg: ToolConfig, rotation: int, model: seq<MapItem>, cx: real, cy: real,
                     target: Option<MapItem>, trig: Trig)
    requires 0 <= rotation < 360 && InCanvas(cx, cy)
    ensures var r := PressResult(AddSeat, cfg, rotation, 30.0, 30.0, model, cx, cy, target, trig);
      && |r| == |model| + 1 && r[..|model|] == model
      && r[|model|] == MapItem(NextId("S", model), cx - 15.0, cy - 15.0, "seat", 30.0, 30.0, None,
                               rotation as real, "", ZoneOrDefault(cfg.zoneId))
      && forall i :: 0 <= i < |model| ==> model[i].id != r[|model|].id
  {
    var m := MapItem(NextId("S", model), cx - 15.0, cy - 15.0, "seat", 30.0, 30.0, None,
                     rotation as real, "", ZoneOrDefault(cfg.zoneId));
    PressAppends(AddSeat, cfg, rotation, 30.0, 30.0, model, cx, cy, target, trig);
    AddSeatPlaced(cfg, rotation, model, cx, cy, trig);
    assert (model + [m])[..|model|] == model;
    NextIdIsFresh("S", model);
  }

  /** What a click in add_seat mode loads: the one seat of AddSeatClick. */
  lemma AddSeatPlaced(cfg: ToolConfig, rotation: int, model: seq<MapItem>, cx: real, cy: real, trig: Trig)
    requires 0 <= rotation < 360
    ensures LoadAll(Placed(AddSeat, cfg, ZoneOrDefault(cfg.zoneId), rotation, 30.0, 30.0, model, cx, cy, trig))
      == [MapItem(NextId("S", model), cx - 15.0, cy - 15.0, "seat", 30.0, 30.0, None,
                  rotation as real, "", ZoneOrDefault(cfg.zoneId))]
  {
    var zid := ZoneOrDefault(cfg.zoneId);
    ZoneOrDefaultTrimmed(cfg.zoneId);
    var d := ItemDict(NextId("S", model), "seat", cx - 15.0, cy - 15.0, Some(30.0), Some(30.0), Some(rotation as real),
                      None, None, Some(zid));
    PlacedSeat(cfg, zid, rotation, model, cx, cy, trig);
    LoadAllSnoc([], d);
    assert [] + [d] == [d];
    assert LoadItem(d) == MapItem(NextId("S", model), cx - 15.0, cy - 15.0, "seat", 30.0, 30.0, None,
                                  rotation as real, "", zid);
  }

  lemma RoundTableSetNoZones(trig: Trig, cx: real, cy: real, tableId: string, n: nat)
    ensures forall j :: 0 <= j < n + 1 ==> RoundTableSet(trig, cx, cy, tableId, n)[j].zoneId == None
  {
    forall j | 1 <= j <= n
      ensures RoundTableSet(trig, cx, cy, tableId, n)[j].zoneId == None
    {
      RoundTableSetAt(trig, cx, cy, tableId, n, j);
    }
  }

  lemma RectTableSetNoZones(cx: real, cy: real, tableId: string, n: nat, square: bool)
    ensures forall j :: 0 <= j < n + 1 ==> RectTableSet(cx, cy, tableId, n, square)[j].zoneId == None
  {
    forall j | 1 <= j <= n
      ensures RectTableSet(cx, cy, tableId, n, square)[j].zoneId == None
    {
      RectTableSetAt(cx, cy, tableId, n, square, j);
    }
  }

  /** A placed table set with no zones of its own: the table first, with
      the empty zone, then its seats, each parented to it and in zid. */
  lemma PlacedTableSet(s: seq<ItemDict>, tableId: string, kind: string, n: nat, zid: string,
                       cx: real, cy: real, angle: real, trig: Trig)
    requires HasSize(s) && TableSetAt(s, 0, tableId, kind, n) && |s| == n + 1 && kind != "seat"
    requires forall j :: 0 <= j < |s| ==> s[j].zoneId == None
    ensures HasSize(ZoneFilled(s, zid))
    ensures var r := LoadAll(RotatedGroup(trig, ZoneFilled(s, zid), cx, cy, angle));
      && |r| == n + 1 && r[0].id == tableId && r[0].kind == kind && r[0].zoneId == ""
      && forall j :: 1 <= j <= n ==> r[j].kind == "seat" && r[j].parentId == Some(tableId) && r[j].zoneId == zid
  {
    forall j | 0 <= j <= n
      ensures var r := LoadAll(RotatedGroup(trig, ZoneFilled(s, zid), cx, cy, angle));
        r[j].id == s[j].id && r[j].kind == s[j].kind && r[j].parentId == s[j].parentId
        && r[j].zoneId == (if s[j].kind != "seat" then "" else zid)
    {
      PlacedAt(trig, s, zid, cx, cy, angle, j);
    }
    forall j | 1 <= j <= n ensures SeatOf(s[j], tableId, j) {
      assert SeatOf(s[0 + j], tableId, j);
    }
  }

  /** What a click in add_table_round mode loads: the table, with the next
      "M" id and no zone, then its seats (4 unless configured), each
      parented to the table and in zone zid. */
  lemma RoundTablePlaced(cfg: ToolConfig, zid: string, rotation: int, ghostW: real, ghostH: real,
                         model: seq<MapItem>, cx: real, cy: real, trig: Trig)
    ensures var r := LoadAll(Placed(AddTableRound, cfg, zid, rotation, ghostW, ghostH, model, cx, cy, trig));
      var tid := NextId("M", model);
      && |r| == cfg.seats.GetOr(4) + 1 && r[0].id == tid && r[0].kind == "table_round" && r[0].zoneId == ""
      && forall j :: 1 <= j < |r| ==> r[j].kind == "seat" && r[j].parentId == Some(tid) && r[j].zoneId == zid
  {
    var tid := NextId("M", model);
    var n := cfg.seats.GetOr(4);
    var set_ := RoundTableSet(trig, cx, cy, tid, n);
    assert NewItems(AddTableRound, cfg, zid, ghostW, ghostH, model, cx, cy, trig) == set_;
    RoundTableSetShape(trig, cx, cy, tid, n);
    RoundTableSetNoZones(trig, cx, cy, tid, n);
    RoundTableSetHasSize(trig, cx, cy, tid, n);
    PlacedTableSet(set_, tid, "table_round", n, zid, cx, cy, rotation as real, trig);
  }

  /** The same for add_table_rect: 6 seats unless configured. */
  lemma RectTablePlaced(cfg: ToolConfig, zid: string, rotation: int, ghostW: real, ghostH: real,
                        model: seq<MapItem>, cx: real, cy: real, trig: Trig)
    ensures var r := LoadAll(Placed(AddTableRect, cfg, zid, rotation, ghostW, ghostH, model, cx, cy, trig));
      var tid := NextId("M", model);
      && |r| == cfg.seats.GetOr(6) + 1 && r[0].id == tid && r[0].kind == "table_rect" && r[0].zoneId == ""
      && forall j :: 1 <= j < |r| ==> r[j].kind == "seat" && r[j].parentId == Some(tid) && r[j].zoneId == zid
  {
    var tid := NextId("M", model);
    var n := cfg.seats.GetOr(6);
    var sq := cfg.isSquare.GetOr(false);
    var set_ := RectTableSet(cx, cy, tid, n, sq);
    assert NewItems(AddTableRect, cfg, zid, ghostW, ghostH, model, cx, cy, trig) == set_;
    RectTableSetShape(cx, cy, tid, n, sq);
    RectTableSetNoZones(cx, cy, tid, n, sq);
    RectTableSetHasSize(cx, cy, tid, n, sq);
    PlacedTableSet(set_, tid, "table_rect", n, zid, cx, cy, rotation as real, trig);
  }

  /** A table group appended to a model: the model stays a prefix and the
      group's facts move up by |model|. */
  lemma AppendedTable(model: seq<MapItem>, added: seq<MapItem>, tid: string, kind: string, zid: string)
    requires |added| >= 1 && added[0].id == tid && added[0].kind == kind && added[0].zoneId == ""
    requires forall j :: 1 <= j < |added| ==> added[j].kind == "seat" && added[j].parentId == Some(tid) && added[j].zoneId == zid
    ensures var r := model + added;
      && r[..|model|] == model && r[|model|].id == tid && r[|model|].kind == kind && r[|model|].zoneId == ""
      && forall j :: |model| < j < |r| ==> r[j].kind == "seat" && r[j].parentId == Some(tid) && r[j].zoneId == zid
  {
    var r := model + added;
    assert r[..|model|] == model;
    forall j | |model| < j < |r|
      ensures r[j].kind == "seat" && r[j].parentId == Some(tid) && r[j].zoneId == zid
    {
      assert r[j] == added[j - |model|];
    }
  }

  /** A click in add_table_round mode appends the table, with the next
      (fresh) "M" id and no zone, then its seats (4 unless configured), each
      parented to the table and in the configured zone. */
  lemma RoundTableClick(cfg: ToolConfig, rotation: int, ghostW: real, ghostH: real, model: seq<MapItem>,
                        cx: real, cy: real, target: Option<MapItem>, trig: Trig)
    requires InCanvas(cx, cy)
    ensures var r := PressResult(AddTableRound, cfg, rotation, ghostW, ghostH, model, cx, cy, target, trig);
      var tid := NextId("M", model);
      && |r| == |model| + cfg.seats.GetOr(4) + 1 && r[..|model|] == model
      && r[|model|].id == tid && r[|model|].kind == "table_round" && r[|model|].zoneId == ""
      && (forall j :: |model| < j < |r| ==>
            r[j].kind == "seat" && r[j].parentId == Some(tid) && r[j].zoneId == ZoneOrDefault(cfg.zoneId))
      && forall i :: 0 <= i < |model| ==> model[i].id != tid
  {
    var zid := ZoneOrDefault(cfg.zoneId);
    PressAppends(AddTableRound, cfg, rotation, ghostW, ghostH, model, cx, cy, target, trig);
    RoundTablePlaced(cfg, zid, rotation, ghostW, ghostH, model, cx, cy, trig);
    var added := LoadAll(Placed(AddTableRound, cfg, zid, rotation, ghostW, ghostH, model, cx, cy, trig));
    AppendedTable(model, added, NextId("M", model), "table_round", zid);
    NextIdIsFresh("M", model);
  }

  /** The same for add_table_rect: 6 seats unless configured. */
  lemma RectTableClick(cfg: ToolConfig, rotation: int, ghostW: real, ghostH: real, model: seq<MapItem>,
                       cx: real, cy: real, target: Option<MapItem>, trig: Trig)
    requires InCanvas(cx, cy)
    ensures var r := PressResult(AddTableRect, cfg, rotation, ghostW, ghostH, model, cx, cy, target, trig);
      var tid := NextId("M", model);
      && |r| == |model| + cfg.seats.GetOr(6) + 1 && r[..|model|] == model
      && r[|model|].id == tid && r[|model|].kind == "table_rect" && r[|model|].zoneId == ""
      && (forall j :: |model| < j < |r| ==>
            r[j].kind == "seat" && r[j].parentId == Some(tid) && r[j].zoneId == ZoneOrDefault(cfg.zoneId))
      && forall i :: 0 <= i < |model| ==> model[i].id != tid
  {
    var zid := ZoneOrDefault(cfg.zoneId);
    PressAppends(AddTableRect, cfg, rotation, ghostW, ghostH, model, cx, cy, target, trig);
    RectTablePlaced(cfg, zid, rotation, ghostW, ghostH, model, cx, cy, trig);
    var added := LoadAll(Placed(AddTableRect, cfg, zid, rotation, ghostW, ghostH, model, cx, cy, trig));
    AppendedTable(model, added, NextId("M", model), "table_rect", zid);
    NextIdIsFresh("M", model);
  }

  /** The decor element a click in add_decor mode appends carries the id
      "D-" + the next id for its label and no parent. */
  lemma DecorClick(cfg: ToolConfig, rotation: int, ghostW: real, ghostH: real, model: seq<MapItem>,
                   cx: real, cy: real, target: Option<MapItem>, trig: Trig)
    requires InCanvas(cx, cy)
    ensures var r := PressResult(AddDecor, cfg, rotation, ghostW, ghostH, model, cx, cy, target, trig);
      && |r| == |model| + 1 && r == model + [r[|model|]]
      && r[|model|].id == "D-" + NextId(cfg.caption.GetOr("Decor"), model) && r[|model|].parentId == None
  {
    var d := NewDecor(cfg, model, cx, cy);
    PressAppends(AddDecor, cfg, rotation, ghostW, ghostH, model, cx, cy, target, trig);
    var zid := ZoneOrDefault(cfg.zoneId);
    assert NewItems(AddDecor, cfg, zid, ghostW, ghostH, model, cx, cy, trig) == [d];
    PlacedAt(trig, [d], zid, cx, cy, rotation as real, 0);
    var added := LoadAll(Placed(AddDecor, cfg, zid, rotation, ghostW, ghostH, model, cx, cy, trig));
    assert added == [added[0]];
    assert (model + added)[|model|] == added[0];
  }

  /** Placing the same decor twice gives both pieces the same id, whatever
      its label, the default "Decor" included: decor ids are not unique. */
  lemma DecorClickTwice(cfg: ToolConfig, rotation: int, ghostW: real, ghostH: real, model: seq<MapItem>,
                        cx: real, cy: real, cx2: real, cy2: real, target: Option<MapItem>, trig: Trig)
    requires InCanvas(cx, cy) && InCanvas(cx2, cy2)
    ensures var r1 := PressResult(AddDecor, cfg, rotation, ghostW, ghostH, model, cx, cy, target, trig);
      var r2 := PressResult(AddDecor, cfg, rotation, ghostW, ghostH, r1, cx2, cy2, target, trig);
      && |r2| == |model| + 2 && r2[|model|].id == r2[|model| + 1].id
  {
    var r1 := PressResult(AddDecor, cfg, rotation, ghostW, ghostH, model, cx, cy, target, trig);
    DecorClick(cfg, rotation, ghostW, ghostH, model, cx, cy, target, trig);
    DecorClick(cfg, rotation, ghostW, ghostH, r1, cx2, cy2, target, trig);
    DecorIdRepeats(cfg.caption.GetOr("Decor"), model, r1[|model|]);
  }
}

/** The zone panel of the hall editor (`HallEditorWidget`): the price-zone
    list, the zone combo built from it, and adding, editing, deleting and
    applying zones. The dialog prompts are parameters: a name (None when
    cancelled), a price (cancelled, rejected by `float`, or its value) and a
    colour (None when the colour dialog gives no valid colour). */
module ZoneEditor {
  import opened Wrappers
  import opened Text
  import opened Records
  import opened SeatMapCore
  import opened Collections

  /** The zones an editor starts with when it is given none. */
  const DefaultZones: seq<Zone> := [
    Zone(Some("Z1"), Some("VIP"), PriceValue(100.0), Some("#ED94FF")),
    Zone(Some("Z2"), Some("Standard"), PriceValue(50.0), Some("#92FCA7"))]

  /** `zones or [...]`: a missing or empty list gives the defaults. */
  function InitialZones(zones: Option<seq<Zone>>): seq<Zone> {
    if zones.Some? && zones.value != [] then zones.value else DefaultZones
  }

  method StartingZones(zones: Option<seq<Zone>>) returns (zs: seq<Zone>)
    ensures zs == InitialZones(zones)
  {
    zs := if zones.Some? && zones.value != [] then zones.value else DefaultZones;
  }

  /** The price dialog's outcome; `float` on the text is done by the caller. */
  datatype PriceInput = PriceCancelled | PriceRejected | PriceEntered(value: real)

  // ---------------------------------------------------------------------
  // The zone combo (`refresh_zone_combo`).

  /** `float(z.get("price", 0))`, a failure shown as 0. */
  function PriceShown(p: PriceField): real {
    match p
    case PriceMissing => 0.0
    case PriceValue(v) => v
    case PriceUnparsable => 0.0
  }

  /** One combo entry: the zone id it carries as data, and the name and
      price its text shows. */
  datatype ComboEntry = ComboEntry(zid: string, name: string, price: real)

  /** The entry for a zone: trimmed id; trimmed name, or the id when the
      name is missing or empty (stripping the id again changes nothing);
      the price as shown. */
  function EntryOf(z: Zone): ComboEntry {
    ComboEntry(ZoneKey(z), if Truthy(z.name) then Trim(z.name.value) else ZoneKey(z), PriceShown(z.price))
  }

  /** What one zone adds to the combo: its entry, unless its id is blank. */
  function ComboOf(z: Zone): Option<ComboEntry> {
    if ZoneKey(z) != "" then Some(EntryOf(z)) else None
  }

  /** The combo's entries: one per zone whose trimmed id is not empty. */
  function ComboEntries(zones: seq<Zone>): seq<ComboEntry> {
    FilterMap(ComboOf, zones)
  }

  /** Every zone with a non-blank id has its entry in the combo. */
  lemma ComboEntriesComplete(zones: seq<Zone>)
    ensures forall i :: 0 <= i < |zones| && ZoneKey(zones[i]) != "" ==> EntryOf(zones[i]) in ComboEntries(zones)
  {
    FilterMapMembers(ComboOf, zones);
    assert forall i :: 0 <= i < |zones| && ZoneKey(zones[i]) != "" ==> ComboOf(zones[i]) == Some(EntryOf(zones[i]));
  }

  /** Every entry in the combo is the entry of a zone with a non-blank id. */
  lemma ComboEntriesSound(zones: seq<Zone>)
    ensures forall e :: e in ComboEntries(zones) ==>
      exists i :: 0 <= i < |zones| && ZoneKey(zones[i]) != "" && e == EntryOf(zones[i])
  {
    FilterMapMembers(ComboOf, zones);
    forall e | e in ComboEntries(zones)
      ensures exists i :: 0 <= i < |zones| && ZoneKey(zones[i]) != "" && e == EntryOf(zones[i])
    {
      var i :| 0 <= i < |zones| && ComboOf(zones[i]) == Some(e);
      assert ZoneKey(zones[i]) != "" && e == EntryOf(zones[i]);
    }
  }

  /** A usable zone id: not blank, and with no whitespace at either end. */
  predicate IsKey(s: string) {
    s != "" && !IsSpace(s[0]) && !IsSpace(s[|s| - 1])
  }

  lemma ConcatKeys(a: seq<ComboEntry>, b: seq<ComboEntry>)
    requires forall k :: 0 <= k < |a| ==> IsKey(a[k].zid)
    requires forall k :: 0 <= k < |b| ==> IsKey(b[k].zid)
    ensures forall k :: 0 <= k < |a + b| ==> IsKey((a + b)[k].zid)
  {
  }

  lemma ComboOfKey(z: Zone)
    ensures ComboOf(z).Some? ==> IsKey(ComboOf(z).value.zid)
  {
    if ZoneKey(z) != "" {
      var t := Trim(z.id.GetOr(""));
      assert !IsSpace(t[0]) && !IsSpace(t[|t| - 1]);
    }
  }

  /** Every entry carries a usable id. */
  lemma {:induction false} ComboEntriesIds(zones: seq<Zone>)
    ensures forall k :: 0 <= k < |ComboEntries(zones)| ==> IsKey(ComboEntries(zones)[k].zid)
  {
    if zones != [] {
      var init := zones[..|zones| - 1];
      ComboEntriesIds(init);
      var y := ComboOf(zones[|zones| - 1]);
      ComboOfKey(zones[|zones| - 1]);
      ConcatKeys(ComboEntries(init), if y.Some? then [y.value] else []);
    }
  }

  /** The id of entry k is usable. */
  lemma ComboEntryIsKey(zones: seq<Zone>, k: int)
    requires 0 <= k < |ComboEntries(zones)|
    ensures IsKey(ComboEntries(zones)[k].zid)
  {
    ComboEntriesIds(zones);
  }

  /** The id of combo entry `current`, or of no entry, as
      `current_zone_id` reads it. */
  lemma CurrentEntryId(zones: seq<Zone>, combo: seq<ComboEntry>, current: int)
    requires combo == ComboEntries(zones) && -1 <= current < |combo|
    ensures var key := if current == -1 then "Z1" else combo[current].zid;
      ZoneOrDefault(if 0 <= current < |combo| then Some(combo[current].zid) else None) == key && key != ""
  {
    if current == -1 {
      ZoneOrDefaultNone();
    } else {
      ComboEntryIsKey(zones, current);
      ZoneOrDefaultOfKey(combo[current].zid);
    }
  }

  /** With no id the default "Z1" is used. */
  lemma ZoneOrDefaultNone()
    ensures ZoneOrDefault(None) == "Z1"
  {
    TrimZ1();
  }

  /** The zone a usable id stands for is that id. */
  lemma ZoneOrDefaultOfKey(s: string)
    requires IsKey(s)
    ensures ZoneOrDefault(Some(s)) == s
  {
    TrimOfTrimmed(s);
  }

  /** A zone whose price does not parse is listed at 0. */
  lemma UnparsablePriceShownAsZero(zones: seq<Zone>, i: nat)
    requires i < |zones| && ZoneKey(zones[i]) != "" && zones[i].price == PriceUnparsable
    ensures ComboEntry(ZoneKey(zones[i]), EntryOf(zones[i]).name, 0.0) in ComboEntries(zones)
  {
    ComboEntriesComplete(zones);
  }

  /** The loop of `refresh_zone_combo`. */
  method BuildCombo(zones: seq<Zone>) returns (entries: seq<ComboEntry>)
    ensures entries == ComboEntries(zones)
  {
    entries := [];
    for i := 0 to |zones|
      invariant entries == ComboEntries(zones[..i])
    {
      assert zones[..i + 1] == zones[..i] + [zones[i]];
      FilterMapSnoc(ComboOf, zones[..i], zones[i]);
      var zid := Trim(zones[i].id.GetOr(""));
      if zid != "" {
        var name := Trim(if Truthy(zones[i].name) then zones[i].name.value else zid);
        TrimIdempotent(zones[i].id.GetOr(""));
        entries := entries + [ComboEntry(zid, name, PriceShown(zones[i].price))];
      }
    }
    assert zones[..|zones|] == zones;
  }

  // ---------------------------------------------------------------------
  // The next zone id (`on_add_zone`).

  /** The number a zone id contributes: the id trimmed and upper-cased,
      when it starts with "Z", read by `int` after the "Z". */
  function ZoneNumber(z: Zone): Option<int> {
    var u := Upper(ZoneKey(z));
    if StartsWith(u, "Z") then ParseInt(u[1..]) else None
  }

  /** The `existing` list: the numbers of the zones that have one, in order. */
  function Numbers(zones: seq<Zone>): seq<int> {
    FilterMap(ZoneNumber, zones)
  }

  /** Python's `max` of a non-empty list. */
  function MaxOf(s: seq<int>): (m: int)
    requires s != []
    ensures m in s && forall x :: x in s ==> x <= m
  {
    if |s| == 1 then s[0]
    else
      var m := MaxOf(s[..|s| - 1]);
      assert forall x :: x in s ==> x in s[..|s| - 1] || x == s[|s| - 1];
      if s[|s| - 1] > m then s[|s| - 1] else m
  }

  /** "Z" followed by one more than the largest number, or by 1. */
  function NextZoneId(zones: seq<Zone>): string {
    var existing := Numbers(zones);
    "Z" + IntToString(if existing == [] then 1 else MaxOf(existing) + 1)
  }

  method ComputeNextZoneId(zones: seq<Zone>) returns (nextId: string)
    ensures nextId == NextZoneId(zones)
  {
    var existing: seq<int> := [];
    for i := 0 to |zones|
      invariant existing == Numbers(zones[..i])
    {
      assert zones[..i + 1] == zones[..i] + [zones[i]];
      FilterMapSnoc(ZoneNumber, zones[..i], zones[i]);
      var zid := Upper(Trim(zones[i].id.GetOr("")));
      if StartsWith(zid, "Z") {
        var n := ParseInt(zid[1..]);
        if n.Some? {
          existing := existing + [n.value];
        }
      }
    }
    assert zones[..|zones|] == zones;
    nextId := "Z" + IntToString(if existing == [] then 1 else MaxOf(existing) + 1);
  }

  /** With no numbered zone the new id is "Z1". */
  lemma NextZoneIdFirst(zones: seq<Zone>)
    requires forall i :: 0 <= i < |zones| ==> ZoneNumber(zones[i]).None?
    ensures NextZoneId(zones) == "Z1"
  {
    FilterMapEmpty(ZoneNumber, zones);
    assert IntToString(1) == "1";
  }

  /** A zone whose id reads "Z" and a number has that number. */
  lemma ZoneNumberOfId(z: Zone, k: int)
    requires Upper(ZoneKey(z)) == "Z" + IntToString(k)
    ensures ZoneNumber(z) == Some(k)
  {
    var u := Upper(ZoneKey(z));
    assert StartsWith(u, "Z");
    assert u[1..] == IntToString(k);
    ParseIntOfIntToString(k);
  }

  /** A zone whose number is not `k` does not have the id "Z" and `k`. */
  lemma OtherNumberOtherId(z: Zone, k: int)
    requires ZoneNumber(z) != Some(k)
    ensures Upper(ZoneKey(z)) != "Z" + IntToString(k)
  {
    if Upper(ZoneKey(z)) == "Z" + IntToString(k) {
      ZoneNumberOfId(z, k);
    }
  }

  /** The new id is not the (trimmed, upper-cased) id of any zone: such a
      zone would number at least the new number. */
  lemma NextZoneIdFresh(zones: seq<Zone>)
    ensures forall i :: 0 <= i < |zones| ==> Upper(ZoneKey(zones[i])) != NextZoneId(zones)
  {
    var existing := Numbers(zones);
    var k := if existing == [] then 1 else MaxOf(existing) + 1;
    assert NextZoneId(zones) == "Z" + IntToString(k);
    forall i | 0 <= i < |zones|
      ensures Upper(ZoneKey(zones[i])) != "Z" + IntToString(k)
    {
      if ZoneNumber(zones[i]).Some? {
        NumberedInNumbers(zones, i);
      }
      OtherNumberOtherId(zones[i], k);
    }
  }

  /** A zone that has a number contributes it to `existing`. */
  lemma NumberedInNumbers(zones: seq<Zone>, i: int)
    requires 0 <= i < |zones| && ZoneNumber(zones[i]).Some?
    ensures ZoneNumber(zones[i]).value in Numbers(zones)
  {
    FilterMapMembers(ZoneNumber, zones);
  }

  // ---------------------------------------------------------------------
  // The three zone dialogs, as functions of the zone list.

  /** The zone `on_add_zone` appends, or None when a dialog is cancelled or
      the price is rejected. */
  function AddedZone(zones: seq<Zone>, name: Option<string>, price: PriceInput, colour: Option<string>): Option<Zone> {
    var nextId := NextZoneId(zones);
    if name.None? || !price.PriceEntered? || colour.None? then None
    else
      var n := Trim(name.value);
      Some(Zone(Some(nextId), Some(if n == "" then nextId else n), PriceValue(price.value), Some(colour.value)))
  }

  /** A new zone has a fresh id, a non-blank name and the entered price
      and colour; any cancelled or rejected prompt adds nothing. */
  lemma AddedZoneShape(zones: seq<Zone>, name: Option<string>, price: PriceInput, colour: Option<string>)
    ensures AddedZone(zones, name, price, colour).Some? <==> name.Some? && price.PriceEntered? && colour.Some?
    ensures AddedZone(zones, name, price, colour).Some? ==>
      var z := AddedZone(zones, name, price, colour).value;
      && z.id == Some(NextZoneId(zones))
      && (forall i :: 0 <= i < |zones| ==> Upper(ZoneKey(zones[i])) != z.id.value)
      && z.name.Some? && z.name.value != ""
      && z.price == PriceValue(price.value) && z.color == colour
  {
    NextZoneIdFresh(zones);
  }

  /** The id `on_edit_zone` and `on_delete_zone` compare: `str(z.get("id"))`
      stripped, where a missing id reads "None". */
  function IdText(z: Zone): string {
    Trim(if z.id.Some? then z.id.value else "None")
  }

  /** A zone record with no keys: `{}`, which Python reads as false. */
  predicate EmptyRecord(z: Zone) {
    z == Zone(None, None, PriceMissing, None)
  }

  /** The id texts of the zones, in order. */
  function IdTexts(zones: seq<Zone>): (ids: seq<string>)
    ensures |ids| == |zones| && forall i :: 0 <= i < |zones| ==> ids[i] == IdText(zones[i])
  {
    seq(|zones|, i requires 0 <= i < |zones| => IdText(zones[i]))
  }

  /** The position of the first x in ids (`next(... if ... == zid)`). */
  function FirstIndexOf(ids: seq<string>, x: string): (r: Option<nat>)
    ensures r.Some? ==> r.value < |ids| && ids[r.value] == x && x !in ids[..r.value]
    ensures r.None? <==> x !in ids
  {
    if ids == [] then None
    else if ids[0] == x then Some(0)
    else
      var r := FirstIndexOf(ids[1..], x);
      assert ids == [ids[0]] + ids[1..];
      if r.Some? then
        assert ids[..r.value + 1] == [ids[0]] + ids[1..][..r.value];
        Some(r.value + 1)
      else None
  }

  /** The position of the zone an edit or a delete of zid finds first. */
  function EditIndex(zones: seq<Zone>, zid: string): Option<nat> {
    FirstIndexOf(IdTexts(zones), zid)
  }

  /** None is found exactly when no zone has the id. */
  lemma EditIndexNone(zones: seq<Zone>, zid: string)
    ensures EditIndex(zones, zid).None? <==> forall j :: 0 <= j < |zones| ==> IdText(zones[j]) != zid
  {
    var ids := IdTexts(zones);
    assert forall j :: 0 <= j < |zones| ==> ids[j] in ids;
  }

  /** The zone found is the first with the id. */
  lemma EditIndexFirst(zones: seq<Zone>, zid: string)
    requires EditIndex(zones, zid).Some?
    ensures var k := EditIndex(zones, zid).value;
      k < |zones| && IdText(zones[k]) == zid && forall j :: 0 <= j < k ==> IdText(zones[j]) != zid
  {
    var ids := IdTexts(zones);
    var k := EditIndex(zones, zid).value;
    assert forall j :: 0 <= j < k ==> ids[..k][j] == ids[j];
  }

  /** The zone list after `on_edit_zone` for zone zid, or None when the
      edit stops early: no zone has the id, the zone is an empty record,
      or a prompt is cancelled or rejected. The first zone with the id
      takes the new name (the id when blank), price and colour. */
  function EditedZones(zones: seq<Zone>, zid: string, name: Option<string>, price: PriceInput,
                       colour: Option<string>): Option<seq<Zone>>
  {
    var k := EditIndex(zones, zid);
    if k.None? || EmptyRecord(zones[k.value]) || name.None? || !price.PriceEntered? || colour.None? then None
    else
      var n := Trim(name.value);
      Some(zones[k.value := zones[k.value].(name := Some(if n == "" then zid else n), price := PriceValue(price.value),
                                           color := Some(colour.value))])
  }

  /** An edit changes exactly one zone, the one EditIndex finds, and
      only its name, price and colour; with a non-blank id the name stays
      non-blank. When no zone has the id, nothing is edited. */
  lemma EditedZonesShape(zones: seq<Zone>, zid: string, name: Option<string>, price: PriceInput, colour: Option<string>)
    ensures EditIndex(zones, zid).None? ==> EditedZones(zones, zid, name, price, colour).None?
    ensures EditedZones(zones, zid, name, price, colour).Some? ==>
      var r := EditedZones(zones, zid, name, price, colour).value;
      var k := EditIndex(zones, zid).value;
      && k < |zones| && |r| == |zones|
      && r[k] == zones[k].(name := r[k].name, price := PriceValue(price.value), color := colour)
      && r[k].name.Some? && (zid != "" ==> r[k].name.value != "")
      && forall j :: 0 <= j < |zones| && j != k ==> r[j] == zones[j]
  {
    var e := EditIndex(zones, zid);
    if EditedZones(zones, zid, name, price, colour).Some? {
      var k := e.value;
      assert k < |zones|;
      var n := Trim(name.value);
      assert n == [] || !IsSpace(n[0]);
      var r := zones[k := zones[k].(name := Some(if n == "" then zid else n), price := PriceValue(price.value),
                                    color := Some(colour.value))];
      assert EditedZones(zones, zid, name, price, colour).value == r;
    }
  }

  /** The dialogs of `on_add_zone`, in the source's order: the next id,
      then the name, price and colour prompts. */
  method NewZone(zones: seq<Zone>, name: Option<string>, price: PriceInput, colour: Option<string>) returns (z: Option<Zone>)
    ensures z == AddedZone(zones, name, price, colour)
  {
    var nextId := ComputeNextZoneId(zones);
    if name.None? {
      return None;
    }
    var n := Trim(name.value);
    if n == "" {
      n := nextId;
    }
    if !price.PriceEntered? || colour.None? {
      return None;
    }
    z := Some(Zone(Some(nextId), Some(n), PriceValue(price.value), Some(colour.value)));
  }

  /** The dialogs of `on_edit_zone` for zone zid, giving the new zone list. */
  method EditZones(zones: seq<Zone>, zid: string, name: Option<string>, price: PriceInput, colour: Option<string>)
    returns (r: Option<seq<Zone>>)
    ensures r == EditedZones(zones, zid, name, price, colour)
  {
    var k := EditIndex(zones, zid);
    if k.None? || EmptyRecord(zones[k.value]) {
      return None;
    }
    if name.None? {
      return None;
    }
    var n := Trim(name.value);
    if n == "" {
      n := zid;
    }
    if !price.PriceEntered? || colour.None? {
      return None;
    }
    r := Some(zones[k.value := zones[k.value].(name := Some(n), price := PriceValue(price.value), color := Some(colour.value))]);
  }

  /** `[z for z in zones if str(z.get("id")).strip() != zid]`. */
  function WithoutZone(zones: seq<Zone>, zid: string): seq<Zone> {
    if zones == [] then []
    else (if IdText(zones[0]) != zid then [zones[0]] else []) + WithoutZone(zones[1..], zid)
  }

  /** Exactly the zones with another id stay. */
  lemma {:induction false} WithoutZoneMembers(zones: seq<Zone>, zid: string)
    ensures forall z :: z in WithoutZone(zones, zid) <==> z in zones && IdText(z) != zid
  {
    if zones != [] {
      WithoutZoneMembers(zones[1..], zid);
      assert forall z :: z in zones <==> z == zones[0] || z in zones[1..];
    }
  }

  /** The layout after `on_delete_zone` for zid: every seat in zid moves to Z1. */
  function Reassigned(model: seq<MapItem>, zid: string): (r: seq<MapItem>)
    ensures |r| == |model|
  {
    seq(|model|, i requires 0 <= i < |model| =>
      if model[i].kind == "seat" && model[i].zoneId == zid then model[i].(zoneId := "Z1") else model[i])
  }

  /** After deleting a zone other than Z1 no seat is in it; only the zone
      of its seats changes, and well-formed elements stay well formed. */
  lemma ReassignedShape(model: seq<MapItem>, zid: string)
    requires zid != "Z1"
    ensures var r := Reassigned(model, zid);
      && (forall i :: 0 <= i < |r| ==> !(r[i].kind == "seat" && r[i].zoneId == zid))
      && (forall i :: 0 <= i < |r| ==> r[i] == model[i].(zoneId := r[i].zoneId))
      && (forall i :: 0 <= i < |r| && (model[i].kind != "seat" || model[i].zoneId != zid) ==> r[i] == model[i])
      && (forall i :: 0 <= i < |r| ==> WellFormed(model[i]) ==> WellFormed(r[i]))
  {
  }

  /** The in-place loop of `on_delete_zone`. */
  method ReassignSeats(items: array<MapItem>, zid: string)
    modifies items
    ensures items[..] == Reassigned(old(items[..]), zid)
  {
    ghost var before := items[..];
    for i := 0 to items.Length
      invariant forall k :: 0 <= k < i ==> items[k] == Reassigned(before, zid)[k]
      invariant forall k :: i <= k < items.Length ==> items[k] == before[k]
    {
      if items[i].kind == "seat" && items[i].zoneId == zid {
        items[i] := items[i].(zoneId := "Z1");
      }
    }
  }

  /** A selected scene item: the graphic of model element `index`, or a
      child shape of that graphic. */
  datatype Pick = Graphic(index: nat) | ChildOf(index: nat)

  /** The pick reaches a seat: the graphic is a seat, or the child's parent is. */
  predicate HitsSeat(model: seq<MapItem>, p: Pick) {
    p.index < |model| && model[p.index].kind == "seat"
  }

  predicate PickedSeat(model: seq<MapItem>, picks: seq<Pick>, i: int) {
    exists j :: 0 <= j < |picks| && picks[j].index == i && HitsSeat(model, picks[j])
  }

  /** The layout after `on_apply_zone`: each seat reached by a pick is in zid. */
  function Applied(model: seq<MapItem>, picks: seq<Pick>, zid: string): (r: seq<MapItem>)
    ensures |r| == |model|
  {
    seq(|model|, i requires 0 <= i < |model| => if PickedSeat(model, picks, i) then model[i].(zoneId := zid) else model[i])
  }

  /** Applying a zone sets it on the picked seats only; tables, decor and
      unpicked seats keep theirs, and nothing else about an element changes. */
  lemma AppliedShape(model: seq<MapItem>, picks: seq<Pick>, zid: string)
    ensures var r := Applied(model, picks, zid);
      && (forall i :: 0 <= i < |r| ==> r[i] == model[i].(zoneId := r[i].zoneId))
      && (forall i :: 0 <= i < |r| ==> (r[i].zoneId == zid <==> PickedSeat(model, picks, i) || model[i].zoneId == zid))
      && (forall i :: 0 <= i < |r| && model[i].kind != "seat" ==> r[i] == model[i])
      && (forall i :: 0 <= i < |r| ==> WellFormed(model[i]) ==> WellFormed(r[i]))
  {
  }

  /** With no pick reaching a seat, applying changes nothing. */
  lemma AppliedNoSeat(model: seq<MapItem>, picks: seq<Pick>, zid: string)
    requires forall j :: 0 <= j < |picks| ==> !HitsSeat(model, picks[j])
    ensures Applied(model, picks, zid) == model
  {
  }

  /** The loop of `on_apply_zone`, on the elements in place; `changed` is
      the number of picks that reached a seat. */
  method ApplyPicks(items: array<MapItem>, picks: seq<Pick>, zid: string) returns (changed: nat)
    modifies items
    ensures items[..] == Applied(old(items[..]), picks, zid)
    ensures changed == 0 <==> forall j :: 0 <= j < |picks| ==> !HitsSeat(old(items[..]), picks[j])
  {
    ghost var before := items[..];
    changed := 0;
    for k := 0 to |picks|
      invariant items[..] == Applied(before, picks[..k], zid)
      invariant changed == 0 <==> forall j :: 0 <= j < k ==> !HitsSeat(before, picks[j])
    {
      var p := picks[k];
      if p.index < items.Length && items[p.index].kind == "seat" {
        assert HitsSeat(before, p) by {
          assert items[p.index].kind == Applied(before, picks[..k], zid)[p.index].kind;
        }
        items[p.index] := items[p.index].(zoneId := zid);
        changed := changed + 1;
      } else {
        assert !HitsSeat(before, p) by {
          if p.index < items.Length {
            assert items[p.index].kind == Applied(before, picks[..k], zid)[p.index].kind;
          }
        }
      }
      assert picks[..k + 1] == picks[..k] + [p];
      forall i | 0 <= i < items.Length
        ensures items[i] == Applied(before, picks[..k + 1], zid)[i]
      {
        assert PickedSeat(before, picks[..k + 1], i) <==> PickedSeat(before, picks[..k], i) || (p.index == i && HitsSeat(before, p)) by {
          if PickedSeat(before, picks[..k + 1], i) {
            var j :| 0 <= j < k + 1 && picks[..k + 1][j].index == i && HitsSeat(before, picks[..k + 1][j]);
            if j < k {
              assert picks[..k][j] == picks[..k + 1][j];
            }
          }
          if PickedSeat(before, picks[..k], i) {
            var j :| 0 <= j < k && picks[..k][j].index == i && HitsSeat(before, picks[..k][j]);
            assert picks[..k + 1][j] == picks[..k][j];
          }
          if p.index == i && HitsSeat(before, p) {
            assert picks[..k + 1][k] == p;
          }
        }
      }
    }
    assert picks[..|picks|] == picks;
  }

  /** The map's elements as an array, for the in-place loops above. */
  method ItemArray(s: seq<MapItem>) returns (a: array<MapItem>)
    ensures fresh(a) && a[..] == s
  {
    a := new MapItem[|s|](i requires 0 <= i < |s| => s[i]);
  }

  /** The layout `on_delete_zone` loads back: the seats of zid moved to Z1. */
  method ReassignedLayout(model: seq<MapItem>, zid: string) returns (layout: seq<MapItem>)
    ensures layout == Reassigned(model, zid)
  {
    var items := ItemArray(model);
    ReassignSeats(items, zid);
    layout := items[..];
  }

  /** The layout `on_apply_zone` loads back, and whether a pick reached a
      seat; when none did, the layout is the model unchanged. */
  method AppliedLayout(model: seq<MapItem>, picks: seq<Pick>, zid: string) returns (layout: seq<MapItem>, changed: bool)
    ensures layout == Applied(model, picks, zid)
    ensures changed <==> exists j :: 0 <= j < |picks| && HitsSeat(model, picks[j])
  {
    var items := ItemArray(model);
    var count := ApplyPicks(items, picks, zid);
    layout := items[..];
    changed := count > 0;
  }

  // ---------------------------------------------------------------------
  // The editor.

  class HallEditor {
    var zones: seq<Zone>
    var combo: seq<ComboEntry>
    /** The combo's current index; -1 for none. */
    var current: int
    /** The map view the editor drives. */
    const view: SeatMapView

    /** The combo lists the zones. */
    predicate Valid()
      reads this
    {
      combo == ComboEntries(zones) && -1 <= current < |combo|
    }

    /** The map view is consistent and shows the zones' colours. */
    predicate Shown()
      reads this, view, view.seats
    {
      view.Valid() && view.zoneColours == ZoneColours(zones)
    }

    /** `current_zone_id`: the current entry's id, or "Z1" when there is none. */
    function CurrentZoneId(): string
      reads this
    {
      ZoneOrDefault(if 0 <= current < |combo| then Some(combo[current].zid) else None)
    }

    /** The current entry's id, or "Z1" when no entry is current. */
    function CurrentKey(): string
      reads this
      requires Valid()
    {
      if current == -1 then "Z1" else combo[current].zid
    }

    /** The current zone id is the current entry's id, or "Z1" when no
        entry is current; it is never blank. */
    lemma CurrentZoneIdIs()
      requires Valid()
      ensures CurrentZoneId() == CurrentKey() && CurrentKey() != ""
    {
      CurrentEntryId(zones, combo, current);
    }

    /** The editor on a layout (none is the empty layout) and a zone list. */
    constructor(layout: seq<ItemDict>, zones: Option<seq<Zone>>)
      ensures Valid() && Shown() && this.zones == InitialZones(zones) && view.model == LoadAll(layout)
      ensures view.editable && current == (if combo == [] then -1 else 0)
    {
      var zs := StartingZones(zones);
      var entries := BuildCombo(zs);
      var mapView := new SeatMapView(layout, {}, true, zs);
      assert mapView.Valid() && mapView.zoneColours == ZoneColours(zs);
      this.zones := zs;
      combo := entries;
      current := if entries == [] then -1 else 0;
      view := mapView;
    }

    /** The user picks entry k in the combo. */
    method SelectEntry(k: nat)
      requires Valid() && k < |combo|
      modifies this
      ensures Valid() && current == k && zones == old(zones) && combo == old(combo)
    {
      current := k;
    }

    /** The zone list is replaced and `refresh_zone_combo` rebuilds the
        combo, whose first entry becomes current. */
    method ReplaceZones(zs: seq<Zone>)
      modifies this
      ensures Valid() && zones == zs && combo == ComboEntries(zs) && current == (if combo == [] then -1 else 0)
    {
      var entries := BuildCombo(zs);
      zones, combo := zs, entries;
      current := if entries == [] then -1 else 0;
    }

    /** `_push_zones_to_map` followed by `refresh_zone_combo`: the map
        shows the new zones' colours, the combo lists them and its first
        entry is current. */
    method Show(zs: seq<Zone>)
      modifies this, view
      ensures Valid() && zones == zs && current == (if combo == [] then -1 else 0)
      ensures Shown() && view.model == Reload(old(view.model))
    {
      ReplaceZones(zs);
      view.PushZones(zones);
    }

    /** `on_add_zone`: on success the zone is appended, the combo refilled
        and the zones pushed to the map. */
    method AddZone(name: Option<string>, price: PriceInput, colour: Option<string>)
      requires Valid()
      modifies this, view
      ensures Valid()
      ensures var z := AddedZone(old(zones), name, price, colour);
        if z.None? then
          zones == old(zones) && combo == old(combo) && current == old(current) && view.model == old(view.model)
          && view.zoneColours == old(view.zoneColours)
        else
          zones == old(zones) + [z.value] && current == (if combo == [] then -1 else 0)
          && Shown() && view.model == Reload(old(view.model))
    {
      var z := NewZone(zones, name, price, colour);
      if z.None? {
        return;
      }
      Show(zones + [z.value]);
    }

    /** `on_edit_zone`, on the current zone. */
    method EditZone(name: Option<string>, price: PriceInput, colour: Option<string>)
      requires Valid()
      modifies this, view
      ensures Valid()
      ensures var r := EditedZones(old(zones), old(CurrentKey()), name, price, colour);
        if r.None? then
          zones == old(zones) && combo == old(combo) && current == old(current) && view.model == old(view.model)
          && view.zoneColours == old(view.zoneColours)
        else
          zones == r.value && current == (if combo == [] then -1 else 0)
          && Shown() && view.model == Reload(old(view.model))
    {
      var zid := if current == -1 then "Z1" else combo[current].zid;
      var r := EditZones(zones, zid, name, price, colour);
      if r.None? {
        return;
      }
      Show(r.value);
    }

    /** `on_delete_zone`, on the current zone; `confirmed` is the answer
        to the confirmation question. Z1 is never deleted. */
    method DeleteZone(confirmed: bool)
      requires Valid()
      modifies this, view
      ensures Valid()
      ensures var zid := old(CurrentKey());
        if zid == "Z1" || !confirmed then
          zones == old(zones) && combo == old(combo) && current == old(current) && view.model == old(view.model)
          && view.zoneColours == old(view.zoneColours)
        else
          zones == WithoutZone(old(zones), zid) && current == (if combo == [] then -1 else 0)
          && Shown() && view.model == Reload(Reassigned(old(view.model), zid))
    {
      var zid := if current == -1 then "Z1" else combo[current].zid;
      if zid == "Z1" {
        return;
      }
      if !confirmed {
        return;
      }
      var layout := ReassignedLayout(view.model, zid);
      view.LoadData(ToDicts(layout));
      ReloadTwice(layout);
      Show(WithoutZone(zones, zid));
    }

    /** `on_apply_zone`: the current zone goes to every picked seat; with
        no pick reaching a seat nothing changes. */
    method ApplyZone(picks: seq<Pick>)
      requires Valid()
      modifies view
      ensures var changed := exists j :: 0 <= j < |picks| && HitsSeat(old(view.model), picks[j]);
        if !changed then view.model == old(view.model) && view.zoneColours == old(view.zoneColours)
        else Shown() && view.model == Reload(Applied(old(view.model), picks, CurrentKey()))
    {
      var zid := if current == -1 then "Z1" else combo[current].zid;
      if picks == [] {
        return;
      }
      var layout, changed := AppliedLayout(view.model, picks, zid);
      if !changed {
        return;
      }
      view.LoadData(ToDicts(layout));
      view.PushZones(zones);
      ReloadTwice(layout);
    }
  }
}

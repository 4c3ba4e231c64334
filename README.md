# Event booking: seat maps, zones, prices and bookings

A desktop application for booking seats at events held in halls. Here it is
modelled in Dafny, module by module, after its Python source:

- **`LayoutGenerator`** (`ui/layout_generator.py`): the ready-made hall templates.
  - A cinema: a screen, two seat blocks and an entrance.
  - A conference hall: a stage, a presidium, two blocks, two screens and an entrance.
  - A wedding: a couple's table, guest tables, decor.
  - A club: VIP booths, round tables, a bar and an entrance.
  - Their building blocks: round and rectangular table sets, seat blocks and decor.
  - Rotation of a group about a point, and centring on the 1600 × 900 logical canvas.
- **`SeatMapCore`** (`ui/seatmap/seatmap_core.py`): the interactive seat map.
  - Generation of fresh ids (`get_next_id`).
  - Loading and writing out layout elements.
  - Seat graphics that a click selects.
  - The cascade of `remove_item`.
  - Zone colours.
  - The editing scene's tools: the seat, decor, round and rectangular table tools, delete, rotation by R, and zone filling.
- **`ZoneEditor`** (`ui/seatmap/seatmap_editor_widget.py`): the price zones of the hall editor.
  - The default zones and the zone combo box.
  - Adding a zone with the next "Z" id.
  - Editing and deleting a zone; the deleted zone's seats move to Z1.
  - Applying the current zone to the picked seats.
- **`Booking`** (`services/booking_service.py`): the booking store.
  - Seat codes are normalised (stripped, upper-cased).
  - A request is refused when it names no seat, or when it names seats an earlier booking of the event holds.
  - Listing in creation order.
- **`Pricing`** (`ui/user/dialogs.py`): the booking dialog.
  - The price breakdown by zone. A seat with no zone is in Z1, and an unknown zone costs 0.
  - The checks of the accept button.
- **`Occupancy`** (`ui/admin/models.py`): the admin tables.
  - The occupancy ratio of an event and its percentage text.
  - The seat capacity of a hall.
  - The row getters.
- **`Validators`** (`core/validators.py`): e-mail, date and time validation.
- **`Common`** (`ui/common.py`): the occupancy bar and the title/hall filter of the event list.
- **`LegacySeatMap`** (`ui/seatmap_view.py`): the older rows × columns grid and its selection dialog.
- **`Session`** (`core/session.py`): the logged-in user.

Shared modules:

- `Wrappers`: `Option` for `None`, `Result` for a raised exception.
- `Text`: Python's `strip`, `upper`, `lower`, `str(int)`, `int(str)`, substring test and `sorted`.
- `Numeric`: `int()` truncation, float `%` and the percentage label.
- `Records`: the stored JSON records.
- `Collections`: filtering and images of sequences.

State follows the source's form:

- Objects whose fields change become classes with `modifies` clauses: the seat map view, the scene, the seat graphics, the hall editor, the booking store, the booking dialog, the table models, the filter, the session and the legacy grid.
- Loops become methods with invariants, proved against specification functions.
- In-place loops over the layout (centring, rotation, zone filling, zone reassignment) work on arrays.

A small observation from the legacy grid (`LegacySeatMap.UpperCodesAlias`):

- Row 32 of a grid of more than 32 rows is lettered `a` (`chr(ord("A") + 32)`).
- Reserved codes are compared upper-cased.
- So a booking of "A1" marks both seat A1 and seat a1 as taken.

## Model

| member | source | states |
|---|---|---|
| `LayoutGenerator.RotateCentre` | ui/layout_generator.py:7-13 | rotating the centre of rotation leaves it where it is |
| `LayoutGenerator.RotateKeepsDistance` | ui/layout_generator.py:7-13 | with a true cosine/sine pair a rotated point keeps its distance to the centre |
| `LayoutGenerator.GenerateDecor` | ui/layout_generator.py:47-52 | one decor piece: id "D-" + label, the given kind, size and rotation, centred on (x, y), with no parent and no zone |
| `LayoutGenerator.RoundTableSetShape` | ui/layout_generator.py:55-76 | the table of side 2·max(25, 5+4n) centred on (cx, cy), then n seats parented to it whose centres lie on the circle of radius max(25, 5+4n)+20 |
| `LayoutGenerator.RoundSeatOnCircle` | ui/layout_generator.py:66-75 | seat j's centre lies on the seat circle about the table centre |
| `LayoutGenerator.GenerateRoundTableSet` | ui/layout_generator.py:55-76 | the loop builds exactly the round table set |
| `LayoutGenerator.RectTableSetShape` | ui/layout_generator.py:79-115 | table centred on (cx, cy), square when asked; seats 1..ceil(n/2) above it facing it, the rest below it turned 180 degrees |
| `LayoutGenerator.RectSidesBalanced` | ui/layout_generator.py:83-90 | the front side has ceil(n/2) seats, at most one more than the back |
| `LayoutGenerator.RectSeatsWithinTable` | ui/layout_generator.py:101-114 | every seat's horizontal centre lies strictly within the table's width |
| `LayoutGenerator.GenerateRectTableSet` | ui/layout_generator.py:79-115 | the two loops build exactly the rectangular table set |
| `LayoutGenerator.TableSetIdsDistinct` | ui/layout_generator.py:55-115 | the ids of a table set (table and seats) are pairwise distinct |
| `LayoutGenerator.SeatBlockLength` | ui/layout_generator.py:118-131 | a block holds rows × cols seats |
| `LayoutGenerator.SeatBlockAt` | ui/layout_generator.py:118-131 | seat (r, c) is at index r·cols + c, labelled row letter + column number, 35 units apart |
| `LayoutGenerator.BlockSeatIdsDistinct` | ui/layout_generator.py:118-131 | different seats of a block have different ids |
| `LayoutGenerator.SeatBlockIds` | ui/layout_generator.py:118-131 | the block's ids are the row-by-row labels, an independent statement of the naming |
| `LayoutGenerator.SeatBlockSeatCount` | ui/layout_generator.py:118-131 | every element of a block is a seat |
| `LayoutGenerator.GenerateSeatBlock` | ui/layout_generator.py:118-131 | the nested loops build exactly the block |
| `LayoutGenerator.MinXIsLeast` | ui/layout_generator.py:28-44 | the minimum x is attained by some element and no element lies further left |
| `LayoutGenerator.MaxRightIsGreatest` | ui/layout_generator.py:28-44 | the maximum right edge is attained and no element reaches further right |
| `LayoutGenerator.ShiftBox` | ui/layout_generator.py:28-44 | moving every element by one offset moves the bounding box by that offset |
| `LayoutGenerator.CenteredBox` | ui/layout_generator.py:28-44 | after centring the left and right margins are equal, and so are the top and bottom ones; the box keeps its size |
| `LayoutGenerator.CenteredKeepsRest` | ui/layout_generator.py:28-44 | centring changes only positions, all by one common offset |
| `LayoutGenerator.CenterLayout` | ui/layout_generator.py:28-44 | the in-place loop leaves the array equal to the centred layout |
| `LayoutGenerator.RotatedGroupFields` | ui/layout_generator.py:16-25 | a non-zero rotation keeps every field but position and rotation; the new rotation is old + angle reduced into [0, 360) |
| `LayoutGenerator.RotateAboutOwnCentre` | ui/layout_generator.py:16-25 | an element centred on the rotation centre does not move |
| `LayoutGenerator.ApplyRotationToGroup` | ui/layout_generator.py:16-25 | the in-place loop leaves the array equal to the rotated group |
| `LayoutGenerator.CenteredOnCanvas` | ui/layout_generator.py:28-44 | centring on the logical canvas gives equal margins on both axes |
| `LayoutGenerator.CinemaDecor` | ui/layout_generator.py:135-156 | the cinema's decor is "D-ECRAN" and "D-INTRARE", with no seats |
| `LayoutGenerator.CinemaIds` | ui/layout_generator.py:135-156 | ids: screen, left block A.. numbered from 1, right block numbered from cols+1, entrance |
| `LayoutGenerator.CinemaSeats` | ui/layout_generator.py:135-156 | 2 + 2·rows·cols elements of which 2·rows·cols seats |
| `LayoutGenerator.CinemaCentred` | ui/layout_generator.py:135-156 | the cinema is centred on the canvas |
| `LayoutGenerator.ConferenceIds` | ui/layout_generator.py:159-180 | stage, presidium, rows A..J in blocks numbered 1..8 and 9..16, two screens, entrance |
| `LayoutGenerator.ConferenceSeats` | ui/layout_generator.py:159-180 | 165 elements of which 160 seats |
| `LayoutGenerator.ConferenceCentred` | ui/layout_generator.py:159-180 | the conference hall is centred on the canvas |
| `LayoutGenerator.WeddingSize` | ui/layout_generator.py:183-218 | "large" gives 12 guest tables of 10 (143 elements), any other size 6 of 8 (65 elements) |
| `LayoutGenerator.WeddingCoupleTable` | ui/layout_generator.py:183-218 | the couple's table "M_MIRI" is a rectangular table of 4 at index 3 |
| `LayoutGenerator.WeddingGuestTables` | ui/layout_generator.py:197-211 | guest table j is the round table "M"+(j+1) at its slot after the couple's table |
| `LayoutGenerator.WeddingCentred` | ui/layout_generator.py:183-218 | the wedding layout is centred on the canvas |
| `LayoutGenerator.GenerateWeddingTables` | ui/layout_generator.py:210-211 | the loop lays the guest tables end to end |
| `LayoutGenerator.BuildWeddingItems` | ui/layout_generator.py:183-216 | builds the element list before centring |
| `LayoutGenerator.CreateWeddingTemplate` | ui/layout_generator.py:183-218 | builds the centred wedding template |
| `LayoutGenerator.ClubSize` | ui/layout_generator.py:221-246 | 62 elements ending with the entrance, centred on the canvas |
| `LayoutGenerator.ClubBooths` | ui/layout_generator.py:233-237 | square 80 × 80 four-seat booths VIP-L1..4 and VIP-R1..4 at their fixed positions |
| `LayoutGenerator.ClubRoundTables` | ui/layout_generator.py:240-242 | two-seat round tables T1..T6 at positions 43, 46, ..., 58 |
| `LayoutGenerator.GenerateVipBooths` | ui/layout_generator.py:233-237 | one booth loop lays its four booths end to end |
| `LayoutGenerator.GenerateClubTables` | ui/layout_generator.py:240-242 | the table loop lays the six tables end to end |
| `LayoutGenerator.CreateClubLayout` | ui/layout_generator.py:221-246 | builds the centred club template |
| `SeatMapCore.MaxNumberIsMax` | ui/seatmap/seatmap_core.py:34-49 | the running maximum bounds every id's and parent id's number (ASCII digits) and is attained unless 0 |
| `SeatMapCore.GetNextId` | ui/seatmap/seatmap_core.py:34-49 | the loop computes prefix + (largest ASCII-digit number after the prefix + 1) |
| `SeatMapCore.NumberAfterWritten` | ui/seatmap/seatmap_core.py:36-40 | the pattern reads back the number written after the prefix |
| `SeatMapCore.NextIdIsFresh` | ui/seatmap/seatmap_core.py:34-49 | the new id equals no existing id and no existing parent id |
| `SeatMapCore.NextIdWithoutMatches` | ui/seatmap/seatmap_core.py:34-49 | with no ASCII-digit number after the prefix anywhere the id is prefix + "1" |
| `SeatMapCore.DecorIdUnmatched` | ui/seatmap/seatmap_core.py:305-307 | for every label, "" and "Decor" included, the stored id "D-"+label+n never matches the label's `^label(\d+)` pattern |
| `SeatMapCore.DecorIdRepeats` | ui/seatmap/seatmap_core.py:300-307 | for every label, a decor stored as "D-"+label+n leaves the label's next id unchanged, so the next decor gets the same id |
| `SeatMapCore.LoadItem` | ui/seatmap/seatmap_core.py:399-422 | a loaded element keeps id, kind, position and parent and is well formed |
| `SeatMapCore.LoadToDict` | ui/seatmap/seatmap_core.py:399-485 | writing out and loading back returns an element exactly when it is well formed |
| `SeatMapCore.ReloadWellFormed` | ui/seatmap/seatmap_core.py:470-485 | reloading well-formed elements changes nothing |
| `SeatMapCore.ReloadTwice` | ui/seatmap/seatmap_core.py:399-485 | a second write-out/load round trip changes nothing |
| `SeatMapCore.SurvivorsMembers` | ui/seatmap/seatmap_core.py:462-468 | an element survives exactly when it was present and none of its ids is removed |
| `SeatMapCore.SurvivorsConcat` | ui/seatmap/seatmap_core.py:462-468 | survivors keep their relative order |
| `SeatMapCore.RemovalCascade` | ui/seatmap/seatmap_core.py:462-468 | deleting removes the target, its children, anything sharing a child's id and their children; all else survives |
| `SeatMapCore.ColourTableDomain` | ui/seatmap/seatmap_core.py:370-375 | a zone id has a colour iff some zone with that id has a non-blank colour |
| `SeatMapCore.ColourTableLast` | ui/seatmap/seatmap_core.py:370-375 | the colour kept is that of the last such zone |
| `SeatMapCore.NormaliseReserved` | ui/seatmap/seatmap_core.py:366-367 | the reserved set is exactly the stripped, upper-cased codes given |
| `SeatMapCore.NormaliseReservedIdempotent` | ui/seatmap/seatmap_core.py:366-367 | normalising the reserved set again changes nothing |
| `SeatMapCore.GraphicSeat.constructor` | ui/seatmap/seatmap_core.py:84-92 | a new seat graphic keeps its data, reservation and base colour, and is not selected |
| `SeatMapCore.GraphicSeat.MousePress` | ui/seatmap/seatmap_core.py:116-127 | a click flips the selection exactly when the seat is free, selectable and not movable |
| `SeatMapCore.SelectedInMembers` | ui/seatmap/seatmap_core.py:488-489 | the selected ids are exactly the ids of the selected seat graphics |
| `SeatMapCore.BuildZoneColours` | ui/seatmap/seatmap_core.py:370-375 | the loop builds the zone-colour table |
| `SeatMapCore.SeatMapView.constructor` | ui/seatmap/seatmap_core.py:348-389 | the model is the loaded layout, reserved codes normalised, colours from the zones, view valid, no seat graphic selected |
| `SeatMapCore.SeatMapView.Draw` | ui/seatmap/seatmap_core.py:424-455 | a seat's new graphic shows the seat, its reservation (trimmed, upper-cased id), its zone's colour or the free colour, is selectable when editable or free, movable when editable, and is not selected |
| `SeatMapCore.SeatMapView.Append` | ui/seatmap/seatmap_core.py:418-422 | one loading step: appends the element and draws it; zone colours kept; the view stays valid and no seat graphic is selected |
| `SeatMapCore.SeatMapView.AddItem` | ui/seatmap/seatmap_core.py:424-459 | appends the element, and for a seat one fresh, unselected graphic, leaving earlier graphics alone and zone colours unchanged |
| `SeatMapCore.SeatMapView.LoadData` | ui/seatmap/seatmap_core.py:399-422 | the model becomes one loaded element per dict, in order; zone colours kept; no seat graphic selected (the scene is rebuilt) |
| `SeatMapCore.SeatMapView.RemoveItem` | ui/seatmap/seatmap_core.py:462-468 | the model becomes the survivors of the removal cascade, reloaded; zone colours unchanged; no seat graphic selected |
| `SeatMapCore.SeatMapView.PushZones` | ui/seatmap/seatmap_editor_widget.py:249-271 | colours rebuilt from the zones; the model written out and loaded back; no seat graphic selected |
| `SeatMapCore.SeatMapView.ClickSeat` | ui/seatmap/seatmap_core.py:116-127 | clicking seat k flips it when it is free and the view is not editable; every other seat keeps its selection (the graphics are distinct objects) |
| `SeatMapCore.SeatMapView.SelectedAreFree` | ui/seatmap/seatmap_core.py:488-489 | no reserved code is ever among the selected seats |
| `SeatMapCore.SeatMapView.SeatColour` | ui/seatmap/seatmap_core.py:107-114 | a seat shows reserved first, then selected, then its zone's colour |
| `SeatMapCore.ZoneOrDefaultTrimmed` | ui/seatmap/seatmap_core.py:295 | the tool's zone is the stripped configured zone, or "Z1"; never blank |
| `SeatMapCore.NewDecor` | ui/seatmap/seatmap_core.py:300-307 | the decor a click creates has a size |
| `SeatMapCore.NewItems` | ui/seatmap/seatmap_core.py:297-316 | every element a placing tool creates has a size |
| `SeatMapCore.ZoneFilled` | ui/seatmap/seatmap_core.py:330-332 | zone filling keeps length and sizes |
| `SeatMapCore.InteractiveMapScene.constructor` | ui/seatmap/seatmap_core.py:241-253 | view mode, empty config, rotation 0, no preview |
| `SeatMapCore.InteractiveMapScene.SetTool` | ui/seatmap/seatmap_core.py:255-266 | stores mode and config (none is empty), rotation back to 0, preview shown unless view or delete |
| `SeatMapCore.InteractiveMapScene.KeyPress` | ui/seatmap/seatmap_core.py:268-272 | R advances the pending rotation by 45 modulo 360; other keys change nothing |
| `SeatMapCore.InteractiveMapScene.MousePress` | ui/seatmap/seatmap_core.py:280-344 | view mode or a click off the canvas changes nothing; delete cascades; placing appends |
| `SeatMapCore.InteractiveMapScene.PlaceNew` | ui/seatmap/seatmap_core.py:330-343 | appends the created, zone-filled, rotated group |
| `SeatMapCore.MakeNewItems` | ui/seatmap/seatmap_core.py:297-316 | the tool branch creates exactly the tool's elements |
| `SeatMapCore.PlaceWith` | ui/seatmap/seatmap_core.py:295-343 | the placing branch appends the placed group after the model |
| `SeatMapCore.FillZones` | ui/seatmap/seatmap_core.py:330-332 | the in-place loop gives zone-less seats the tool's zone |
| `SeatMapCore.SeatMapView.AddAll` | ui/seatmap/seatmap_core.py:335-343 | the `add_item` loop: the model grows by one loaded element per dict, in order, and the view stays valid |
| `SeatMapCore.AddPlaced` | ui/seatmap/seatmap_core.py:330-343 | fill, rotate about the click, append each as a loaded element |
| `SeatMapCore.PlacedOf` | ui/seatmap/seatmap_core.py:330-334 | the placed group is the created group zone-filled and rotated |
| `SeatMapCore.PressAppends` | ui/seatmap/seatmap_core.py:280-344 | a placing click on the canvas keeps the model as a prefix and appends the placed group |
| `SeatMapCore.PlacedAt` | ui/seatmap/seatmap_core.py:330-343 | each placed element keeps id, kind and parent; a zone-less seat takes the tool's zone, a non-seat the empty zone |
| `SeatMapCore.RotatedInPlace` | ui/seatmap/seatmap_core.py:334 | a lone element rotated about its own centre stays put and takes the angle as rotation |
| `SeatMapCore.PlacedSeatGroup` | ui/seatmap/seatmap_core.py:297-299 | in seat mode the placed group is the one new seat |
| `SeatMapCore.PlacedSeat` | ui/seatmap/seatmap_core.py:297-299 | the new seat is 30 × 30, centred on the click, with the next "S" id and the pending rotation |
| `SeatMapCore.AddSeatClick` | ui/seatmap/seatmap_core.py:297-299 | a seat click appends exactly that seat, with an id no earlier element has |
| `SeatMapCore.AddSeatPlaced` | ui/seatmap/seatmap_core.py:297-299 | what a seat click loads is that one seat |
| `SeatMapCore.RoundTableSetNoZones` | ui/layout_generator.py:55-76 | a generated round table set carries no zones |
| `SeatMapCore.RectTableSetNoZones` | ui/layout_generator.py:79-115 | a generated rectangular table set carries no zones |
| `SeatMapCore.PlacedTableSet` | ui/seatmap/seatmap_core.py:330-343 | a placed table set: the table with the empty zone, then seats parented to it in the tool's zone |
| `SeatMapCore.RoundTablePlaced` | ui/seatmap/seatmap_core.py:308-311 | the next "M" table then its seats (4 unless configured) |
| `SeatMapCore.RectTablePlaced` | ui/seatmap/seatmap_core.py:312-316 | the next "M" table then its seats (6 unless configured) |
| `SeatMapCore.AppendedTable` | ui/seatmap/seatmap_core.py:335-343 | appending a table group keeps the model as prefix and shifts the group's facts by its length |
| `SeatMapCore.RoundTableClick` | ui/seatmap/seatmap_core.py:308-311 | a round-table click appends a fresh "M" table and its seats in the tool's zone |
| `SeatMapCore.RectTableClick` | ui/seatmap/seatmap_core.py:312-316 | a rectangular-table click appends a fresh "M" table and its seats in the tool's zone |
| `SeatMapCore.DecorClick` | ui/seatmap/seatmap_core.py:300-307 | a decor click appends one element "D-" + the label's next id, without parent |
| `SeatMapCore.DecorClickTwice` | ui/seatmap/seatmap_core.py:300-307 | two decor clicks with the same label, the default "Decor" included, produce equal ids: decor ids are not unique |
| `ZoneEditor.StartingZones` | ui/seatmap/seatmap_editor_widget.py:27-30 | the given zones, or VIP Z1 at 100 and Standard Z2 at 50 when none or empty |
| `ZoneEditor.ComboEntriesComplete` | ui/seatmap/seatmap_editor_widget.py:222-243 | every zone with a non-blank id has its combo entry |
| `ZoneEditor.ComboEntriesSound` | ui/seatmap/seatmap_editor_widget.py:222-243 | every combo entry comes from a zone with a non-blank id |
| `ZoneEditor.ComboEntriesIds` | ui/seatmap/seatmap_editor_widget.py:225-243 | every entry's id is stripped and non-blank |
| `ZoneEditor.UnparsablePriceShownAsZero` | ui/seatmap/seatmap_editor_widget.py:227-230 | a zone whose price does not parse is listed at 0 |
| `ZoneEditor.BuildCombo` | ui/seatmap/seatmap_editor_widget.py:222-243 | the loop builds exactly the combo entries |
| `ZoneEditor.MaxOf` | ui/seatmap/seatmap_editor_widget.py:304 | Python's max: a member no smaller than any other |
| `ZoneEditor.ComputeNextZoneId` | ui/seatmap/seatmap_editor_widget.py:296-304 | the loop computes "Z" + (largest zone number + 1) |
| `ZoneEditor.NextZoneIdFirst` | ui/seatmap/seatmap_editor_widget.py:304 | with no numbered zone the id is "Z1" |
| `ZoneEditor.ZoneNumberOfId` | ui/seatmap/seatmap_editor_widget.py:297-303 | a zone id "Z" + k is read as number k |
| `ZoneEditor.NextZoneIdFresh` | ui/seatmap/seatmap_editor_widget.py:296-304 | the new id is not the upper-cased id of any zone |
| `ZoneEditor.AddedZoneShape` | ui/seatmap/seatmap_editor_widget.py:294-328 | a zone is added iff all three prompts succeed; it has the fresh id, a non-blank name, the price and colour |
| `ZoneEditor.IdTexts` | ui/seatmap/seatmap_editor_widget.py:332 | the zones' id texts, position by position |
| `ZoneEditor.FirstIndexOf` | ui/seatmap/seatmap_editor_widget.py:332 | `next(...)`: the first position holding the id, none iff absent |
| `ZoneEditor.EditIndexNone` | ui/seatmap/seatmap_editor_widget.py:332-334 | no zone is found exactly when no zone has the id |
| `ZoneEditor.EditIndexFirst` | ui/seatmap/seatmap_editor_widget.py:332 | the zone found is the first with the id |
| `ZoneEditor.EditedZonesShape` | ui/seatmap/seatmap_editor_widget.py:330-361 | an edit changes only name, price and colour of the one zone found; none found, nothing edited |
| `ZoneEditor.NewZone` | ui/seatmap/seatmap_editor_widget.py:294-326 | the prompts of adding a zone give the added zone |
| `ZoneEditor.EditZones` | ui/seatmap/seatmap_editor_widget.py:330-358 | the prompts of editing a zone give the edited zone list |
| `ZoneEditor.WithoutZoneMembers` | ui/seatmap/seatmap_editor_widget.py:378 | exactly the zones with another id stay |
| `ZoneEditor.ReassignedShape` | ui/seatmap/seatmap_editor_widget.py:372-376 | after deleting a zone other than Z1 no seat is in it; only seats' zones change |
| `ZoneEditor.ReassignSeats` | ui/seatmap/seatmap_editor_widget.py:374-376 | the in-place loop moves the zone's seats to Z1 |
| `ZoneEditor.AppliedShape` | ui/seatmap/seatmap_editor_widget.py:281-286 | a seat ends in the zone iff a pick reached it or it was there; non-seats and other fields unchanged |
| `ZoneEditor.AppliedNoSeat` | ui/seatmap/seatmap_editor_widget.py:288-290 | with no pick reaching a seat the layout is unchanged |
| `ZoneEditor.ApplyPicks` | ui/seatmap/seatmap_editor_widget.py:281-286 | the in-place loop applies the zone; `changed` is 0 iff no pick reached a seat |
| `ZoneEditor.ReassignedLayout` | ui/seatmap/seatmap_editor_widget.py:373-376 | the layout loaded back after deleting a zone |
| `ZoneEditor.AppliedLayout` | ui/seatmap/seatmap_editor_widget.py:273-292 | the layout after applying, and whether some pick reached a seat |
| `ZoneEditor.HallEditor.CurrentZoneIdIs` | ui/seatmap/seatmap_editor_widget.py:245-247 | the current zone is the current entry's id, or "Z1"; never blank |
| `ZoneEditor.HallEditor.constructor` | ui/seatmap/seatmap_editor_widget.py:17-177 | starting zones, combo filled with its first entry current, an editable view of the layout |
| `ZoneEditor.HallEditor.SelectEntry` | ui/seatmap/seatmap_editor_widget.py:245-247 | picking entry k makes it current and changes nothing else |
| `ZoneEditor.HallEditor.ReplaceZones` | ui/seatmap/seatmap_editor_widget.py:222-243 | new zone list, combo rebuilt from it, first entry current |
| `ZoneEditor.HallEditor.Show` | ui/seatmap/seatmap_editor_widget.py:249-271 | the map shows the zones' colours and is reloaded; the combo lists them |
| `ZoneEditor.HallEditor.AddZone` | ui/seatmap/seatmap_editor_widget.py:294-328 | a cancelled or rejected prompt changes nothing; otherwise the zone is appended and shown |
| `ZoneEditor.HallEditor.EditZone` | ui/seatmap/seatmap_editor_widget.py:330-361 | no zone or a cancelled prompt changes nothing; otherwise the edited list is shown |
| `ZoneEditor.HallEditor.DeleteZone` | ui/seatmap/seatmap_editor_widget.py:363-382 | Z1 or no confirmation changes nothing; otherwise the zone goes and its seats move to Z1 |
| `ZoneEditor.HallEditor.ApplyZone` | ui/seatmap/seatmap_editor_widget.py:273-292 | no pick reaching a seat changes nothing; otherwise the picked seats take the current zone |
| `Booking.NormalizeSeatsMembers` | services/booking_service.py:45 | the list holds the normal form of every non-blank requested seat and nothing else |
| `Booking.NormalizedAreNormal` | services/booking_service.py:45 | every normalised seat is non-blank and already in normal form |
| `Booking.NormalizeSeatsEmpty` | services/booking_service.py:45-47 | nothing is left exactly when every requested seat is blank |
| `Booking.NormalizeKeepsOrder` | services/booking_service.py:45 | without blanks, entry i is the normal form of seat i: order and duplicates kept |
| `Booking.ReservedOfMembers` | services/booking_service.py:52-65 | the reserved set is exactly the normalised seats of the event's bookings |
| `Booking.AddSeatsOf` | services/booking_service.py:64-65 | the inner loop adds one booking's normalised seats |
| `Booking.CollectReserved` | services/booking_service.py:58-65 | the outer loop builds the event's reserved set |
| `Booking.NoConflictIff` | services/booking_service.py:67-68 | no conflict exactly when no non-blank requested seat is reserved |
| `Booking.DecideFree` | services/booking_service.py:44-85 | a request is booked iff some seat is non-blank and none is reserved; it is booked with its normalised list |
| `Booking.TakenSeatsAreBooked` | services/booking_service.py:67-72 | every seat a refusal lists was requested and is held by an earlier booking of the event |
| `Booking.RepeatedFreeSeatBooked` | services/booking_service.py:45-72 | a request naming a free seat twice is booked with both copies |
| `Booking.BookingReserves` | services/booking_service.py:76-82 | after a booking the event's reserved seats gain the booked ones; other events unchanged |
| `Booking.BookingKeepsSeatsUnique` | services/booking_service.py:44-85 | a booking that passes the check keeps every seat of an event held at most once |
| `Booking.FreeSeatsUnreserved` | services/booking_service.py:67-68 | the seats booked were not reserved for the event |
| `Booking.ListedMembers` | services/booking_service.py:7-41 | exactly the event's bookings are listed; one whose seats do not decode lists no seats |
| `Booking.ListedByCreation` | services/booking_service.py:16 | rows stored in creation order list in `created_at` order |
| `Booking.AppendByCreation` | services/booking_service.py:74 | appending a booking created no earlier keeps the creation order |
| `Booking.BookingListed` | services/booking_service.py:7-82 | a new booking is listed last for its event; other listings unchanged |
| `Booking.BookingStore.constructor` | services/booking_service.py:44-85 | an empty store |
| `Booking.BookingStore.CreateBooking` | services/booking_service.py:44-85 | nothing requested or taken (conflicts sorted) changes nothing; otherwise one row with the normalised list is appended |
| `Booking.BookingStore.ListBookings` | services/booking_service.py:7-41 | the listing of the event, in creation order |
| `Pricing.PricingItems` | ui/user/dialogs.py:81-83 | an unknown hall or a missing layout gives no elements; a layout that is a non-empty dict fails |
| `Pricing.ZoneMetaFailure` | ui/user/dialogs.py:85 | the only error raised while building the zone table is the unparsable price |
| `Pricing.ZoneMetaFails` | ui/user/dialogs.py:85 | fails iff a zone with an id has an unparsable price |
| `Pricing.ZoneMetaKeys` | ui/user/dialogs.py:85 | when built, keyed by exactly the ids of the zones that have one |
| `Pricing.ZoneMetaValues` | ui/user/dialogs.py:85 | when built, each id carries the price and colour of the last zone with that id |
| `Pricing.SeatZonesKeys` | ui/user/dialogs.py:86 | exactly the ids of the layout's seats map to a zone |
| `Pricing.SeatZonesValues` | ui/user/dialogs.py:86 | each seat id maps to the zone of the last seat with that id, a blank zone read as Z1 |
| `Pricing.UnknownSeatIsZ1` | ui/user/dialogs.py:86-90 | a seat id not in the layout is priced in zone Z1 |
| `Pricing.UnknownZoneIsFree` | ui/user/dialogs.py:94 | a zone with no metadata costs 0 and is drawn grey |
| `Pricing.CountsSpec` | ui/user/dialogs.py:88-91 | each zone's count is the number of selected seats in it; only zones with seats appear |
| `Pricing.KeyTotalIsSeatTotal` | ui/user/dialogs.py:93-99 | Σ price·count over the zones equals Σ price over the selected seats |
| `Pricing.CountByZone` | ui/user/dialogs.py:88-91 | the counting loop gives the counts |
| `Pricing.Breakdown` | ui/user/dialogs.py:93-99 | the lines loop gives one line per zone and their total |
| `Pricing.BreakdownIsQuote` | ui/user/dialogs.py:93-102 | the breakdown is the quote: zones sorted, subtotals price·count, total the seats' sum |
| `Pricing.CalculatePrice` | ui/user/dialogs.py:80-102 | the quote of the selection, or the failure an unparsable zone price raises, checked before a bad layout |
| `Pricing.PriceCheckedFirst` | ui/user/dialogs.py:85-86 | a zone with an id and an unparsable price makes the quote fail with the price error, whatever the layout holds |
| `Pricing.EmptySelectionQuote` | ui/user/dialogs.py:101-102 | no seats give no lines and total 0 |
| `Pricing.QuoteUnique` | ui/user/dialogs.py:80-102 | the quote for a selection is unique |
| `Pricing.SortedUnique` | ui/user/dialogs.py:93 | two strictly sorted lists with the same members are equal |
| `Pricing.AcceptVerdictSpec` | ui/user/dialogs.py:104-119 | accepted iff name non-blank, e-mail valid and seats chosen; a blank e-mail is refused as missing first |
| `Pricing.BookingDialog.constructor` | ui/user/dialogs.py:39-47 | a logged-in e-mail is filled in read-only, otherwise the field is empty and editable; nothing selected; total 0 |
| `Pricing.BookingDialog.OnSeatsChosen` | ui/user/dialogs.py:69-78 | the seats are kept and the quote recomputed when it can be |
| `Pricing.BookingDialog.OnAccept` | ui/user/dialogs.py:104-119 | the outcome is the verdict; on acceptance the e-mail field shows the validated address |
| `Occupancy.OccupancyRatio` | ui/admin/models.py:39-63 | 0 for an unknown hall or one without seats; otherwise ratio·seats = seats booked |
| `Occupancy.OccupancyRatioBounds` | ui/admin/models.py:39-63 | the ratio is ≤ 1 iff no more seats are booked than exist, = 1 iff all are; not capped |
| `Occupancy.OccupancyTextEnds` | ui/admin/models.py:65-67 | no bookings read "0%", a full hall "100%" |
| `Occupancy.OccupancyBand` | ui/common.py:6-41 | the bar shows the column's text and is red once four fifths are booked |
| `Occupancy.BookingRaisesOccupied` | ui/admin/models.py:45-47 | a booking raises its event's occupied count by its seats and no other event's |
| `Occupancy.CapacityText` | ui/admin/models.py:137 | the capacity cell ends with " locuri" |
| `Occupancy.CapacityIsTotal` | ui/admin/models.py:125-138 | the capacity cell reads back as the seat count the ratio divides by |
| `Occupancy.EventsTableModel.constructor` | ui/admin/models.py:76-79 | the model holds the given events |
| `Occupancy.EventsTableModel.SetEvents` | ui/admin/models.py:76-79 | the events are replaced |
| `Occupancy.EventsTableModel.EventAtRow` | ui/admin/models.py:81-83 | the event in the row, none outside the table |
| `Occupancy.EventsTableModel.CalculateOccupancyRatio` | ui/admin/models.py:39-63 | the counting loop gives the occupancy ratio |
| `Occupancy.EventsTableModel.CalculateOccupancyText` | ui/admin/models.py:65-67 | the percentage text of the ratio |
| `Occupancy.HallsTableModel.constructor` | ui/admin/models.py:146-149 | the model holds the given halls |
| `Occupancy.HallsTableModel.SetHalls` | ui/admin/models.py:146-149 | the halls are replaced |
| `Occupancy.HallsTableModel.HallAtRow` | ui/admin/models.py:151-153 | the hall in the row, none outside the table |
| `Occupancy.HallsTableModel.CapacityAt` | ui/admin/models.py:125-138 | the capacity cell of the row, none outside the table |
| `Validators.FirstIndex` | core/validators.py:5 | the first position of a character, none iff absent |
| `Validators.EmailOkIff` | core/validators.py:5 | the piecewise reading accepts exactly what the pattern matches |
| `Validators.RegexPartsPlain` | core/validators.py:5 | a match has no whitespace and exactly one '@' |
| `Validators.ValidateEmail` | core/validators.py:8-14 | an accepted address is non-blank and has no whitespace; refused as missing only when blank |
| `Validators.ValidateEmailSpec` | core/validators.py:8-14 | missing iff blank; accepted iff the stripped lower-cased form matches, and returned in that form |
| `Validators.ValidateEmailIdempotent` | core/validators.py:8-14 | a validated address passes again unchanged |
| `Validators.ValidateStamp` | core/validators.py:17-40 | an accepted date or time is non-blank, stripped and parses in its format |
| `Validators.ValidateStampSpec` | core/validators.py:17-40 | missing iff blank; accepted iff the stripped value parses, and returned stripped |
| `Validators.ValidateStampIdempotent` | core/validators.py:17-40 | a validated date or time passes again unchanged |
| `Common.BandColour` | ui/common.py:25-30 | the bar is green, orange or red |
| `Common.ColoursDistinct` | ui/common.py:25-30 | the three colours differ |
| `Common.BandColourBands` | ui/common.py:12-30 | green below 0.5, orange from 0.5 to below 0.8, red from 0.8; a missing ratio counts as 0 |
| `Common.BandColourMonotone` | ui/common.py:25-30 | a fuller event never gets a milder colour |
| `Common.FillWidth` | ui/common.py:22-23 | for a ratio in [0, 1] the fill lies within the bar |
| `Common.EventFilter.constructor` | ui/common.py:43-47 | the filter starts empty |
| `Common.EventFilter.SetFilterText` | ui/common.py:48-50 | the text is kept lower-cased |
| `Common.PassesIff` | ui/common.py:52-60 | a row passes iff the text is empty or occurs, ignoring case, in the title or hall name |
| `Common.PassesEmptyIff` | ui/common.py:52-60 | the same, stated with the substring test |
| `Common.PassesIgnoresCase` | ui/common.py:52-60 | upper-casing text, title and hall name changes no verdict |
| `Common.PassesNarrows` | ui/common.py:52-60 | a row passing a filter passes every piece of it |
| `LegacySeatMap.GridLength` | ui/seatmap_view.py:73-85 | the grid holds rows × cols seats |
| `LegacySeatMap.GridAt` | ui/seatmap_view.py:73-85 | seat (r, c) is at index r·cols + c, coded row letter + (c+1), 30 units apart |
| `LegacySeatMap.CodeInjective` | ui/seatmap_view.py:79-80 | different grid positions have different codes |
| `LegacySeatMap.UpperCodesAlias` | ui/seatmap_view.py:79-82 | codes of rows 0 and 32 differ but compare equal upper-cased |
| `LegacySeatMap.SeatItem.constructor` | ui/seatmap_view.py:21-34 | reserved seats are red and not selectable, free ones green; none selected |
| `LegacySeatMap.SeatItem.MousePress` | ui/seatmap_view.py:36-46 | a free seat flips its selection and brush; a reserved one ignores the click |
| `LegacySeatMap.ClickTwice` | ui/seatmap_view.py:36-46 | two clicks restore selection and brush |
| `LegacySeatMap.SelectedSpec` | ui/seatmap_view.py:96-97 | exactly the codes of selected free seats, no more codes than squares |
| `LegacySeatMap.SelectedInGridOrder` | ui/seatmap_view.py:96-97 | code a is that of the a-th selected free square: positions strictly increase and every selected free square is listed |
| `LegacySeatMap.SelectedRowMajor` | ui/seatmap_view.py:96-97 | in a valid view the code at position p is row p / cols, column p % cols, so the codes come row by row, left to right |
| `LegacySeatMap.SeatMapView.constructor` | ui/seatmap_view.py:50-92 | the grid of rows × cols seats, reserved by upper-cased code from the stripped, upper-cased set; none selected |
| `LegacySeatMap.SeatMapView.GetSelectedSeats` | ui/seatmap_view.py:96-97 | the selected free codes |
| `LegacySeatMap.SelectedAreFree` | ui/seatmap_view.py:96-97 | no selected code is reserved |
| `LegacySeatMap.GridSize` | ui/seatmap_view.py:113-125 | 8 × 10 for an unknown hall or missing layout, the dict's rows and cols otherwise; other layouts fail |
| `LegacySeatMap.GridSizeDefaults` | ui/seatmap_view.py:119-125 | the defaults are 8 rows and 10 columns |
| `LegacySeatMap.ReservedSetListed` | ui/seatmap_view.py:128-132 | the dialog's reserved set equals the store's reserved set for the event |
| `LegacySeatMap.ReservedSetNormal` | ui/seatmap_view.py:128-132 | every reserved code is already normal |
| `LegacySeatMap.CollectReservedCodes` | ui/seatmap_view.py:128-132 | the loop collects the reserved set |
| `LegacySeatMap.AddCodes` | ui/seatmap_view.py:131-132 | the inner loop adds one booking's normalised seats |
| `LegacySeatMap.SeatSelectionDialog.constructor` | ui/seatmap_view.py:102-145 | a grid of the hall's size with the event's reserved set |
| `LegacySeatMap.SeatSelectionDialog.GetSelectedSeats` | ui/seatmap_view.py:156-157 | the map's selected codes |
| `Session.UserSession.constructor` | core/session.py:3-4 | nobody logged in |
| `Session.UserSession.SetCurrentUser` | core/session.py:7-10 | the e-mail (None as "") stripped and the role stored |
| `Session.UserSession.ClearCurrentUser` | core/session.py:13-16 | back to nobody logged in |
| `Session.UserSession.GetCurrentUser` | core/session.py:19-20 | the pair last stored; a stored e-mail is stripped |
| `Session.LoginRoundTrip` | core/session.py:7-20 | get after set returns the stripped e-mail and role; setting them again changes nothing |
| `Text.TrimDropsSpaces` | services/booking_service.py:45 | `strip()` cuts off only whitespace and leaves none at either end |
| `Text.TrimIdempotent` | services/booking_service.py:45 | stripping twice is stripping once |
| `Text.TrimEmptyIffBlank` | services/booking_service.py:45 | stripping empties a string iff it is all whitespace |
| `Text.TrimUpperCommute` | services/booking_service.py:45 | strip and upper commute |
| `Text.TrimUpperIdempotent` | services/booking_service.py:64-65 | a code in normal form stays as it is |
| `Text.ParseIntOfIntToString` | ui/seatmap/seatmap_editor_widget.py:301-304 | `int(str(k)) == k` |
| `Text.LeadingDigitsOfDigits` | ui/seatmap/seatmap_core.py:36 | the greedy digit group stops at the first non-digit |
| `Text.LexMinExists` | services/booking_service.py:71 | a non-empty set of strings has a least element |
| `Text.SortStrings` | services/booking_service.py:71 | `sorted` of a set: strictly increasing, same members |
| `Numeric.Trunc` | ui/common.py:22 | `int()` of a float truncates toward zero |
| `Numeric.FloorMod` | ui/layout_generator.py:24 | Python's float `%` with a positive modulus lies in [0, m) |
| `Numeric.PercentTextValue` | ui/admin/models.py:65-67 | the label reads back as the truncated whole percentage |
| `Numeric.PercentTextEnds` | ui/admin/models.py:65-67 | ratios 0 and 1 read "0%" and "100%" |

## Left out

- Drawing: Qt painting, pens, brushes beyond the brush colour, fonts, tooltips, the preview's drawing, scene rectangles and the rubber band are not modelled. `InteractiveMapScene.ghostVisible` is not reset when `load_data` replaces the preview with a new hidden one (`seatmap_core.py:407-409`): after a reload the model may still count the preview as shown.
- Mouse-move handling and mouse-event propagation are not modelled (`super().mousePressEvent` in both seat-item classes).
- Trigonometry: `math.cos`/`math.sin` are a parameter `Trig`. `RotateKeepsDistance` assumes the pair satisfies cos² + sin² = 1.
- Floating point: all coordinates, prices and ratios are exact reals. Rounding, accumulation error and the `:.2f` formatting of prices are not modelled.
- Storage: SQLite and `json.loads`/`json.dumps` are replaced by the `StoredBooking` rows. Seat lists are either decoded or malformed.
- The clock: `datetime.now()` is the `createdAt` parameter of `CreateBooking`. The store requires it to be no earlier than the last row's time.
- `Booking.BookingStore.ListBookings` gives the SQL `ORDER BY created_at` only up to same-second ties. Ties keep row order; SQLite leaves it unspecified.
- `datetime.strptime` is the `strptime` parameter of `ValidateStamp`. Calendar rules are not modelled.
- `hall_service.get_hall` and `event_service.get_event` are not part of this model. Their results are parameters (`Option<Hall>`), and so are the bookings `list_bookings_for_event` returns.
- Message boxes, input dialogs and the colour picker are parameters. Their answers are the `Option`/`PriceInput`/`confirmed` arguments.
- `Upper`/`Lower`: only ASCII letters are mapped. Python's `str.upper()`/`lower()` are full Unicode, e.g. `"ß".upper() == "SS"`, so non-ASCII seat codes and e-mails may normalise differently.
- Whitespace in `Trim` and in the e-mail pattern's `\s` is Python's `str.isspace()` set. Other Unicode separators are not considered.
- `SeatMapCore.SeatMapView.SelectedSeats`: the model lists selected seats in model order. Qt's `scene.items()` order is not modelled (`seatmap_core.py:488-489`).
- `SeatMapCore.SeatMapView.PushZones`: `get_layout_data` is read in model order. Qt's item order is not modelled, and the same applies to the reload in `on_delete_zone`.
- `SeatMapCore.GraphicSeat.Colour` ignores Qt's own `isSelected()` (`seatmap_core.py:110`). A seat selected by the rubber band is not shown in the selected colour in the model.
- `SeatMapCore.GetNextId`: `\d` in `^prefix(\d+)` and the `int()` of the captured group are read as ASCII digits only (`SeatMapCore.NumberAfter`, `Text.LeadingDigits`). Python's `\d` on a `str` pattern and `int()` also take every other Unicode decimal digit, so an id such as "S" followed by U+0663 counts as 3 in the source and as no number in the model. Ids the application writes itself use ASCII digits only.
- `SeatMapCore.MaxNumberIsMax`: the maximum ranges over ASCII-digit numbers only; an id whose number uses other Unicode decimal digits is not counted, as described for `SeatMapCore.GetNextId`.
- `SeatMapCore.NextIdWithoutMatches`: "no number after the prefix" is decided over ASCII digits only; an id whose number uses other Unicode decimal digits would give a higher number in the source.
- `ZoneEditor.ZoneNumber`: `int()` is read as optional surrounding whitespace, an optional sign and ASCII digits. Python also accepts other Unicode digits and underscores between digits.
- Price parsing (`float(price_str.replace(",", "."))`) is abstracted into `PriceInput`: entered with a value, cancelled, or rejected.
- A stored zone price is either a number, missing or unparsable (`PriceField`). The text `float()` accepts is not modelled.
- A missing key and a key holding `None` are not told apart in `ItemDict`, `Zone` or `Hall`.
  - The grid size: `get("rows", 8)` on a present `None` would pass `None` on to `range` and raise.
  - The capacity column: `items: None` would raise in `HallsTableModel.data`. The model counts no seats.
  - The occupancy ratio: there the exception is caught and gives 0, as in the model.
- `SeatsJson.Decoded` holds strings only. In `str(s)` of a number the number is read as its text, and a JSON string would be iterated by character (`booking_service.py:60-65`). Neither is modelled.
- The pricing layout: a `layout` dict is modelled only as empty or non-empty. A non-empty dict raises in the source, because iterating it yields keys; an empty one prices nothing.
- `Pricing.Meta` keeps no zone name: the name only appears in the breakdown text, which is not modelled.
- `LayoutGenerator.RowCharsOk` bounds the row letters: `LayoutGenerator.RowChar`, `SeatLabel`, `BlockSeat`, `BlockRow`, `SeatBlock`, `GenerateSeatBlock`, `CinemaItems`, `CinemaTemplate`, `ConferenceItems`, `BlockLabels`, `RowLabels` and the lemmas about them require that the start row plus the row count stay below 0xD800, or lie in 0xE000..0x10FFFF. Dafny characters exclude the surrogate range; Python's `chr(ord(start_row) + r)` accepts surrogates and raises only beyond 0x10FFFF.
- `LegacySeatMap.SeatMapView.constructor` requires `rows <= 0xD800 - 65`. Dafny characters exclude the surrogate range; Python's `chr` raises only beyond 0x10FFFF.
- `LegacySeatMap.SeatSelectionDialog.constructor` requires that the grid size be known. A `null` or list layout raises `AttributeError` in the source; `GridSize` models that as a `Failure`.
- The `except Exception` of `calculate_occupancy_ratio` is modelled only for the layout shapes above. Other malformed records are not.
- The editor's tool panel, `get_data`, and the view's zone metadata (`_zone_meta`) are not modelled. Only its colour table is read by the model.

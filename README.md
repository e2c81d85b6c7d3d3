# Speckle connectors: AutoCAD send/receive, Chimera user data, AutoCAD point geometry

This project models three pieces of the Speckle desktop connectors and proves
properties about each.

- **AutoCAD/Civil 3D connector bindings** (`autocad_bindings.dfy`, module
  `AutocadBindings`):
  - `FlattenCommitObject` walks a received commit object and gives the objects the
    converter can bake. Each object comes with its layer path
    (`<prefix>$<member>$<member>…`). An unconvertible object with no members records
    a "not supported" error.
  - The bake loop of `ReceiveStream` makes each layer, converts each object and
    appends it. A failure for one object records an error and moves on. When some
    layer name had to be cleaned, one aggregate error is added at the end.
  - The grouping loop of `SendStream` looks up every selected handle, converts the
    object and collects the results in the commit object's member `@<clean layer>`,
    in selection order. Every skipped handle records exactly one error. The
    cancellation token is checked before each handle and once after the loop.
- **Rhino Chimera adapter** (`chimera_adapter.dfy` and `chimera_keys.dfy`, modules
  `ChimeraAdapter` and `ChimeraKeys`):
  - Chimera user data is written into Speckle `Base` objects. A species is written
    as its `ChimeraId`, its `Description` and one member per child. A list is
    written as one member `<item name>_[<i>]` per item. Geometry goes through the
    converter, and plain values are written as they are.
  - Reading goes the other way. Members are skipped when they are called `ChimeraId`
    (ignoring case), are not objects, carry the empty Guid or name no species
    definition. A missing id makes `Guid.Parse("")` throw, and that stops the whole
    read.
  - A species is filled child by child from the member named after each child.
  - A list is filled from every member whose name starts with the list's name and
    whose text between the last `[` and the last `]` parses with `int.TryParse`. The
    items go into a sorted dictionary, where a later member wins at the same
    position, and are then appended in ascending position order.
- **AutoCAD converter geometry helpers** (`autocad_geometry.dfy`, module
  `AutocadGeometry`):
  - Flat coordinate lists are cut into points and flattened back.
  - Vectors are built from arrays.
  - Lines, polylines and the curve dispatcher convert to AutoCAD curves, and
    control points convert back.

`SpeckleBase` models the dynamic-member bag of a Speckle `Base`:
- `base[key]` reads null for a missing member;
- `base[key] = v` overwrites a member where it stands or appends a new one.

`Wrappers` holds `Option` and `Result`.

Exceptions the source throws are `Result` failures:
- a malformed coordinate array;
- an index past the end;
- `Guid.Parse` of text that is not a Guid;
- the null reference of reading members through `speckleData as Base` when the value
  is not an object.

Calls into code outside these files are function-valued parameters:
- the converters;
- `GetOrMakeLayer`;
- the handle lookup and `RemoveInvalidDynamicPropChars`;
- `Guid.ToString` and `Guid.Parse`;
- the species registry and its default data;
- `ScaleToNative`;
- the cancellation token.

The main results are these:
- Reading back what the adapter wrote gives the same data. This holds for one
  datum, for species and lists nested to any depth (`ParseOfWritten`), and for a
  Rhino object's whole user data (`UserDataRoundTrip`). It holds when the data
  read into has the written data's shape (`Conforms`) and the written data are
  `Recoverable`:
  - the converter gives every geometry back;
  - no two children of a species share a name;
  - every list item's definition name starts with its list's definition name;
  - no list has more than 2^31 items.

  Without the item-name condition the round trip really fails: a list `Bars` whose
  items are defined as `Rebar` reads back with no items (`ListOfOtherNames`,
  `RebarInBarsLost`).
- Cutting a flat list into points and flattening it again is the identity up to
  scaling, in both directions.
- A received object is either baked or recorded as an error, never both.
- The send loop files every accepted object under its layer, in selection order.
- Every handle is counted once, either as an error or as a converted object (the
  send side's host calls are taken not to throw; see "Left out").

## Model

| member | source | states |
|---|---|---|
| SpeckleBase.IndexOf | ConnectorRhino/ConnectorRhino/ConnectorRhinoShared/ChimeraTransport/SpeckleChimeraAdapter.cs:73 | the position found is the first member with that key; none exactly when the key is absent |
| SpeckleBase.Get | ConnectorAutocadCivil/ConnectorAutocadCivil/UI/ConnectorBindingsAutocadCivil.cs:504 | `base[key]` is null for a missing key, otherwise the value of a member with that key |
| SpeckleBase.Set | ConnectorRhino/ConnectorRhino/ConnectorRhinoShared/ChimeraTransport/SpeckleChimeraAdapter.cs:23 | after `base[key] = v` the key reads v, every other key reads as before, a new key is appended and an existing one keeps its place |
| SpeckleBase.SetKeepsDistinct | ConnectorRhino/ConnectorRhino/ConnectorRhinoShared/ChimeraTransport/SpeckleChimeraAdapter.cs:27 | writing a member keeps the bag free of repeated keys |
| SpeckleBase.SetTwice | ConnectorAutocadCivil/ConnectorAutocadCivil/UI/ConnectorBindingsAutocadCivil.cs:504-507 | two writes of one key equal the second write alone |
| SpeckleBase.PrefixIndex | ConnectorRhino/ConnectorRhino/ConnectorRhinoShared/ChimeraTransport/SpeckleChimeraAdapter.cs:27 | a key found among the first n members is found at the same place in the whole bag |
| SpeckleBase.IndexOfAt | ConnectorRhino/ConnectorRhino/ConnectorRhinoShared/ChimeraTransport/SpeckleChimeraAdapter.cs:73 | the first member carrying a key is the one found |
| SpeckleBase.GetSetAll | ConnectorRhino/ConnectorRhino/ConnectorRhinoShared/ChimeraTransport/SpeckleChimeraAdapter.cs:47-50 | after a run of writes a key reads the value written to it last, or what it held before |
| SpeckleBase.LatestAt | ConnectorRhino/ConnectorRhino/ConnectorRhinoShared/ChimeraTransport/SpeckleChimeraAdapter.cs:47-50 | a write that no later write of the same key follows is the latest |
| SpeckleBase.LatestAbsent | ConnectorRhino/ConnectorRhino/ConnectorRhinoShared/ChimeraTransport/SpeckleChimeraAdapter.cs:47-50 | a key never written has no latest value |
| SpeckleBase.SetAllFresh | ConnectorRhino/ConnectorRhino/ConnectorRhinoShared/ChimeraTransport/SpeckleChimeraAdapter.cs:57-62 | writes of pairwise distinct keys into a new Base simply append, in order |
| SpeckleBase.AppendFresh | ConnectorRhino/ConnectorRhino/ConnectorRhinoShared/ChimeraTransport/SpeckleChimeraAdapter.cs:61 | writing a key the bag lacks appends it |
| SpeckleBase.DistinctLast | ConnectorRhino/ConnectorRhino/ConnectorRhinoShared/ChimeraTransport/SpeckleChimeraAdapter.cs:58-62 | in a bag without repeated keys the last key is not among the others |
| SpeckleBase.MemberSmaller | ConnectorRhino/ConnectorRhino/ConnectorRhinoShared/ChimeraTransport/SpeckleChimeraAdapter.cs:109 | every member value is smaller than the bag holding it |
| SpeckleBase.GetSmaller | ConnectorRhino/ConnectorRhino/ConnectorRhinoShared/ChimeraTransport/SpeckleChimeraAdapter.cs:109 | whatever `speckleObject[name]` reads is smaller than the object, so the nested reading terminates |
| AutocadGeometry.ArrayToVector | Objects/Converters/ConverterAutoCAD/ConverterAutoCADShared/ConverterAutoCAD.Geometry.cs:69-72 | fails with an index error exactly when the array has fewer than 3 entries; otherwise the vector's coordinates are the first three entries |
| AutocadGeometry.VectorRoundTrip | Objects/Converters/ConverterAutoCAD/ConverterAutoCADShared/ConverterAutoCAD.Geometry.cs:64-72 | `ArrayToVector(VectorToArray(v)) == v` |
| AutocadGeometry.ScaleAll | Objects/Converters/ConverterAutoCAD/ConverterAutoCADShared/ConverterAutoCAD.Geometry.cs:51-53 | every coordinate scaled, same length, same order |
| AutocadGeometry.ScaledPoints | Objects/Converters/ConverterAutoCAD/ConverterAutoCADShared/ConverterAutoCAD.Geometry.cs:47-53 | point k is built from coordinates 3k, 3k+1 and 3k+2, each scaled; there are length/3 points |
| AutocadGeometry.PointList | Objects/Converters/ConverterAutoCAD/ConverterAutoCADShared/ConverterAutoCAD.Geometry.cs:42-56 | throws "Array malformed" exactly when the length is not a multiple of 3 |
| AutocadGeometry.PointListToNative | Objects/Converters/ConverterAutoCAD/ConverterAutoCADShared/ConverterAutoCAD.Geometry.cs:42-56 | the two-index loop `i = 2, k = 0; i += 3` fills the array with exactly `PointList`'s points, or throws for a malformed length |
| AutocadGeometry.PointsToFlatArray | Objects/Converters/ConverterAutoCAD/ConverterAutoCADShared/ConverterAutoCAD.Geometry.cs:58-61 | three coordinates per point |
| AutocadGeometry.FlatArrayAt | Objects/Converters/ConverterAutoCAD/ConverterAutoCADShared/ConverterAutoCAD.Geometry.cs:31-34 | point k's x, y and z sit at positions 3k, 3k+1 and 3k+2 of the flat list |
| AutocadGeometry.FlatArrayRoundTrip | Objects/Converters/ConverterAutoCAD/ConverterAutoCADShared/ConverterAutoCAD.Geometry.cs:42-61 | cutting into points and flattening gives the coordinates back, scaled |
| AutocadGeometry.PointListRoundTrip | Objects/Converters/ConverterAutoCAD/ConverterAutoCADShared/ConverterAutoCAD.Geometry.cs:42-61 | flattening points and cutting them again succeeds and gives each point back, scaled |
| AutocadGeometry.LineToNative | Objects/Converters/ConverterAutoCAD/ConverterAutoCADShared/ConverterAutoCAD.Geometry.cs:153-160 | succeeds exactly for a well-formed list of at least two points; the line joins the first two points and carries the domain; a malformed list throws "Array malformed" |
| AutocadGeometry.PolylineToNative | Objects/Converters/ConverterAutoCAD/ConverterAutoCADShared/ConverterAutoCAD.Geometry.cs:172-180 | succeeds exactly for a well-formed list that is non-empty when closed; the vertices are the scaled points, plus the first again when closed; carries the domain |
| AutocadGeometry.CurveToNative | Objects/Converters/ConverterAutoCAD/ConverterAutoCADShared/ConverterAutoCAD.Geometry.cs:183-211 | null exactly for circles, arcs, ellipses, polycurves and other curves; a line, polyline or NURBS curve gives exactly what `LineToNative`, `PolylineToNative` or `NurbsToNative` gives, the value or its error |
| AutocadGeometry.ControlPointsToSpeckle | Objects/Converters/ConverterAutoCAD/ConverterAutoCADShared/ConverterAutoCAD.Geometry.cs:87-104 | copies points and weights, then returns an empty list of rows whatever the input |
| AutocadBindings.LayerName | ConnectorAutocadCivil/ConnectorAutocadCivil/UI/ConnectorBindingsAutocadCivil.cs:314-318 | one leading `@` is removed and nothing else changes |
| AutocadBindings.ChildLayer | ConnectorAutocadCivil/ConnectorAutocadCivil/UI/ConnectorBindingsAutocadCivil.cs:319 | a child layer path extends its parent's |
| AutocadBindings.WellFormedThen | ConnectorAutocadCivil/ConnectorAutocadCivil/UI/ConnectorBindingsAutocadCivil.cs:321 | concatenating two flattenings under one layer keeps their invariant |
| AutocadBindings.WellFormedChild | ConnectorAutocadCivil/ConnectorAutocadCivil/UI/ConnectorBindingsAutocadCivil.cs:319-321 | what holds under a child layer holds under its parent |
| AutocadBindings.FlattenCommitObject | ConnectorAutocadCivil/ConnectorAutocadCivil/UI/ConnectorBindingsAutocadCivil.cs:295-346 | every object emitted is convertible and on a layer below the start; every error is about an unconvertible object with no members |
| AutocadBindings.FlattenMembers | ConnectorAutocadCivil/ConnectorAutocadCivil/UI/ConnectorBindingsAutocadCivil.cs:311-322 | the same invariant for the members of an unconvertible object, each on its child layer |
| AutocadBindings.FlattenItems | ConnectorAutocadCivil/ConnectorAutocadCivil/UI/ConnectorBindingsAutocadCivil.cs:327-334 | the same invariant for list items, on the same layer |
| AutocadBindings.FlattenEntries | ConnectorAutocadCivil/ConnectorAutocadCivil/UI/ConnectorBindingsAutocadCivil.cs:336-343 | the same invariant for dictionary values, on the same layer |
| AutocadBindings.FlattenEmitsConvertible | ConnectorAutocadCivil/ConnectorAutocadCivil/UI/ConnectorBindingsAutocadCivil.cs:299-305 | every emitted object satisfies `CanConvertToNative` and its layer starts with the prefix |
| AutocadBindings.FlattenErrorsAreUnsupported | ConnectorAutocadCivil/ConnectorAutocadCivil/UI/ConnectorBindingsAutocadCivil.cs:308-309 | every error names an unconvertible object with no dynamic members |
| AutocadBindings.FlattenConvertible | ConnectorAutocadCivil/ConnectorAutocadCivil/UI/ConnectorBindingsAutocadCivil.cs:301-305 | a convertible object is emitted once on the current layer and not looked into |
| AutocadBindings.FlattenEmptyUnsupported | ConnectorAutocadCivil/ConnectorAutocadCivil/UI/ConnectorBindingsAutocadCivil.cs:308-323 | an unconvertible object with no members gives exactly one error and nothing to bake |
| AutocadBindings.FlattenOther | ConnectorAutocadCivil/ConnectorAutocadCivil/UI/ConnectorBindingsAutocadCivil.cs:345 | strings, scalars and null give nothing |
| AutocadBindings.ThenAssociative | ConnectorAutocadCivil/ConnectorAutocadCivil/UI/ConnectorBindingsAutocadCivil.cs:321 | `AddRange` of flattenings is associative |
| AutocadBindings.FlattenItemsAppend | ConnectorAutocadCivil/ConnectorAutocadCivil/UI/ConnectorBindingsAutocadCivil.cs:327-334 | flattening a concatenated list is the concatenation of the flattenings |
| AutocadBindings.FlattenItemsSingle | ConnectorAutocadCivil/ConnectorAutocadCivil/UI/ConnectorBindingsAutocadCivil.cs:327-334 | a one-item list flattens as its item |
| AutocadBindings.FlattenEntriesAppend | ConnectorAutocadCivil/ConnectorAutocadCivil/UI/ConnectorBindingsAutocadCivil.cs:336-343 | flattening a concatenated dictionary is the concatenation of the flattenings |
| AutocadBindings.FlattenEntriesSingle | ConnectorAutocadCivil/ConnectorAutocadCivil/UI/ConnectorBindingsAutocadCivil.cs:336-343 | a one-entry dictionary flattens as its value, whatever its key |
| AutocadBindings.FlattenMembersSingle | ConnectorAutocadCivil/ConnectorAutocadCivil/UI/ConnectorBindingsAutocadCivil.cs:311-322 | a one-member object flattens its value on the child layer `layer$name` |
| AutocadBindings.BakingLeaves | ConnectorAutocadCivil/ConnectorAutocadCivil/UI/ConnectorBindingsAutocadCivil.cs:249-261 | the reference for the bake loop: the objects whose layer can be made and whose conversion gives an entity |
| AutocadBindings.BakeAccountsForEveryObject | ConnectorAutocadCivil/ConnectorAutocadCivil/UI/ConnectorBindingsAutocadCivil.cs:244-276 | baked plus errors equals the number of objects; the entities baked are those of the baking objects, in order, on their cleaned layers |
| AutocadBindings.BakeErrorsAreFailures | ConnectorAutocadCivil/ConnectorAutocadCivil/UI/ConnectorBindingsAutocadCivil.cs:259-274 | the errors are exactly one per object that did not bake, in order: "could not create layer" when `GetOrMakeLayer` failed, otherwise "failed to convert" |
| AutocadBindings.BakeErrorCauses | ConnectorAutocadCivil/ConnectorAutocadCivil/UI/ConnectorBindingsAutocadCivil.cs:259-274 | every error recorded names an object that did not bake |
| AutocadBindings.BakeRenamed | ConnectorAutocadCivil/ConnectorAutocadCivil/UI/ConnectorBindingsAutocadCivil.cs:250-253 | `changedLayerNames` holds exactly when some layer that could be made came back under another name |
| AutocadBindings.BakeNeverAggregates | ConnectorAutocadCivil/ConnectorAutocadCivil/UI/ConnectorBindingsAutocadCivil.cs:244-276 | the loop itself never records the layer-names-modified error |
| AutocadBindings.AggregateErrorAtMostOnce | ConnectorAutocadCivil/ConnectorAutocadCivil/UI/ConnectorBindingsAutocadCivil.cs:278-280 | one receive adds the layer-names-modified error at most once |
| AutocadBindings.ReceiveStream | ConnectorAutocadCivil/ConnectorAutocadCivil/UI/ConnectorBindingsAutocadCivil.cs:175-280 | a cancelled receive returns null and leaves the errors alone; otherwise the errors are the old ones, then a failed layer removal, the flattening's, the bake loop's and the aggregate one; the entities are the bake loop's |
| AutocadBindings.BakeObjects | ConnectorAutocadCivil/ConnectorAutocadCivil/UI/ConnectorBindingsAutocadCivil.cs:244-276 | the loop appends exactly the reference's errors, bakes its entities and computes its `changedLayerNames` |
| AutocadBindings.HandleOutcome | ConnectorAutocadCivil/ConnectorAutocadCivil/UI/ConnectorBindingsAutocadCivil.cs:459-495 | a handle is accepted exactly when it names an object the converter can convert and conversion is non-null; the result carries the handle as application id and the cleaned layer; a missing object gives "failed to find", an object the converter refuses gives "type not supported" with its type name, and a null conversion gives "failed to convert" with the handle and type name |
| AutocadBindings.GroupByLayer | ConnectorAutocadCivil/ConnectorAutocadCivil/UI/ConnectorBindingsAutocadCivil.cs:452-509 | the member `@<layer>` holds exactly the objects accepted for that layer, in selection order, and is null while there are none |
| AutocadBindings.AddToLayerList | ConnectorAutocadCivil/ConnectorAutocadCivil/UI/ConnectorBindingsAutocadCivil.cs:504-507 | creating the list when null and then adding to it is one write of the extended list |
| AutocadBindings.GroupKeepsUnits | ConnectorAutocadCivil/ConnectorAutocadCivil/UI/ConnectorBindingsAutocadCivil.cs:441-444 | the `units` member is never overwritten by the loop |
| AutocadBindings.GroupMemberKeys | ConnectorAutocadCivil/ConnectorAutocadCivil/UI/ConnectorBindingsAutocadCivil.cs:441-507 | the commit object's members are `units` and keys starting with `@`, nothing else |
| AutocadBindings.GroupCounts | ConnectorAutocadCivil/ConnectorAutocadCivil/UI/ConnectorBindingsAutocadCivil.cs:466-508 | `convertedCount` counts the accepted handles, and errors plus converted equals the number of handles |
| AutocadBindings.FirstCancel | ConnectorAutocadCivil/ConnectorAutocadCivil/UI/ConnectorBindingsAutocadCivil.cs:454-457 | the first check at which cancellation is requested, none before it |
| AutocadBindings.FirstCancelFrom | ConnectorAutocadCivil/ConnectorAutocadCivil/UI/ConnectorBindingsAutocadCivil.cs:454-457 | the same from a given check on |
| AutocadBindings.SendStream | ConnectorAutocadCivil/ConnectorAutocadCivil/UI/ConnectorBindingsAutocadCivil.cs:431-517 | the filter replaces the selection; an empty selection stops with no new errors; a cancellation at check k returns null with the errors of the first k handles; otherwise the commit object, count and renamed flag are the grouping's |
| AutocadBindings.ConvertHandles | ConnectorAutocadCivil/ConnectorAutocadCivil/UI/ConnectorBindingsAutocadCivil.cs:452-509 | the loop stops at the first cancelled check with the errors so far, or completes with exactly the grouping's members, count and renamed flag |
| AutocadBindings.ConvertHandle | ConnectorAutocadCivil/ConnectorAutocadCivil/UI/ConnectorBindingsAutocadCivil.cs:459-508 | one pass of the loop body is one step of the grouping |
| ChimeraKeys.LastIndexOf | ConnectorRhino/ConnectorRhino/ConnectorRhinoShared/ChimeraTransport/SpeckleChimeraAdapter.cs:122-123 | -1 exactly when the character is absent, otherwise its position with none after it |
| ChimeraKeys.TrimStart | ConnectorRhino/ConnectorRhino/ConnectorRhinoShared/ChimeraTransport/SpeckleChimeraAdapter.cs:127 | leading white space is gone |
| ChimeraKeys.TrimEnd | ConnectorRhino/ConnectorRhino/ConnectorRhinoShared/ChimeraTransport/SpeckleChimeraAdapter.cs:127 | trailing white space is gone |
| ChimeraKeys.TrimNuls | ConnectorRhino/ConnectorRhino/ConnectorRhinoShared/ChimeraTransport/SpeckleChimeraAdapter.cs:127 | trailing NULs are gone |
| ChimeraKeys.TryParse | ConnectorRhino/ConnectorRhino/ConnectorRhinoShared/ChimeraTransport/SpeckleChimeraAdapter.cs:127 | `int.TryParse` succeeds only with a value in the Int32 range |
| ChimeraKeys.SignedValue | ConnectorRhino/ConnectorRhino/ConnectorRhinoShared/ChimeraTransport/SpeckleChimeraAdapter.cs:127 | a signed digit run is accepted only within the Int32 range |
| ChimeraKeys.DigitChar | ConnectorRhino/ConnectorRhino/ConnectorRhinoShared/ChimeraTransport/SpeckleChimeraAdapter.cs:61 | the digit's character spells the digit |
| ChimeraKeys.NatToDecimal | ConnectorRhino/ConnectorRhino/ConnectorRhinoShared/ChimeraTransport/SpeckleChimeraAdapter.cs:61 | `i.ToString()` is a non-empty digit run without leading zeros that spells i |
| ChimeraKeys.ItemIndex | ConnectorRhino/ConnectorRhino/ConnectorRhinoShared/ChimeraTransport/SpeckleChimeraAdapter.cs:120-127 | a position is read only from a name starting with the list's name, and fits in 32 bits |
| ChimeraKeys.ItemKeyShape | ConnectorRhino/ConnectorRhino/ConnectorRhinoShared/ChimeraTransport/SpeckleChimeraAdapter.cs:61 | `$"{name}_[{i}]"` starts with the item's name, continues with `_[` and ends with `]`, with i's digits between |
| ChimeraKeys.ItemKeyDigits | ConnectorRhino/ConnectorRhino/ConnectorRhinoShared/ChimeraTransport/SpeckleChimeraAdapter.cs:61 | in `name_[i]` the last `[` and `]` enclose exactly the digits of i |
| ChimeraKeys.TrimDigits | ConnectorRhino/ConnectorRhino/ConnectorRhinoShared/ChimeraTransport/SpeckleChimeraAdapter.cs:127 | a string that starts and ends with a digit has nothing to trim |
| ChimeraKeys.TryParseDigits | ConnectorRhino/ConnectorRhino/ConnectorRhinoShared/ChimeraTransport/SpeckleChimeraAdapter.cs:127 | digits parse to the number they spell |
| ChimeraKeys.ItemIndexOfItemKey | ConnectorRhino/ConnectorRhino/ConnectorRhinoShared/ChimeraTransport/SpeckleChimeraAdapter.cs:61 | reading the position back from `name_[i]` gives i (for a name that starts with the list's name and i within Int32) |
| ChimeraKeys.DigitsValueInjective | ConnectorRhino/ConnectorRhino/ConnectorRhinoShared/ChimeraTransport/SpeckleChimeraAdapter.cs:61 | equal-length digit runs with equal values are equal |
| ChimeraKeys.ItemKeyInjective | ConnectorRhino/ConnectorRhino/ConnectorRhinoShared/ChimeraTransport/SpeckleChimeraAdapter.cs:61 | two different positions never share an item member name |
| ChimeraKeys.NoNumberExample | ConnectorRhino/ConnectorRhino/ConnectorRhinoShared/ChimeraTransport/SpeckleChimeraAdapter.cs:127 | `Bars_[x]` gives no position |
| ChimeraKeys.LetterParseExample | ConnectorRhino/ConnectorRhino/ConnectorRhinoShared/ChimeraTransport/SpeckleChimeraAdapter.cs:127 | `int.TryParse("x")` fails |
| ChimeraKeys.BracketsReversedExample | ConnectorRhino/ConnectorRhino/ConnectorRhinoShared/ChimeraTransport/SpeckleChimeraAdapter.cs:124 | `Bars]_[` gives no position, since its last `[` follows its last `]` |
| ChimeraKeys.OtherListExample | ConnectorRhino/ConnectorRhino/ConnectorRhinoShared/ChimeraTransport/SpeckleChimeraAdapter.cs:120 | `Beams_[0]` is not an item of the list `Bars` |
| ChimeraKeys.SignedParseExample | ConnectorRhino/ConnectorRhino/ConnectorRhinoShared/ChimeraTransport/SpeckleChimeraAdapter.cs:127 | `int.TryParse(" -12 ")` gives -12 |
| ChimeraKeys.SignedPositionExample | ConnectorRhino/ConnectorRhino/ConnectorRhinoShared/ChimeraTransport/SpeckleChimeraAdapter.cs:126-127 | `Bars_[ -12 ]` gives position -12 |
| ChimeraAdapter.SetAllStep | ConnectorRhino/ConnectorRhino/ConnectorRhinoShared/ChimeraTransport/SpeckleChimeraAdapter.cs:25-28 | one more pass of a write loop is one more write |
| ChimeraAdapter.ChimeraToSpeckle | ConnectorRhino/ConnectorRhino/ConnectorRhinoShared/ChimeraTransport/SpeckleChimeraAdapter.cs:20-30 | the loop builds exactly the object id followed by one write per datum |
| ChimeraAdapter.ChimeraDataToSpeckle | ConnectorRhino/ConnectorRhino/ConnectorRhinoShared/ChimeraTransport/SpeckleChimeraAdapter.cs:33-40 | geometry through the converter, species and lists as objects, anything else as its value |
| ChimeraAdapter.ChimeraSpeciesToSpeckle | ConnectorRhino/ConnectorRhino/ConnectorRhinoShared/ChimeraTransport/SpeckleChimeraAdapter.cs:42-53 | a species is written as its id text, its description, then its children under their names |
| ChimeraAdapter.WriteChildren | ConnectorRhino/ConnectorRhino/ConnectorRhinoShared/ChimeraTransport/SpeckleChimeraAdapter.cs:47-50 | the loop performs exactly the child writes, in order |
| ChimeraAdapter.ChimeraListToSpeckle | ConnectorRhino/ConnectorRhino/ConnectorRhinoShared/ChimeraTransport/SpeckleChimeraAdapter.cs:55-64 | the loop writes item i under `<name>_[i]` |
| ChimeraAdapter.ListObjectMembers | ConnectorRhino/ConnectorRhino/ConnectorRhinoShared/ChimeraTransport/SpeckleChimeraAdapter.cs:55-64 | a list object has exactly one member per item, in item order, since item names never collide |
| ChimeraAdapter.SpeciesObjectChild | ConnectorRhino/ConnectorRhino/ConnectorRhinoShared/ChimeraTransport/SpeckleChimeraAdapter.cs:47-50 | with distinct child names, the member named after a child holds that child's written value |
| ChimeraAdapter.SpeciesObjectId | ConnectorRhino/ConnectorRhino/ConnectorRhinoShared/ChimeraTransport/SpeckleChimeraAdapter.cs:45 | a species object carries the id text unless a child is called `ChimeraId` |
| ChimeraAdapter.SpeciesObjectDescription | ConnectorRhino/ConnectorRhino/ConnectorRhinoShared/ChimeraTransport/SpeckleChimeraAdapter.cs:46 | a species object carries the description unless a child is called `Description` |
| ChimeraAdapter.AsBase | ConnectorRhino/ConnectorRhino/ConnectorRhinoShared/ChimeraTransport/SpeckleChimeraAdapter.cs:91 | `speckleData as Base` is non-null exactly for an object, and is that object |
| ChimeraAdapter.IndicesAt | ConnectorRhino/ConnectorRhino/ConnectorRhinoShared/ChimeraTransport/SpeckleChimeraAdapter.cs:117 | a key of the sorted dictionary is the index of one of its entries |
| ChimeraAdapter.InsertIndices | ConnectorRhino/ConnectorRhino/ConnectorRhinoShared/ChimeraTransport/SpeckleChimeraAdapter.cs:131 | `parsedData[index] = item` adds exactly that key |
| ChimeraAdapter.InsertLookup | ConnectorRhino/ConnectorRhino/ConnectorRhinoShared/ChimeraTransport/SpeckleChimeraAdapter.cs:131 | after `parsedData[index] = item` the key holds item and every other key what it held |
| ChimeraAdapter.InsertAscending | ConnectorRhino/ConnectorRhino/ConnectorRhinoShared/ChimeraTransport/SpeckleChimeraAdapter.cs:117 | the dictionary stays sorted by key with no repeated key |
| ChimeraAdapter.InsertAbove | ConnectorRhino/ConnectorRhino/ConnectorRhinoShared/ChimeraTransport/SpeckleChimeraAdapter.cs:131 | inserting a key above a bound keeps every key above it |
| ChimeraAdapter.InsertLast | ConnectorRhino/ConnectorRhino/ConnectorRhinoShared/ChimeraTransport/SpeckleChimeraAdapter.cs:131 | a key above all others is appended |
| ChimeraAdapter.Values | ConnectorRhino/ConnectorRhino/ConnectorRhinoShared/ChimeraTransport/SpeckleChimeraAdapter.cs:134-137 | the dictionary's values in key order |
| ChimeraAdapter.ParsedSpecies | ConnectorRhino/ConnectorRhino/ConnectorRhinoShared/ChimeraTransport/SpeckleChimeraAdapter.cs:105-111 | a filled species keeps its definition, key and number of children; a null object fails unless there are no children |
| ChimeraAdapter.ParsedChildren | ConnectorRhino/ConnectorRhino/ConnectorRhinoShared/ChimeraTransport/SpeckleChimeraAdapter.cs:107-110 | reading children from a null object throws; success gives one value per child |
| ChimeraAdapter.ParsedList | ConnectorRhino/ConnectorRhino/ConnectorRhinoShared/ChimeraTransport/SpeckleChimeraAdapter.cs:113-138 | a null object throws; success keeps the definition and template and only appends to the items |
| ChimeraAdapter.Positions | ConnectorRhino/ConnectorRhino/ConnectorRhinoShared/ChimeraTransport/SpeckleChimeraAdapter.cs:120-127 | one optional position per member |
| ChimeraAdapter.ReadItem | ConnectorRhino/ConnectorRhino/ConnectorRhinoShared/ChimeraTransport/SpeckleChimeraAdapter.cs:120-131 | a member without a position is skipped; an item read carries the member's position |
| ChimeraAdapter.ReadSpecies | ConnectorRhino/ConnectorRhino/ConnectorRhinoShared/ChimeraTransport/SpeckleChimeraAdapter.cs:71-81 | the object-id member and non-objects are skipped; anything read is a species |
| ChimeraAdapter.Readings | ConnectorRhino/ConnectorRhino/ConnectorRhinoShared/ChimeraTransport/SpeckleChimeraAdapter.cs:69-82 | one reading per member |
| ChimeraAdapter.Collected | ConnectorRhino/ConnectorRhino/ConnectorRhinoShared/ChimeraTransport/SpeckleChimeraAdapter.cs:68-82 | at most one datum per reading |
| ChimeraAdapter.SpeciesIdText | ConnectorRhino/ConnectorRhino/ConnectorRhinoShared/ChimeraTransport/SpeckleChimeraAdapter.cs:74 | `obj["ChimeraId"] as string ?? ""` |
| ChimeraAdapter.IndexedItemsFailsLast | ConnectorRhino/ConnectorRhino/ConnectorRhinoShared/ChimeraTransport/SpeckleChimeraAdapter.cs:118-132 | an exception in one item ends the list loop |
| ChimeraAdapter.IndexedItemsFails | ConnectorRhino/ConnectorRhino/ConnectorRhinoShared/ChimeraTransport/SpeckleChimeraAdapter.cs:118-132 | once a prefix of the members throws, the whole list reading throws the same way |
| ChimeraAdapter.ParsedChildrenFails | ConnectorRhino/ConnectorRhino/ConnectorRhinoShared/ChimeraTransport/SpeckleChimeraAdapter.cs:107-110 | once a child throws, the species reading throws the same way |
| ChimeraAdapter.CollectedFails | ConnectorRhino/ConnectorRhino/ConnectorRhinoShared/ChimeraTransport/SpeckleChimeraAdapter.cs:69-82 | once a member throws, the whole user-data reading throws the same way |
| ChimeraAdapter.ParsedChildrenRead | ConnectorRhino/ConnectorRhino/ConnectorRhinoShared/ChimeraTransport/SpeckleChimeraAdapter.cs:107-110 | each child is read from the member named after it |
| ChimeraAdapter.LastNamed | ConnectorRhino/ConnectorRhino/ConnectorRhinoShared/ChimeraTransport/SpeckleChimeraAdapter.cs:131 | the last member giving a position, none after it |
| ChimeraAdapter.IndexedItemsPrefix | ConnectorRhino/ConnectorRhino/ConnectorRhinoShared/ChimeraTransport/SpeckleChimeraAdapter.cs:118-132 | a list reading that succeeds succeeded on every prefix |
| ChimeraAdapter.IndexedItemsSorted | ConnectorRhino/ConnectorRhino/ConnectorRhinoShared/ChimeraTransport/SpeckleChimeraAdapter.cs:117-132 | the sorted dictionary is ascending and its keys are exactly the positions the members gave |
| ChimeraAdapter.IndexedItemsLastWins | ConnectorRhino/ConnectorRhino/ConnectorRhinoShared/ChimeraTransport/SpeckleChimeraAdapter.cs:131 | a position holds the item read from the last member giving it, and is absent when none gives it |
| ChimeraAdapter.AscendingCount | ConnectorRhino/ConnectorRhino/ConnectorRhinoShared/ChimeraTransport/SpeckleChimeraAdapter.cs:117 | a sorted dictionary has as many entries as keys |
| ChimeraAdapter.Given | ConnectorRhino/ConnectorRhino/ConnectorRhinoShared/ChimeraTransport/SpeckleChimeraAdapter.cs:120-127 | only the positions that were found |
| ChimeraAdapter.PositionedLength | ConnectorRhino/ConnectorRhino/ConnectorRhinoShared/ChimeraTransport/SpeckleChimeraAdapter.cs:120-127 | the kept members and their positions match up |
| ChimeraAdapter.IndexedItemsSkips | ConnectorRhino/ConnectorRhino/ConnectorRhinoShared/ChimeraTransport/SpeckleChimeraAdapter.cs:120-127 | members without a position change nothing: reading all members equals reading only those with a position |
| ChimeraAdapter.ParsedListItems | ConnectorRhino/ConnectorRhino/ConnectorRhinoShared/ChimeraTransport/SpeckleChimeraAdapter.cs:113-138 | a list read appends one item per distinct position, in ascending position order, after the default items |
| ChimeraAdapter.Candidates | ConnectorRhino/ConnectorRhino/ConnectorRhinoShared/ChimeraTransport/SpeckleChimeraAdapter.cs:71-72 | only object members not called `ChimeraId` |
| ChimeraAdapter.ParsedUserDataSkips | ConnectorRhino/ConnectorRhino/ConnectorRhinoShared/ChimeraTransport/SpeckleChimeraAdapter.cs:71-72 | the object-id member and non-object members change nothing |
| ChimeraAdapter.CollectedSpecies | ConnectorRhino/ConnectorRhino/ConnectorRhinoShared/ChimeraTransport/SpeckleChimeraAdapter.cs:77-81 | when every reading is a species, so is everything collected |
| ChimeraAdapter.ParsedUserDataSpecies | ConnectorRhino/ConnectorRhino/ConnectorRhinoShared/ChimeraTransport/SpeckleChimeraAdapter.cs:76-83 | the data written back are species, at most one per member |
| ChimeraAdapter.ParseOfWritten | ConnectorRhino/ConnectorRhino/ConnectorRhinoShared/ChimeraTransport/SpeckleChimeraAdapter.cs:86-103 | reading what `ChimeraDataToSpeckle` wrote, into default data of the same shape (`Conforms`: same definitions and ids, default lists empty), gives the data back, provided (`Recoverable`) the converter gives every geometry back, no two children of a species share a name, every item's definition name starts with its list's, and no list has more than 2^31 items |
| ChimeraAdapter.SpeciesOfWritten | ConnectorRhino/ConnectorRhino/ConnectorRhinoShared/ChimeraTransport/SpeckleChimeraAdapter.cs:105-111 | the same for a species, under the same `Conforms` and `Recoverable` conditions |
| ChimeraAdapter.ListOfWritten | ConnectorRhino/ConnectorRhino/ConnectorRhinoShared/ChimeraTransport/SpeckleChimeraAdapter.cs:113-138 | the same for a list, under the same conditions; the items come back in their original order |
| ChimeraAdapter.ListOfOtherNames | ConnectorRhino/ConnectorRhino/ConnectorRhinoShared/ChimeraTransport/SpeckleChimeraAdapter.cs:57-62 | a list none of whose item keys `<item name>_[i]` starts with the list's name reads back with no item added, because line 61 names items after themselves and line 120 keeps only keys starting with the list's name |
| ChimeraAdapter.RebarInBarsLost | ConnectorRhino/ConnectorRhino/ConnectorRhinoShared/ChimeraTransport/SpeckleChimeraAdapter.cs:120 | a list `Bars` holding one item defined as `Rebar` reads back with no items |
| ChimeraAdapter.EntriesOfWritten | ConnectorRhino/ConnectorRhino/ConnectorRhinoShared/ChimeraTransport/SpeckleChimeraAdapter.cs:118-132 | the members of a written list fill the sorted dictionary with item i at key i |
| ChimeraAdapter.ChildOfWritten | ConnectorRhino/ConnectorRhino/ConnectorRhinoShared/ChimeraTransport/SpeckleChimeraAdapter.cs:109 | each child reads back from the member named after it |
| ChimeraAdapter.ParsedChildrenAll | ConnectorRhino/ConnectorRhino/ConnectorRhinoShared/ChimeraTransport/SpeckleChimeraAdapter.cs:107-110 | when every child reads back, the species loop gives all of them in order |
| ChimeraAdapter.Counting | ConnectorRhino/ConnectorRhino/ConnectorRhinoShared/ChimeraTransport/SpeckleChimeraAdapter.cs:58 | positions 0 to n-1 |
| ChimeraAdapter.WrittenPositions | ConnectorRhino/ConnectorRhino/ConnectorRhinoShared/ChimeraTransport/SpeckleChimeraAdapter.cs:61 | the members of a written list give positions 0, 1, … in order |
| ChimeraAdapter.ItemOfWritten | ConnectorRhino/ConnectorRhino/ConnectorRhinoShared/ChimeraTransport/SpeckleChimeraAdapter.cs:129-131 | the member of item i reads back as item i at position i |
| ChimeraAdapter.Enumerated | ConnectorRhino/ConnectorRhino/ConnectorRhinoShared/ChimeraTransport/SpeckleChimeraAdapter.cs:134-137 | entry i holds item i at key i |
| ChimeraAdapter.IndexedItemsStep | ConnectorRhino/ConnectorRhino/ConnectorRhinoShared/ChimeraTransport/SpeckleChimeraAdapter.cs:131 | one more member read is one more insertion into the dictionary |
| ChimeraAdapter.IndexedItemsAll | ConnectorRhino/ConnectorRhino/ConnectorRhinoShared/ChimeraTransport/SpeckleChimeraAdapter.cs:118-132 | members that read back as item i at position i in order give the enumerated items |
| ChimeraAdapter.SpeciesReadBack | ConnectorRhino/ConnectorRhino/ConnectorRhinoShared/ChimeraTransport/SpeckleChimeraAdapter.cs:71-81 | the member written for a registered species reads back as that species |
| ChimeraAdapter.ReadSpeciesFound | ConnectorRhino/ConnectorRhino/ConnectorRhinoShared/ChimeraTransport/SpeckleChimeraAdapter.cs:73-81 | an object whose id names a species with default data reads as that species filled from the object |
| ChimeraAdapter.CollectedAll | ConnectorRhino/ConnectorRhino/ConnectorRhinoShared/ChimeraTransport/SpeckleChimeraAdapter.cs:69-82 | a skipped reading followed by readings of the data collects the data, in order |
| ChimeraAdapter.UserDataRoundTrip | ConnectorRhino/ConnectorRhino/ConnectorRhinoShared/ChimeraTransport/SpeckleChimeraAdapter.cs:66-84 | reading what `ChimeraToSpeckle` wrote gives back the user data, in order, when every datum is a registered species and names do not collide |
| ChimeraAdapter.UserDataCollected | ConnectorRhino/ConnectorRhino/ConnectorRhinoShared/ChimeraTransport/SpeckleChimeraAdapter.cs:68-82 | the written members read back as the data |
| ChimeraAdapter.UserDataReadings | ConnectorRhino/ConnectorRhino/ConnectorRhinoShared/ChimeraTransport/SpeckleChimeraAdapter.cs:71-81 | each datum's member reads back as the datum |
| ChimeraAdapter.UserDataKeys | ConnectorRhino/ConnectorRhino/ConnectorRhinoShared/ChimeraTransport/SpeckleChimeraAdapter.cs:23-28 | the object id and the data names never collide, so every write appends |
| ChimeraAdapter.MissingIdStops | ConnectorRhino/ConnectorRhino/ConnectorRhinoShared/ChimeraTransport/SpeckleChimeraAdapter.cs:74 | an object member without `ChimeraId` makes `Guid.Parse("")` throw, which fails the whole reading |
| ChimeraAdapter.ParseSpeckleToChimera | ConnectorRhino/ConnectorRhino/ConnectorRhinoShared/ChimeraTransport/SpeckleChimeraAdapter.cs:66-84 | the loop computes exactly the reading of every member, in order, or its first exception |
| ChimeraAdapter.ParseMember | ConnectorRhino/ConnectorRhino/ConnectorRhinoShared/ChimeraTransport/SpeckleChimeraAdapter.cs:71-81 | one pass of the loop body is one member's reading |
| ChimeraAdapter.ParseSpeckleToChimeraData | ConnectorRhino/ConnectorRhino/ConnectorRhinoShared/ChimeraTransport/SpeckleChimeraAdapter.cs:86-103 | dispatches on the kind of data and gives exactly `ParsedData` of the value, including `as Base` giving null |
| ChimeraAdapter.ParseSpeckleToChimeraSpecies | ConnectorRhino/ConnectorRhino/ConnectorRhinoShared/ChimeraTransport/SpeckleChimeraAdapter.cs:105-111 | the loop fills every child, in order |
| ChimeraAdapter.ParseSpeckleToChimeraList | ConnectorRhino/ConnectorRhino/ConnectorRhinoShared/ChimeraTransport/SpeckleChimeraAdapter.cs:113-138 | the two loops give exactly the list reading |
| ChimeraAdapter.IndexItems | ConnectorRhino/ConnectorRhino/ConnectorRhinoShared/ChimeraTransport/SpeckleChimeraAdapter.cs:117-132 | the member loop builds exactly the sorted dictionary |
| ChimeraAdapter.ParseItem | ConnectorRhino/ConnectorRhino/ConnectorRhinoShared/ChimeraTransport/SpeckleChimeraAdapter.cs:120-131 | one pass of the member loop is one member's item reading |
| ChimeraAdapter.AddItems | ConnectorRhino/ConnectorRhino/ConnectorRhinoShared/ChimeraTransport/SpeckleChimeraAdapter.cs:134-137 | the last loop appends the dictionary's values in key order |

## Left out

- In-place updates are modelled as new values, with no aliasing:
  - the Chimera data is a `Data` value, and the writes `SetValue`, `Add` and
    `BatchWriteData` are returned rather than made in place;
  - the adapter's `Base` objects are values too.
  
  The AutoCAD stream state, which the connector updates in place, is a class.
- `ParseSpeckleToChimera` returns the list it would hand to `cuo.BatchWriteData`, or
  the exception that stops it first. The Chimera user-data store itself is not part
  of this model.
- `GetMembers()` is modelled as the dynamic members only. The instance properties of
  a `Base` (`id`, `applicationId`, `speckle_type`, …) are not part of the member bag.
  The user-data reading would skip them anyway, since they are not objects. A list
  reading would also look at them, by name.
- The ordering `GetChimeraData().Values` and `speciesData.Values` give is taken to be
  the order of the `Data` sequences. Chimera's own dictionaries are not part of this
  model.
- The AutoCAD side of `ReceiveStream` and `SendStream` is left out: I/O, network,
  transactions, document locks, progress reporting, notifications, commit creation,
  `Operations.Send` and `Operations.Receive`.
  - `DeleteLayersWithPrefix` is a boolean parameter saying whether it succeeded.
  - `GetOrMakeLayer` is a host function giving the cleaned name or failure.
  - `GetObjectsFromFilter` is the optional filter selection.
- `Convert.ToInt64(handle, 16)` and `hn.GetObject` are a single host lookup per
  handle. A handle that does not parse in base 16 is not modelled.
- The second `CanConvertToSpeckle` test in the send loop (bindings lines 479-483) is
  not modelled, because it can never fire after the first returned true. That
  assumes the converter answers the same way twice.
- The cast `(List<Base>)commitObj["@layer"]` can only fail when the member holds
  something other than a list. The send loop never puts anything else there
  (`GroupByLayer`), so `ConvertHandle` requires it.
- Floating point is left out. Coordinates are an abstract type, `ScaleToNative` is a
  parameter, and `IntervalToNative` is represented by keeping the domain.
- `NurbsToNative` is a parameter of `CurveToNative`.
- The overload `PointToArray(Point2d)` is not modelled: nothing in these files
  calls it. `VectorToArray` is a plain function used by `VectorRoundTrip`.
- AutocadBindings.SendStream, AutocadBindings.HandleOutcome: the send loop's host
  calls (`hn.GetObject`, `RemoveInvalidDynamicPropChars`, `CanConvertToSpeckle`,
  `ConvertToSpeckle`, bindings lines 461-484) have no try/catch in the source, so an
  exception in one of them ends `SendStream` with the earlier handles' errors
  recorded and no commit. The model takes these calls not to throw. The receive
  side does model throwing conversions (`ConversionThrew`).
- ChimeraKeys.StartsWith, AutocadBindings.LayerName: `string.StartsWith(string)`
  with no `StringComparison` (adapter line 120, bindings line 315) compares by the
  current culture, which skips ignorable characters such as a soft hyphen and
  matches canonically equivalent sequences. Both prefix tests are modelled as
  ordinal comparisons of the characters.
- ChimeraKeys.TryParse: .NET's culture-specific signs, thousands separators and
  non-ASCII digits are not modelled. Only the `NumberStyles.Integer` grammar over
  ASCII white space, `+`/`-` and ASCII digits is.
- ChimeraKeys.EqualsIgnoreCase: folds ASCII letters only, not the invariant
  culture's full case mapping.
- ChimeraKeys.TrimStart, ChimeraKeys.TrimEnd, ChimeraKeys.TrimNuls: their contracts
  state only that the result has no white space (or NUL) left at that end, not that
  it is a substring of the input.
- ChimeraAdapter.ParseOfWritten, ChimeraAdapter.SpeciesOfWritten,
  ChimeraAdapter.ListOfWritten: the round trip is promised only for `Recoverable`
  data. The item-name condition reflects the source, not the proof. The writer
  names each item after the item's own definition (adapter line 61), but the reader
  keeps only members whose names start with the list's definition name (line 120).
  A list whose items are named otherwise loses them on the way back
  (`ListOfOtherNames`). The geometry condition stands for a converter the model
  cannot see. The 2^31 bound is `int.TryParse`'s Int32 range.
- ChimeraAdapter.ChimeraDataToSpeckle, ChimeraAdapter.ParseSpeckleToChimeraData: the
  adapter's calls into outside code are taken not to throw. These are
  `converter.ConvertToSpeckle` (adapter line 36), `converter.ConvertToNative` and
  `SetValue` (lines 97 and 100), `SpeciesManager.GetAttribute` and
  `CreateDefaultData` (lines 76-78) and `GetDefaultItem` (line 129). None has a
  try/catch around it, so in the source an exception from any of them ends
  `ParseSpeckleToChimera` before `BatchWriteData` runs. The model's `toSpeckle`,
  `toNative` and `speciesDefaults` are total. In particular `ConvertToNative(null)`
  (line 97, for a geometry child whose member is missing or not an object) is
  whatever `toNative(None)` gives, not an exception. `ParseError` has no case for a
  host exception.
- SpeckleBase.Set: the `Base` indexer's check of dynamic member names is not modelled,
  so `base[key] = v` accepts every key. The bindings clean a layer name with
  `RemoveInvalidDynamicPropChars` before using it in the key `@<layer>` (bindings lines
  462 and 504-507, reported at line 512). That suggests characters such as `.` and `/`
  are refused in member names. The Chimera writer uses definition names unchecked
  (adapter lines 27, 49 and 61), and `Recoverable` has no condition on names. So
  `ParseOfWritten` and `UserDataRoundTrip` hold only where the indexer accepts the
  names written. The same applies to a send-side key `@@…` from a layer name that
  starts with `@`.
- ChimeraAdapter.UserDataRoundTrip: stated only for user data whose data are all
  registered species. For a top-level datum that is not a species the source does
  not round-trip: its value is skipped, or stops the reading (`MissingIdStops`).
- PointToArray: it is the building block of `PointsToFlatArray`, whose lemmas state
  what it gives, so it carries no contract of its own.

# Layout and naming core of two KiCad 3D-model generators

This project models, in Dafny, the deterministic arithmetic and naming logic
underneath two cadquery/FreeCAD model generators of the KiCad 3D-model
scripts. The solids themselves are left to the CAD kernel.

* **Molex SlimStack 54722** (`conn_molex_54722.py`):
  * the local rectangular point array `my_rarray`. It validates its
    arguments, builds an x-major grid and optionally centres it.
  * the counts and offsets of the contact holes, ribs and contact slots in
    `generate_body`.
  * the contact-pair copies made by `generate_contacts`.
* **Straight 2 x n box headers** (`main_generator.py`):
  * the part name `HeaderName`, with its zero-padded pin count.
  * the document name, which is the part name without periods.
  * the dimensions of the shrouded base (`MakeBase`), of a pin (`MakePin`)
    and of a pin row (`MakePinRow`), and how `MakeHeader` puts them together.
  * the command-line pin selection of the `__main__` block, and its loop
    over the selected pin counts. The loop updates the generator's global
    state: the current document name, the license list, the open and
    active documents, and the files written.

Dimensions are exact reals. Points are `Geometry.Point` values and solids are
the axis-aligned boxes (`Geometry.Box`) the kernel is asked to extrude.
Copies of the contact solid are `ContactCopy` values: an x-offset and a
mirror flag. A union of solids is a set of such copies.

The model follows the source's own form:
* `my_rarray`, `generate_contacts` and `MakePinRow` are methods with loops.
  Each is proved equal to a specification function, and the properties are
  proved about that function.
* The generator's global state is a `Session` class whose methods update its
  fields. `MakeHeader`, one loop pass and the whole loop are each proved to
  produce the state given by a pure function, about which the lemmas speak.
* Straight-line arithmetic is written as functions and lemmas.

Modules:
* `Geometry`: points, boxes, sums and centroids.
* `PointArray`: `my_rarray`.
* `MolexLayout`: the 54722 body arrays and contacts.
* `HeaderNaming`: part and document names.
* `HeaderGeometry`: base, pins and rows.
* `HeaderBatch`: pin selection and the batch session.

## Model

Source paths are relative to the repository root. `conn_molex_54722.py` is
`cadquery/FCAD_script_generator/Molex_54722/cq_models/conn_molex_54722.py`
and `main_generator.py` is
`cadquery/FCAD_script_generator/Box_Headers/main_generator.py`.

| member | source | states |
|---|---|---|
| PointArray.RArray | cadquery/FCAD_script_generator/Molex_54722/cq_models/conn_molex_54722.py:139-145 | The ValueError is raised exactly when a spacing is <= 0 or a count is < 1. Otherwise there are exactly xCount*yCount points. |
| PointArray.MyRArray | cadquery/FCAD_script_generator/Molex_54722/cq_models/conn_molex_54722.py:123-156 | The nested append loops and the centring loop return exactly the points (or the error) of the array specification. |
| PointArray.GridIndex | cadquery/FCAD_script_generator/Molex_54722/cq_models/conn_molex_54722.py:142-145 | Before centring, point x*yCount+y is (xSpacing*x, ySpacing*y). The order is x-major, and each column runs bottom to top. |
| PointArray.UncentredCorners | cadquery/FCAD_script_generator/Molex_54722/cq_models/conn_molex_54722.py:142-145 | Without centring, the first point is the origin and the last is the far corner ((xCount-1)*xSpacing, (yCount-1)*ySpacing). Every point lies in the rectangle between them, so no coordinate is negative. |
| PointArray.CentringShift | cadquery/FCAD_script_generator/Molex_54722/cq_models/conn_molex_54722.py:148-154 | Centring keeps the count and the order. It shifts every point by exactly half the grid's extent in each direction. |
| PointArray.CentredGridAt | cadquery/FCAD_script_generator/Molex_54722/cq_models/conn_molex_54722.py:142-154 | With centring, point x*yCount+y is (xSpacing*x, ySpacing*y) minus half the grid's extent in each direction. |
| PointArray.CentringPreservesDifferences | cadquery/FCAD_script_generator/Molex_54722/cq_models/conn_molex_54722.py:148-154 | Centring leaves every pairwise difference between points unchanged. |
| PointArray.CentredIsSymmetric | cadquery/FCAD_script_generator/Molex_54722/cq_models/conn_molex_54722.py:148-154 | The centred array is point-symmetric: point i is the negation of point N-1-i. |
| PointArray.CentredPairSymmetric | cadquery/FCAD_script_generator/Molex_54722/cq_models/conn_molex_54722.py:148-154 | The same symmetry for a single index i of the centred grid. |
| PointArray.CentredCentroidIsOrigin | cadquery/FCAD_script_generator/Molex_54722/cq_models/conn_molex_54722.py:148-154 | The centred points add up to the origin, so their centroid is exactly the origin. |
| PointArray.FivePointRow | cadquery/FCAD_script_generator/Molex_54722/cq_models/conn_molex_54722.py:148-154 | Worked case: five centred points at pitch 2.54 lie at x = -5.08, -2.54, 0, 2.54 and 5.08. |
| MolexLayout.PerRow | cadquery/FCAD_script_generator/Molex_54722/cq_models/conn_molex_54722.py:238 | num_pins/2 is the floor of half the pin count. |
| MolexLayout.CentredRowAt | cadquery/FCAD_script_generator/Molex_54722/cq_models/conn_molex_54722.py:238 | Point j of a centred single row at the pin pitch is (j*pitch - (count-1)*pitch/2, 0). |
| MolexLayout.ArrayCounts | cadquery/FCAD_script_generator/Molex_54722/cq_models/conn_molex_54722.py:236-265 | The body's arrays fail exactly when the pitch is not positive, there are fewer than 2 pins, or the rib-row spacing is not positive. Otherwise there are 2*(num_pins/2) holes and slots, and 2*(num_pins/2+1) ribs. |
| MolexLayout.HolePositions | cadquery/FCAD_script_generator/Molex_54722/cq_models/conn_molex_54722.py:236-242 | Hole j of the first row is in centred column j at y = hole_offset. Hole j of the second row is in the same column at y = -hole_offset. |
| MolexLayout.RibPositions | cadquery/FCAD_script_generator/Molex_54722/cq_models/conn_molex_54722.py:254-255 | Rib column k has its two ribs at y = -s/2 and y = +s/2, where s = pocket_width + body_chamfer. The column sits in centred column k of num_pins/2+1 columns. |
| MolexLayout.HolesMidwayBetweenRibs | cadquery/FCAD_script_generator/Molex_54722/cq_models/conn_molex_54722.py:238-254 | Every hole's x lies exactly midway between the two rib columns on either side of it, and strictly between them. |
| MolexLayout.SlotsCentredOnHoles | cadquery/FCAD_script_generator/Molex_54722/cq_models/conn_molex_54722.py:260-265 | Each slot rectangle, drawn from its corner at -slot_width/2, is centred in x on the hole with the same index, in both rows. |
| MolexLayout.SlotRows | cadquery/FCAD_script_generator/Molex_54722/cq_models/conn_molex_54722.py:260-265 | The first slot row runs from slot_depth inside the island edge to the pocket wall at y = pocket_width/2. The second row has the same x-extent. It is the XZ mirror image of the first exactly when pocket_width == island_width + 4*slot_depth. |
| MolexLayout.GenerateContacts | cadquery/FCAD_script_generator/Molex_54722/cq_models/conn_molex_54722.py:110-119 | The contact unioned with its XZ mirror, and then with that pair translated by i*pin_pitch for i in range(num_pins/2), is exactly the set of pairs at offsets 0 .. (PairCount-1)*pin_pitch, where PairCount is num_pins/2 for 2 or more pins. The repeated offset 0 adds nothing. For fewer than 2 pins the range is empty and exactly the initial pair at offset 0 remains. |
| MolexLayout.ContactsMirrorClosed | cadquery/FCAD_script_generator/Molex_54722/cq_models/conn_molex_54722.py:113-118 | Every copy is accompanied by its XZ mirror image. A copy lies at offset dx exactly when dx is k*pin_pitch for some k below PairCount. |
| MolexLayout.ContactsOverHoles | cadquery/FCAD_script_generator/Molex_54722/cq_models/conn_molex_54722.py:104-118 | Suppose the pin group width is (num_pins/2 - 1) pitches, given that the contact is extruded from -pin_width/2 - pin_group_width/2. Then the pair at offset j*pin_pitch is present and is centred on hole column j. |
| HeaderNaming.Decimal | cadquery/FCAD_script_generator/Box_Headers/main_generator.py:197 | The decimal digits of n have no leading zero. There is more than one digit exactly when n >= 10. |
| HeaderNaming.DecimalRoundTrip | cadquery/FCAD_script_generator/Box_Headers/main_generator.py:197 | Reading back the decimal digits of n gives n. |
| HeaderNaming.ZeroPad2Shape | cadquery/FCAD_script_generator/Box_Headers/main_generator.py:197 | For n >= 0 the `{n:02}` field is all digits, at least two of them, and reads back as n. It starts with '0' exactly when n < 10, in which case it is two characters long. For n >= 10 it is the plain decimal. |
| HeaderNaming.SignFirst | cadquery/FCAD_script_generator/Box_Headers/main_generator.py:197 | The field starts with '-' exactly when n is negative. |
| HeaderNaming.ZeroPad2Injective | cadquery/FCAD_script_generator/Box_Headers/main_generator.py:197 | Distinct integers give distinct fields. |
| HeaderNaming.HeaderNameShape | cadquery/FCAD_script_generator/Box_Headers/main_generator.py:196-197 | For every integer n the name is "Box_Header_Straight_2x", then the `{n:02}` field, then "x2.54mm", and it contains a period. For n >= 0 the field is all digits and reads back as n. |
| HeaderNaming.HeaderNameInjective | cadquery/FCAD_script_generator/Box_Headers/main_generator.py:196-197 | Distinct pin counts give distinct part names. |
| HeaderNaming.HeaderNameExamples | cadquery/FCAD_script_generator/Box_Headers/main_generator.py:196-197 | The names for 8 and 10 pins per row are "Box_Header_Straight_2x08x2.54mm" and "Box_Header_Straight_2x10x2.54mm". |
| HeaderNaming.RemovePeriodsSpec | cadquery/FCAD_script_generator/Box_Headers/main_generator.py:225-226 | Deleting periods: leaves no period; shortens the string by exactly its number of periods; keeps every other character's count; keeps the remaining characters in order (a subsequence); leaves a string without periods unchanged. |
| HeaderNaming.DocName | cadquery/FCAD_script_generator/Box_Headers/main_generator.py:225-226 | The document name has no period and is a subsequence of the part name. |
| HeaderNaming.ZeroPad2HasNoPeriod | cadquery/FCAD_script_generator/Box_Headers/main_generator.py:197 | The padded field never contains a period. |
| HeaderNaming.HeaderDocName | cadquery/FCAD_script_generator/Box_Headers/main_generator.py:225-226 | The document name is the prefix, the padded count and "x254mm". The part name keeps its period, so the two differ. |
| HeaderNaming.DocNameInjective | cadquery/FCAD_script_generator/Box_Headers/main_generator.py:226 | Distinct pin counts give distinct document names. |
| HeaderGeometry.BaseDimensions | cadquery/FCAD_script_generator/Box_Headers/main_generator.py:139-162 | The base: is 2.54*pins + 7.62 long and 8.9 wide; has wall thickness 1.25; has a block from 0 to 1.55, with the wall from there up to 8.9; has a cavity whose floor is at 2.8, 6.4 wide and 2.54*pins + 5.12 long. |
| HeaderGeometry.BaseOverhang | cadquery/FCAD_script_generator/Box_Headers/main_generator.py:142-164 | The base footprint is centred at ((pins-1)*1.27, 1.27). For every pin count it reaches exactly 5.08 beyond x = 0 and x = 2.54*(pins-1) at each end, and 3.18 beyond y = 0 and y = 2.54 at each side. |
| HeaderGeometry.PinsClearOfBaseEnds | cadquery/FCAD_script_generator/Box_Headers/main_generator.py:142-234 | For n >= 1 every pin centre lies at least 5.08 inside both ends of the base, with equality exactly reached by the first and last pin of each row. Every pin centre is exactly 3.18 inside one side of the base. |
| HeaderGeometry.CutoutThroughFrontWall | cadquery/FCAD_script_generator/Box_Headers/main_generator.py:159-164 | The notch: is 4 wide and centred on the base along x; cuts through the whole -y wall, from the cavity floor to the wall top; stops short of the +y wall. |
| HeaderGeometry.MakePin | cadquery/FCAD_script_generator/Box_Headers/main_generator.py:169-177 | A pin is a 0.64 x 0.64 square centred on the origin. It spans z from -3.0 to 8.0. |
| HeaderGeometry.MakePinRow | cadquery/FCAD_script_generator/Box_Headers/main_generator.py:186-193 | The loop over range(1, n) yields exactly the row PinRow(n), with pin i at x = 2.54*i. It has exactly n pins when n >= 1, and exactly the one initial pin when n < 1 (the range is then empty). |
| HeaderGeometry.HeaderPinGrid | cadquery/FCAD_script_generator/Box_Headers/main_generator.py:233-234 | The header has 2*RowLength(n) pins. Pin r*m+i is centred at (2.54*i, 2.54*r) and spans z from -3 to 8. |
| HeaderGeometry.BaseCentredOnPins | cadquery/FCAD_script_generator/Box_Headers/main_generator.py:233-236 | For n >= 1, the centroid of all pin centres is exactly the base translation ((n-1)*1.27, 1.27). |
| HeaderGeometry.PinsInsideShroud | cadquery/FCAD_script_generator/Box_Headers/main_generator.py:233-236 | For n >= 1 every pin's square lies strictly inside the shroud's cavity, and every pin tip stays below the top of the wall. |
| HeaderBatch.AllInAnyCase | cadquery/FCAD_script_generator/Box_Headers/main_generator.py:322 | An argument lower-cases to "all" exactly when it is a three-letter spelling of "all" in any mix of case. |
| HeaderBatch.SelectPinsCases | cadquery/FCAD_script_generator/Box_Headers/main_generator.py:316-326 | Selecting the pins: documents are closed exactly for "all"; "all" gives 39 pin counts 2..40, ascending, and nothing else; fewer than three arguments give the list "10"; any other argument goes to the list parser. |
| HeaderBatch.Session.constructor | cadquery/FCAD_script_generator/Box_Headers/main_generator.py:92 | A fresh run starts with the license list [""], no documents, and nothing written. |
| HeaderBatch.Session.MakeHeader | cadquery/FCAD_script_generator/Box_Headers/main_generator.py:200-301 | `MakeHeader` opens and activates the document named after the part without periods; builds two pin rows (the second moved by 2.54 in y) and the base; if the license list still starts with "", replaces it with the helper's list extended by ""; writes the STEP, VRML (scale 1/2.54) and native files under the part name, stamped with the license list in force. |
| HeaderBatch.Session.Step | cadquery/FCAD_script_generator/Box_Headers/main_generator.py:328-338 | One loop pass makes the header and re-activates its document. When closing, it closes that document and leaves none active. |
| HeaderBatch.Session.Run | cadquery/FCAD_script_generator/Box_Headers/main_generator.py:328-338 | The loop leaves exactly the state of the passes over the selected pin counts, taken in order. |
| HeaderBatch.StepExports | cadquery/FCAD_script_generator/Box_Headers/main_generator.py:277-301 | A pass appends exactly one artifact, the part's files stamped with the license list then in force. The license list is replaced only when it still starts with "". |
| HeaderBatch.StampAllAt | cadquery/FCAD_script_generator/Box_Headers/main_generator.py:328-329 | Artifact k of a run is part k's files. |
| HeaderBatch.RunExports | cadquery/FCAD_script_generator/Box_Headers/main_generator.py:277-301 | A run appends the files of every part, in order, after those already written. File k is stamped with exactly the license list in force after pass k, i.e. the license of the state after the first k+1 passes, whatever the helper text is. |
| HeaderBatch.StepDocuments | cadquery/FCAD_script_generator/Box_Headers/main_generator.py:226-231 | A pass sets the current document name to the part's. It leaves the part's document open and active, or with closing, closed with none active. |
| HeaderBatch.RunDocuments | cadquery/FCAD_script_generator/Box_Headers/main_generator.py:328-338 | With closing, a run leaves open exactly the documents open before it, and none active. Without closing, every part's document stays open, in order, and the last is active. The current document name is the last part's. |
| HeaderBatch.RunLicense | cadquery/FCAD_script_generator/Box_Headers/main_generator.py:278-281 | Starting from [""] with a helper text whose first line is real, the first header sets the license list to that text plus "". Every file of the run is stamped with it. |
| HeaderBatch.LicenseSettled | cadquery/FCAD_script_generator/Box_Headers/main_generator.py:278-281 | Once the license list starts with a real line, it is never replaced. Earlier files are untouched, and every later file is stamped with it. |
| HeaderBatch.ExportNamesDistinct | cadquery/FCAD_script_generator/Box_Headers/main_generator.py:277-301 | Distinct pin counts never share a STEP file, a VRML file or a document name. Each part's files keep the period of its name, while its document name has none. |

## Left out

- The CAD kernel: every rect, extrude, fillet, chamfer, shell, loft, cutBlind, union, cut, mirror and translate on solids. Only the numbers and boxes handed to the kernel are modelled.
- `pushPoints`: `PointArray.MyRArray` returns the point list it would push onto the stack.
- The contact profile (`Ribbon`, `drawRibbon`, the step lists of `generate_contact`). Its module is not part of this model. A contact copy is identified by its offset and mirror flag.
- The body outline, pocket, island, chamfers, side recesses, the pin-recess cutters `cutter_A`/`cutter_B`, the rib-recess cut at y = +/-pocket_width/2 and the notches of `generate_body`. These are kernel solids, and their dimensions come from the series parameter table.
- The series and per-part parameter tables (`all_params`, `dimensions`, `seriesParams`). These are not part of this model. `MolexLayout.BodyDims` takes the values they would supply as inputs.
- Workplane origins: the two hole rows are drawn on a workplane on the body's top face, and are assumed to have its origin over the body's XY origin. The rib array and the slot cutter start from the global XY workplane and need no such assumption.
- The exported STEP, VRML and native files are modelled as `Artifact` records (names, license lines, scale, solids). Their contents, the output-directory computation and `makedirs` are file I/O.
- `getListOfNumbers` is not part of this model. A selection other than "all" is returned undecoded as `Delegated`, and `HeaderBatch.Session.Run` takes the resulting list of pin counts as its input.
- `HeaderBatch.Lower` lower-cases ASCII letters only. The script runs under Python 2, where the argument is a byte string and `str.lower` in the default C locale also folds only ASCII letters, so nothing of the source's behaviour is lost; bytes are modelled as characters.
- `HeaderBatch.Session.MakeHeader` assumes that a new document gets exactly the name requested. FreeCAD's renaming of a clashing or invalid document name is not modelled.
- FreeCAD GUI state, colours, the material-substitution table, `FuseObjs_wColors`, labels and the ViewFit/axonometric view commands.
- Console messages: `say("Nothing specified to build...")` and the `expVRML.say` progress and path messages only write to the console.
- The batch loop has no exception handling in the code. A failure in one header aborts the run, so the model has no per-item error path.
- IEEE floating-point rounding: all dimensions are exact reals. Equalities such as "the centroid is exactly the origin" hold for the reals, and hold for floats only up to rounding.

# Verified model of the diplom-frontend editor core

This project models the core of a browser-based 3D editor (three.js plus Vue/Pinia) in Dafny, and proves properties of that model. The core has these parts:

- **Curves.** The editable 2D path `BezierCurve`. Despite its name it is a piecewise-linear path through its control points. A closed path also runs from the last point back to the first.
- **Strips.** `SurfaceStrip` is a cylindrical or conical surface trimmed by a closed contour drawn on the surface's 2D unfold. The model covers:
  - the even-odd ray-casting test that decides whether a point lies inside the contour;
  - the vertex-mask culling and index-buffer compaction that trims the mesh;
  - the default contour;
  - clamping points to the unfold bounds (`isPointInsideUnfoldBounds` is `Geometry.InsideBounds`).
- **UndoHistory and CommandManagement.** The two undo/redo managers, `HistorySystem` and `CommandManager`.
  - Both move along one timeline: a list of commands and the index of the current one.
  - `HistorySystem` catches exceptions thrown by commands.
  - `CommandManager` does not catch them, and it moves the index forward *before* a redo runs.
- **TransformCommands, AddCommands, AddCube and DeleteCommands.** The commands the editor pushes onto those managers. They move, add and delete meshes in the scene. They snapshot what their undo needs.
- **Selection.** `SelectionSystem` highlights the selected and hovered meshes through their material's emissive colour. It remembers each highlighted mesh's original material. Un-highlighting resets the emissive colour and intensity to 0. It does not copy the saved material back, exactly as the source does.
- **Notifications.** The store of toast notifications, with ids from a module-level counter.
- **Canvas.** `CanvasEditor`, the 2D view behind the curve editors. It covers the screen/world mapping, panning with the middle mouse button and zooming with the wheel.

**How the model is written.**
- Objects whose fields the source updates in place are classes:
  - `BezierCurve`, `SurfaceStrip`, `HistorySystem`, `CommandManager`, the commands, `SelectionSystem`, the notification store, `CanvasEditor`;
  - the three.js meshes, materials and scene they act on (`SceneGraph`).
- Each method's `ensures` ties the new state to a function of the old one. The properties the source promises are proved about those functions: round trips, invariants kept, idempotence, bounds.
- Coordinates are real numbers.
- Inputs the core gets from outside are parameters:
  - whether a command's method returns or throws;
  - `Math.random()` draws;
  - the meshes the shape and surface registries build;
  - the unfold bounds of a surface;
  - the canvas size;
  - the point-distance function.

## Model

| member | source | states |
|---|---|---|
| Curves.Lerp | src/core/curves/BezierCurve.js:66-70 | the blend gives `p0` at 0 and `p1` at 1, and for a fraction in [0, 1] stays inside the box spanned by the two points |
| Curves.PathPoints | src/core/curves/BezierCurve.js:34 | the path's points are the control points, followed by the first point again exactly when the curve is closed |
| Curves.SegmentIndex | src/core/curves/BezierCurve.js:38 | for 0 < t < 1 the segment index is the floor of t·segments and names an existing segment |
| Curves.SegmentFraction | src/core/curves/BezierCurve.js:39 | the position within the segment lies in [0, 1) |
| Curves.GetPoint | src/core/curves/BezierCurve.js:30-46 | t ≤ 0 gives the first control point and t ≥ 1 the last one, for closed curves too |
| Curves.GetPointInterior | src/core/curves/BezierCurve.js:34-45 | for 0 < t < 1 the point blends two consecutive path points of a valid segment; on a closed curve the last segment ends at the first control point |
| Curves.GetPointInBox | src/core/curves/BezierCurve.js:30-46 | every point of the curve lies in any box that holds all control points |
| Curves.Samples | src/core/curves/BezierCurve.js:53-60 | n + 1 samples, the i-th being the curve at t = i/n |
| Curves.SamplesEnds | src/core/curves/BezierCurve.js:53-60 | the samples start at the first control point and end at the last one |
| Curves.PolylineLength | src/core/curves/BezierCurve.js:77-88 | a polyline's length is never negative and is 0 for fewer than two points |
| Curves.BoundingBox | src/core/curves/BezierCurve.js:166-183 | the box holds every control point, and each of its four sides is attained by some point (it is the smallest such box) |
| Curves.Normalized | src/core/curves/BezierCurve.js:188-198 | normalising keeps the number of points and puts every point in the unit square |
| Curves.BezierCurve.constructor | src/core/curves/BezierCurve.js:12-16 | the curve holds the given points and closed flag |
| Curves.BezierCurve.Clone | src/core/curves/BezierCurve.js:21-23 | a fresh curve with equal points and flag |
| Curves.BezierCurve.ToJSON | src/core/curves/BezierCurve.js:140-145 | the record holds the points and the flag |
| Curves.BezierCurve.FromJSON | src/core/curves/BezierCurve.js:150-153 | a fresh curve whose `toJSON` gives back the record it came from (round trip) |
| Curves.BezierCurve.GetPoints | src/core/curves/BezierCurve.js:53-60 | the accumulator loop returns exactly `Samples(n)` |
| Curves.BezierCurve.GetLength | src/core/curves/BezierCurve.js:77-88 | the loop's sum is the polyline length of the n + 1 samples, 0 for n = 0, never negative |
| Curves.BezierCurve.GetBoundingBox | src/core/curves/BezierCurve.js:166-183 | the min/max loop returns the smallest box holding every control point |
| Curves.BezierCurve.SetControlPoint | src/core/curves/BezierCurve.js:95-100 | an in-range index replaces exactly that point; any other index changes nothing |
| Curves.BezierCurve.GetControlPoint | src/core/curves/BezierCurve.js:105-110 | the point at the index, and null exactly when the index is out of range |
| Curves.BezierCurve.AddControlPoint | src/core/curves/BezierCurve.js:115-118 | the point is appended and the rest is kept |
| Curves.BezierCurve.RemoveControlPoint | src/core/curves/BezierCurve.js:123-128 | removes exactly that point when the index is in range and more than two points remain, otherwise changes nothing; a curve never drops below two points |
| Curves.BezierCurve.GetControlPointCount | src/core/curves/BezierCurve.js:133-135 | the number of control points |
| Curves.BezierCurve.Normalize | src/core/curves/BezierCurve.js:188-198 | the in-place loop leaves exactly `Normalized(old points)`, all in the unit square; an empty curve is unchanged |
| Strips.Crossings | src/core/surfaces/SurfaceStrip.js:340-347 | the number of polygon edges that cross the ray, never more than the edges looked at |
| Strips.RayCast | src/core/surfaces/SurfaceStrip.js:339-349 | the flip-on-crossing loop answers "inside" exactly when an odd number of edges cross the ray going right from the point |
| Strips.NoCrossingsOutsideRows | src/core/surfaces/SurfaceStrip.js:344 | no edge crosses the ray of a point at or above every vertex, or below every vertex |
| Strips.NoCrossingsRightOf | src/core/surfaces/SurfaceStrip.js:344-345 | no edge crosses the ray of a point at or right of every vertex |
| Strips.CrossingBetween | src/core/surfaces/SurfaceStrip.js:345 | where an edge that straddles the ray meets it, x is at most the edge's larger x |
| Strips.OutsideContourBox | src/core/surfaces/SurfaceStrip.js:334-350 | a point above, below or right of the control points' bounding box is never inside the contour |
| Strips.CountKept | src/core/surfaces/SurfaceStrip.js:109-112 | the number of kept vertices is at most the number of vertices |
| Strips.CountKeptPrefix | src/core/surfaces/SurfaceStrip.js:109-112 | one step of the counting loop adds 1 exactly for a kept vertex |
| Strips.KeptPositionsLength | src/core/surfaces/SurfaceStrip.js:132-142 | the compacted coordinates hold exactly three numbers per kept vertex |
| Strips.RankIncreasing | src/core/surfaces/SurfaceStrip.js:132-142 | kept vertices get new indices in their original order |
| Strips.KeptPositionsAt | src/core/surfaces/SurfaceStrip.js:132-142 | new vertex Rank(v) carries the coordinates of old vertex v |
| Strips.RemapTrianglesSound | src/core/surfaces/SurfaceStrip.js:144-155 | the new index buffer holds whole triangles, no more than before, and every index names a kept vertex below the new vertex count |
| Strips.KeptPositionsStep | src/core/surfaces/SurfaceStrip.js:133-138 | one step of the copy loop pushes the vertex's three coordinates exactly when it is kept |
| Strips.RemapStep | src/core/surfaces/SurfaceStrip.js:146-153 | one step of the triangle loop pushes the renumbered triangle exactly when all three vertices are kept |
| Strips.Compact | src/core/surfaces/SurfaceStrip.js:127-142 | `indexMap` gives each kept vertex its rank and each dropped one -1; the new positions and indices are the kept coordinates and remapped triangles |
| Strips.RemapIndices | src/core/surfaces/SurfaceStrip.js:144-155 | the loop over triangles through `indexMap` produces exactly the remapped triangles |
| Strips.TrimWithMask | src/core/surfaces/SurfaceStrip.js:108-165 | the counting and case split give `Trim`: the input mesh if all vertices are kept, an empty mesh if none, else the compacted mesh, without an index buffer when no triangle survives |
| Strips.ConicalMask | src/core/surfaces/SurfaceStrip.js:78-106 | one mask entry per vertex |
| Strips.ConstrainPointToUnfoldBounds | src/core/surfaces/SurfaceStrip.js:380-388 | each coordinate is unchanged when it lies in [min + 0.05, max − 0.05]; below that range, or whenever the range is empty, it becomes min + 0.05 (the lower bound wins); above a non-empty range it becomes max − 0.05 |
| Strips.ConstrainIdempotent | src/core/surfaces/SurfaceStrip.js:380-388 | constraining twice is the same as constraining once |
| Strips.ConstrainedIsInside | src/core/surfaces/SurfaceStrip.js:371-388 | on bounds at least 0.1 wide and high, a constrained point passes `isPointInsideUnfoldBounds` |
| Strips.DefaultStripContour | src/core/surfaces/SurfaceStrip.js:223-268 | a closed contour of four corners starting at (min + 0.1, min + 0.1) with the opposite corner (max − 0.1, max − 0.1) third, in which consecutive corners (the wrap pair too) share a coordinate, so the order is (min, min), (max, min), (max, max), (min, max) |
| Strips.DefaultContourIsInset | src/core/surfaces/SurfaceStrip.js:229-256 | the default contour's bounding box is the unfold bounds inset by 0.1 on every side |
| Strips.SurfaceStrip.constructor | src/core/surfaces/SurfaceStrip.js:21-33 | a given curve is copied, curve JSON is parsed, and without one the default contour is built |
| Strips.SurfaceStrip.ToJSON | src/core/surfaces/SurfaceStrip.js:311-318 | the record is of kind "strip" with the surface type and parameters and the contour's own record |
| Strips.SurfaceStrip.FromJSON | src/core/surfaces/SurfaceStrip.js:323-329 | a strip whose `toJSON` gives back a strip record that carries a contour (round trip) |
| Strips.SurfaceStrip.GetStripContour | src/core/surfaces/SurfaceStrip.js:273-275 | a fresh copy equal to the contour |
| Strips.SurfaceStrip.SetStripContour | src/core/surfaces/SurfaceStrip.js:280-286 | a curve is copied and curve JSON parsed into a fresh contour; a missing argument changes nothing |
| Strips.SurfaceStrip.IsPointInsideContour | src/core/surfaces/SurfaceStrip.js:334-350 | the even-odd test against the 201 samples of the contour |
| Strips.SurfaceStrip.ApplyStripContourToMesh | src/core/surfaces/SurfaceStrip.js:58-166 | the contour is needed only on the conical path that reads it; unknown surface types and meshes with no vertices or no index buffer come back unchanged; a cylindrical strip throws; a conical one is trimmed with its vertex mask |
| UndoHistory.DropRedoBranch | src/core/engine/systems/HistorySystem.js:23-25 | the commands after the current one are cut, the index is kept, and nothing is left to redo |
| UndoHistory.Push | src/core/engine/systems/HistorySystem.js:23-30 | the command becomes the last and current entry after the kept earlier ones: undo becomes possible and redo does not |
| UndoHistory.HistoryExecute | src/core/engine/systems/HistorySystem.js:16-34 | an invalid command changes nothing; a successful one is pushed; a throwing one only cuts the redo branch; the timeline stays valid |
| UndoHistory.HistoryUndo | src/core/engine/systems/HistorySystem.js:39-49 | the index moves back exactly when something can be undone; the list is kept |
| UndoHistory.HistoryRedo | src/core/engine/systems/HistorySystem.js:54-64 | the index moves forward exactly when something can be redone; the list is kept |
| UndoHistory.RedoAfterUndo | src/core/engine/systems/HistorySystem.js:39-64 | redo after undo returns to the same timeline |
| UndoHistory.UndoAfterRedo | src/core/engine/systems/HistorySystem.js:39-64 | undo after redo returns to the same timeline |
| UndoHistory.ExecuteThenUndo | src/core/engine/systems/HistorySystem.js:16-49 | after a successful execute the command is current and nothing can be redone; undo then returns to the old index over the same earlier commands |
| UndoHistory.UndoTimesIndex | src/core/engine/systems/HistorySystem.js:39-49 | n undos keep the list and move the index back by n, stopping at -1 |
| UndoHistory.RedoTimesAfterUndoTimes | src/core/engine/systems/HistorySystem.js:39-64 | undoing n commands and then redoing n returns to the same timeline |
| UndoHistory.RedoShift | src/core/engine/systems/HistorySystem.js:54-64 | n + 1 redos are one redo followed by n |
| UndoHistory.HistorySystem.constructor | src/core/engine/systems/HistorySystem.js:6-10 | an empty history at index -1 |
| UndoHistory.HistorySystem.Execute | src/core/engine/systems/HistorySystem.js:16-34 | the new state is `HistoryExecute` of the old one, and `execute` is called exactly on a valid command |
| UndoHistory.HistorySystem.Undo | src/core/engine/systems/HistorySystem.js:39-49 | the new state is `HistoryUndo` of the old one, and the current command's `undo` is called when it exists |
| UndoHistory.HistorySystem.Redo | src/core/engine/systems/HistorySystem.js:54-64 | the new state is `HistoryRedo` of the old one, and the next command's `execute` is called when it exists |
| UndoHistory.HistorySystem.GetSize | src/core/engine/systems/HistorySystem.js:69-71 | the length of the history |
| UndoHistory.HistorySystem.GetCurrentIndex | src/core/engine/systems/HistorySystem.js:76-78 | the current index |
| UndoHistory.HistorySystem.Clear | src/core/engine/systems/HistorySystem.js:83-86 | back to the empty timeline |
| CommandManagement.CommandManager.constructor | src/core/commands/CommandManager.js:3-7 | an empty timeline and no listener |
| CommandManagement.CommandManager.CanUndo | src/core/commands/CommandManager.js:10-12 | true exactly when the index is at least 0 |
| CommandManagement.CommandManager.CanRedo | src/core/commands/CommandManager.js:14-16 | true exactly when the index is before the last entry |
| CommandManagement.CommandManager.Notify | src/core/commands/CommandManager.js:46-51 | the listener is called once if installed; the timeline is kept |
| CommandManagement.CommandManager.Execute | src/core/commands/CommandManager.js:18-28 | the redo branch is always cut; the command is pushed and the listener notified only if its `execute` returned; a missing `execute` throws |
| CommandManagement.CommandManager.Undo | src/core/commands/CommandManager.js:30-36 | when undo is possible the current command's `undo` runs; only if it returns does the index move back and the listener run |
| CommandManagement.CommandManager.Redo | src/core/commands/CommandManager.js:38-44 | when redo is possible the index moves forward before `execute` runs, so even a throwing redo leaves it advanced; the listener runs only on success |
| CommandManagement.AgreesWithHistorySystem | src/core/commands/CommandManager.js:18-28 | when the command returns, the manager's execute lands on the same timeline as `HistorySystem.execute` |
| TransformCommands.CloneField | src/core/commands/TransformCommand.js:27-33 | a field survives, as a copy, exactly when it has a `clone` method |
| TransformCommands.CloneTransformData | src/core/commands/TransformCommand.js:27-33 | each of position, rotation and scale is kept exactly when it was clonable |
| TransformCommands.Applied | src/core/commands/TransformCommand.js:38-44 | each non-null field is copied into the transform and every null one is left as it was |
| TransformCommands.CaptureTransform | src/core/commands/TransformCommand.js:63-70 | applying a captured transform to anything yields the mesh's transform; no mesh gives `{}` |
| TransformCommands.CapturedArgs | src/core/commands/TransformCommand.js:14-33 | a captured record handed back to the constructor is stored as it was captured, so capture-then-construct keeps every field |
| TransformCommands.RestoreCaptured | src/core/commands/TransformCommand.js:38-70 | applying the captured data restores the mesh's transform whatever was applied since |
| TransformCommands.ApplyIdempotent | src/core/commands/TransformCommand.js:38-44 | applying the same data twice is the same as applying it once |
| TransformCommands.ApplyNothing | src/core/commands/TransformCommand.js:38-44 | data with every field null changes nothing |
| TransformCommands.TransformCommand.constructor | src/core/commands/TransformCommand.js:14-22 | both records are stored as per-field copies |
| TransformCommands.TransformCommand.ApplyTransform | src/core/commands/TransformCommand.js:38-44 | with a mesh, its transform becomes `Applied(old, data)` and its material, `selectable`, `shapeType`, `surfaceType` and `params` are unchanged; without one, nothing happens |
| TransformCommands.TransformCommand.Execute | src/core/commands/TransformCommand.js:49-51 | applies the new transform data; the mesh's material, `selectable`, `shapeType`, `surfaceType` and `params` are unchanged |
| TransformCommands.TransformCommand.Undo | src/core/commands/TransformCommand.js:56-58 | applies the original transform data; the mesh's material, `selectable`, `shapeType`, `surfaceType` and `params` are unchanged |
| TransformCommands.CloneOrKeep | src/core/commands/MoveShapeCommand.js:14-20 | a clonable position is passed on as a copy and anything else as it is, so the value passed on equals the argument |
| TransformCommands.NewMoveShapeCommand | src/core/commands/MoveShapeCommand.js:14-20 | a transform command whose records carry only the (clonable) new and old positions |
| TransformCommands.MoveShapeOnlyMoves | src/core/commands/MoveShapeCommand.js:14-20 | a move-shape command never touches rotation or scale, and moves only for a clonable position |
| TransformCommands.MoveCommand.constructor | src/core/commands/MoveCommand.js:4-9 | both positions are stored |
| TransformCommands.MoveCommand.Execute | src/core/commands/MoveCommand.js:11-15 | the mesh, if any, moves to the new position; its rotation, scale, material, `selectable`, `shapeType`, `surfaceType` and `params` are unchanged |
| TransformCommands.MoveCommand.Undo | src/core/commands/MoveCommand.js:17-21 | the mesh, if any, moves back to the old position; every other field is unchanged |
| TransformCommands.MoveSurfaceCommand.constructor | src/core/commands/MoveSurfaceCommand.js:5-9 | the (from, to) positions are stored |
| TransformCommands.MoveSurfaceCommand.Execute | src/core/commands/MoveSurfaceCommand.js:11-13 | the mesh moves to the "to" position and only its position changes |
| TransformCommands.MoveSurfaceCommand.Undo | src/core/commands/MoveSurfaceCommand.js:15-17 | the mesh moves back to the "from" position and only its position changes |
| AddCommands.RandomOffset | src/core/commands/AddShapeCommand.js:17-18 | a random offset lies in [-2.5, 2.5) |
| AddCommands.NewCube | src/core/commands/AddCubeCommand.js:11-15 | a fresh green 2×2×2 box at height 1, a random x and z, marked selectable |
| AddCommands.AddShapeCommand.constructor | src/core/commands/AddShapeCommand.js:4-9 | the scene, type and parameters are stored, and there is no mesh yet |
| AddCommands.AddShapeCommand.Execute | src/core/commands/AddShapeCommand.js:11-22 | the first call builds the mesh (an unknown type throws with no change) and places it at a random x and z, changing nothing else in it; every call adds the same mesh to the scene |
| AddCommands.AddShapeCommand.Undo | src/core/commands/AddShapeCommand.js:24-28 | the mesh, if built, leaves the scene |
| AddCommands.AddSurfaceCommand.constructor | src/core/commands/AddSurfaceCommand.js:7-12 | the scene, type and parameters are stored, and there is no mesh yet |
| AddCommands.AddSurfaceCommand.Execute | src/core/commands/AddSurfaceCommand.js:14-25 | as for shapes, over the surface registry: the first call builds the mesh and changes only its x and z, and every call adds the same mesh |
| AddCommands.AddSurfaceCommand.Undo | src/core/commands/AddSurfaceCommand.js:27-31 | the mesh, if built, leaves the scene |
| AddCommands.AddCubeCommand.constructor | src/core/commands/AddCubeCommand.js:4-7 | no cube yet |
| AddCommands.AddCubeCommand.Execute | src/core/commands/AddCubeCommand.js:9-18 | the first call builds the cube; every call adds the same cube to the scene |
| AddCommands.AddCubeCommand.Undo | src/core/commands/AddCubeCommand.js:20-24 | the cube, if built, leaves the scene |
| AddCube.AddCubeCommand.constructor | src/core/commands/add/AddCubeCommand.js:4-7 | no cube yet |
| AddCube.AddCubeCommand.Execute | src/core/commands/add/AddCubeCommand.js:9-24 | the first call builds the cube; every call adds the same cube to the scene |
| AddCube.AddCubeCommand.Undo | src/core/commands/add/AddCubeCommand.js:26-31 | the cube, if built, leaves the scene |
| DeleteCommands.SnapshotColor | src/core/commands/DeleteShapeCommand.js:16 | a missing colour and black both become white; any other colour is kept |
| DeleteCommands.SnapshotParams | src/core/commands/DeleteShapeCommand.js:12 | the parameters are copied, or `{}` when there are none |
| DeleteCommands.DeleteShapeCommand.constructor | src/core/commands/DeleteShapeCommand.js:4-17 | snapshots the type, parameters, transform and colour of the mesh |
| DeleteCommands.DeleteShapeCommand.Execute | src/core/commands/DeleteShapeCommand.js:19-32 | the mesh leaves the scene; if it was selected, the selection is cleared (its material and the hovered mesh's are un-highlighted when they have a saved original and otherwise left as they were, unless a saved mesh shares the material; colours are kept, and so are the saved originals) and the store's selected shape becomes null, and otherwise neither is touched |
| DeleteCommands.DeleteShapeCommand.Undo | src/core/commands/DeleteShapeCommand.js:34-42 | the mesh returns to the scene with its snapshot transform; only its transform changes |
| DeleteCommands.DeleteSurfaceCommand.constructor | src/core/commands/DeleteSurfaceCommand.js:7-20 | snapshots the type, parameters, transform and colour of the mesh |
| DeleteCommands.DeleteSurfaceCommand.Execute | src/core/commands/DeleteSurfaceCommand.js:22-35 | as for shapes: the mesh leaves the scene; if it was selected, the selected and hovered meshes are un-highlighted when saved and otherwise left as they were (unless a saved mesh shares the material), colours and saved originals are kept, and the store's selected surface becomes null |
| DeleteCommands.DeleteSurfaceCommand.Undo | src/core/commands/DeleteSurfaceCommand.js:37-45 | the mesh returns to the scene with its snapshot transform; only its transform changes |
| Selection.Record | src/core/engine/systems/SelectionSystem.js:66-68 | saved materials are never dropped or overwritten; only a mesh that has a material and is not yet saved is added |
| Selection.SelectionSystem.constructor | src/core/engine/systems/SelectionSystem.js:2-8 | nothing selected or hovered, no saved material |
| Selection.SelectionSystem.Highlight | src/core/engine/systems/SelectionSystem.js:62-89 | the first highlight saves the material; the emissive colour and intensity are set and the colour kept |
| Selection.SelectionSystem.ApplySelectMaterial | src/core/engine/systems/SelectionSystem.js:62-73 | orange emissive (0xFF8800) at 0.8, with the original saved first |
| Selection.SelectionSystem.ApplyHoverMaterial | src/core/engine/systems/SelectionSystem.js:78-89 | yellow emissive (0xFFDD00) at 0.5, with the original saved first |
| Selection.SelectionSystem.RestoreOriginalMaterial | src/core/engine/systems/SelectionSystem.js:94-102 | a mesh with a material and a saved copy gets emissive 0 at intensity 0; any other mesh is untouched |
| Selection.SelectionSystem.SetSelected | src/core/engine/systems/SelectionSystem.js:13-26 | the new selection is highlighted and its original saved; a different previous selection is un-highlighted if it has a saved original, and otherwise its material is left as it was unless the new selection shares it; every colour is kept; hover is kept |
| Selection.SelectionSystem.SetHovered | src/core/engine/systems/SelectionSystem.js:31-43 | the new hover is highlighted unless it is the selection; the old hover is un-highlighted unless it is the new one or the selection, and an old hover without a saved original (or equal to the selection) keeps its material unless the new hover shares it; every colour is kept; the selection's material is untouched when neither the old nor the new hover shares it |
| Selection.SelectionSystem.Clear | src/core/engine/systems/SelectionSystem.js:48-57 | both references end up null; each mesh with a saved original is un-highlighted, one without keeps its material unless the other mesh has a saved original and shares it; every colour and the saved originals are kept |
| Selection.SelectionSystem.GetSelected | src/core/engine/systems/SelectionSystem.js:107-109 | the selected mesh |
| Selection.SelectionSystem.GetHovered | src/core/engine/systems/SelectionSystem.js:114-116 | the hovered mesh |
| Selection.SelectionSystem.Dispose | src/core/engine/systems/SelectionSystem.js:122-125 | every saved material is forgotten |
| Notifications.Without | src/stores/notificationsStore.js:23-25 | an entry is kept exactly when it is in the list and its id differs from the removed one |
| Notifications.WithoutConcat | src/stores/notificationsStore.js:23-25 | filtering works entry by entry, so the kept entries stay in order |
| Notifications.WithoutAbsent | src/stores/notificationsStore.js:23-25 | removing an id no entry has leaves the list unchanged |
| Notifications.WithoutIncreasing | src/stores/notificationsStore.js:23-25 | removing keeps the ids strictly increasing |
| Notifications.IdCounter.constructor | src/stores/notificationsStore.js:3 | ids start at 1 |
| Notifications.NotificationStore.constructor | src/stores/notificationsStore.js:6-8 | an empty list |
| Notifications.NotificationStore.Show | src/stores/notificationsStore.js:11-21 | appends `{ id, type, message }` with the next id (type "info" by default) and advances the counter; the removal timer is set exactly when the timeout (3000 by default) is positive; ids stay strictly increasing and below the counter |
| Notifications.NotificationStore.Remove | src/stores/notificationsStore.js:23-25 | the list becomes `Without(id)`; ids stay strictly increasing |
| Canvas.ScreenToWorld | src/utils/CanvasEditor.js:49-63 | the world point maps back to the same screen point under `worldToScreen` |
| Canvas.WorldScreenRoundTrip | src/utils/CanvasEditor.js:49-77 | a world point drawn on the screen and read back is the same point |
| Canvas.ScreenYPointsDown | src/utils/CanvasEditor.js:59-61 | with a positive scale, lower on the screen is lower in the world |
| Canvas.PanKeepsGrabbedPoint | src/utils/CanvasEditor.js:122-132 | panning by the cursor's travel keeps the grabbed world point under the cursor |
| Canvas.ZoomedScale | src/utils/CanvasEditor.js:159-164 | the zoomed scale always lies in [20, 500]: it is scale × factor when that is in range, 20 below it and 500 above it |
| Canvas.ZoomDirection | src/utils/CanvasEditor.js:159-164 | within range, scrolling down never zooms in and scrolling up never zooms out |
| Canvas.OrDefault | src/utils/CanvasEditor.js:9-12 | a missing or zero option gives the default, any other value is kept |
| Canvas.CanvasEditor.constructor | src/utils/CanvasEditor.js:6-38 | scale `initialScale` or 100, point radius or 8, zero pan, no hovered or selected point, not dragging or panning |
| Canvas.CanvasEditor.OnMouseMove | src/utils/CanvasEditor.js:122-132 | while panning, the pan follows the cursor, the grabbed world point stays under it and the view is redrawn, with scale, point radius, flags and indices kept; otherwise nothing changes |
| Canvas.CanvasEditor.OnMouseDown | src/utils/CanvasEditor.js:134-141 | the middle button starts panning from the cursor; other buttons change nothing |
| Canvas.CanvasEditor.OnMouseUp | src/utils/CanvasEditor.js:143-147 | releasing the middle button stops panning |
| Canvas.CanvasEditor.OnMouseLeave | src/utils/CanvasEditor.js:149-154 | hover, dragging and panning end, and the view is redrawn |
| Canvas.CanvasEditor.OnWheel | src/utils/CanvasEditor.js:156-172 | the scale becomes the clamped zoom, in [20, 500]; both pan coordinates move by a tenth of the scale change |
| Canvas.CanvasEditor.Clear | src/utils/CanvasEditor.js:181-187 | default scale 100, zero pan, no selected or hovered point; panning and dragging are left as they were |

## Left out

- Floating point is modelled as real arithmetic. There is no NaN, no infinity and no rounding, and `Float32Array`/`Uint32Array` buffers hold exact values. The one NaN that decides a branch is modelled as a case: a conical strip with a non-numeric `height`, whose unfold y is NaN, so no vertex is inside.
- Curves.BezierCurve.GetBoundingBox: requires a non-empty curve. On an empty curve the source returns a box of infinities, which reals cannot represent.
- Curves.BezierCurve.GetPoints, Curves.BezierCurve.GetLength, Curves.GetPoint: require a non-empty curve. Otherwise the source throws a TypeError reading an undefined point.
- Curves.BezierCurve.GetPoints: takes a natural segment count of at least 1. For 0 the source throws, a negative count gives `[]`, and a fractional one gives a shorter grid of t values that misses t = 1; none of these is modelled.
- Curves.BezierCurve.constructor, Curves.BezierCurve.GetPoints, Curves.BezierCurve.GetLength: the JavaScript default arguments (`closed = false`, 50 and 100 segments) are not modelled; callers pass every argument.
- Curves.BezierCurve.GetLength: the Euclidean distance (`distanceTo`, a square root) is a parameter that is only assumed non-negative.
- Curves.GetPoint: the source returns the last control point at t ≥ 1, even on a closed curve. A description of the curve as returning to its start at t = 1 is therefore not what the code does; the model follows the code.
- Strips.SurfaceStrip.constructor, Strips.SurfaceStrip.FromJSON: require a known surface type when no contour is given, the only case where the source builds a default contour. There the source throws for an unknown type.
- Strips.SurfaceStrip.constructor: the unfold bounds of the base surface are a parameter. Computing them needs the surface's 2D geometry and `Box3.setFromObject` from three.js. The same holds for `getUnfoldBounds` behind `isPointInsideUnfoldBounds` and `constrainPointToUnfoldBounds`.
- Strips.SurfaceStrip.ApplyStripContourToMesh: the base mesh is a parameter, reduced to its position and index arrays. Its material and user data are carried over to the new mesh unchanged, and `computeVertexNormals` is a rendering detail.
  - The cylindrical branch ends in the TypeError of `getBaseCurve`, which no surface class defines. It is the `BaseCurveMissing` result, so `_calculateUnfoldX` (atan2) only ever sees a perimeter of 0 and gives 0.
  - The source recomputes the 201 contour samples for every vertex. The model computes them once, which is the same value.
- Strips.SurfaceStrip.IsPointInsideContour: requires a non-empty contour. On an empty one the source's `getPoint` throws a TypeError reading an undefined point.
- Strips.SurfaceStrip.ApplyStripContourToMesh: requires a well-formed index buffer (whole triangles, every index below the vertex count). The source checks nothing: an out-of-range index or a trailing partial triangle reads `indexMap` as undefined, which passes the `!== -1` test, so the triangle is kept with undefined entries.
- Strips.SurfaceStrip.ApplyStripContourToMesh: requires a non-empty contour on the conical path with vertices and an index buffer, the only path that reads it. There the source throws the same TypeError for an empty contour.
- Strips.ConicalMask: an explicit `height` of a non-numeric type (a numeric string, say) is treated as missing.
- `createMesh`, `createUnfold2D`, `_addStripContourToUnfold`, `getBaseCurve` and `setBaseCurve` build three.js geometry, and the surface classes are not part of this model.
- UndoHistory.HistorySystem: console warnings and errors are left out, and a command is seen only as which of `execute`/`undo` it has. CommandManagement.CommandManager.Execute takes a non-null command; a null one throws in the source at the same point as a missing `execute`.
- CommandManagement.CommandManager.Notify: `console.log` is left out, and the `onUpdate` listener is counted, not run.
- TransformCommands: `RotateShapeCommand` and `ScaleShapeCommand` are not part of this model.
- TransformCommands.MoveSurfaceCommand: takes a non-null mesh. The source accepts a null mesh at construction, and then `execute` and `undo` throw a TypeError at `this.mesh.position`, with no guard as `MoveCommand` has.
- TransformCommands.MoveCommand.constructor, TransformCommands.MoveSurfaceCommand.constructor: take position values. In the source, `clone()` on a null or undefined position throws at construction.
- AddCommands.AddShapeCommand.Execute, AddCommands.AddSurfaceCommand.Execute: the mesh the shape or surface registry would build is a parameter. Only the registry's set of known type names is modelled.
- SceneGraph.Scene: the scene is a set of meshes, so child order and parent links are not modelled.
- DeleteCommands.DeleteSurfaceCommand.Execute: it calls `updateSelectedSurface`, which the editor store does not define. The model gives the store that action with the evident meaning; the source would throw there when a store is passed.
- DeleteCommands: `materialColor` is snapshotted but never read by undo, in the source as in the model.
- Selection.SelectionSystem.Highlight: every material is assumed to have `emissive` and `emissiveIntensity`. In the source a material without `emissive` throws in `applySelectMaterial`/`applyHoverMaterial` after its copy has been saved.
- Selection.SelectionSystem.SetSelected, AddCube.AddCubeCommand.Execute, AddCube.AddCubeCommand.Undo: `console.log` is left out.
- Notifications.NotificationStore.Show: the `setTimeout` that later calls `remove(id)` is left out; `Show` reports whether it would be set.
- Notifications.NotificationStore.Show: `None` stands for an omitted (undefined) argument only, which takes the default. An explicit `null` is not modelled: the source stores a null type as it is, and a null timeout sets no timer.
- Canvas.CanvasEditor: drawing (`redraw`, `drawGrid`, colours, the 2D context) is only counted. Event listener setup and `preventDefault` are left out. The canvas size and bounding rectangle are a parameter of the coordinate mapping.

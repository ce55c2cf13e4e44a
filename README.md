# RT display tool: a verified model

This project models the RT tool panel of the Weasis DICOM viewer (`RtDisplayTool`). The panel shows radiotherapy data over the images of the viewer. That data is:

- RT structure sets, whose regions of interest are drawn as contours;
- RT plans with their doses, whose isodose lines are drawn for the slice on screen.

The panel has three controls:

- two combo boxes, one for the structure set and one for the plan;
- a checkbox tree with a Structures branch and an Isodoses branch, whose leaves are the structure layers and the isodose layers;
- a "Load RT" button.

When a checked path changes, every view of the selected container redraws its RT overlay from what is now checked.

The model follows the Java class closely:

- **Value-level code becomes functions.** The key comparisons `containsStructure` and `containsIsoDose` become `Selection.ContainsStructure` and `Selection.ContainsIsoDose`. The checked-path filters `getStructureSelection` and `getIsoDoseSelection` become `Selection.StructureSelection` and `Selection.IsoDoseSelection`. The study walk of `getRelatedSpecialElements` becomes `Related.RelatedElements`. What one `showGraphic` pass leaves in an overlay model becomes `Overlay.Resolved`.
- **Changing state becomes classes with fields.**
  - `Overlay.GraphicModel` is a presentation model. It holds its graphics and its graphics listeners.
  - `Overlay.ImageElement` is an image. Its presentation-model tag is a field.
  - `Overlay.ViewCanvas` is a view, with a repaint counter.
  - `Tool.RtDisplayTool` is the panel. Its fields are:
    - the current case;
    - the two combo selections;
    - whether the combo listeners are attached;
    - the load button's enabled state;
    - the `initPathSelection` guard;
    - the children of the two branches;
    - the checked paths.
  - Each Java method that changes this state is a method with loops and invariants. Its `ensures` ties the new state to a specification function of the old one: `ToolSpec.UpdatedTree`, `ToolSpec.UpdatedCanvas`, `ToolSpec.CanvasRuns` and `ToolSpec.NextCase`.
  - The lemmas in `ToolProps`, `OverlayProps` and `Selection` prove what those functions promise.

The modules are:

| module | file | contents |
|---|---|---|
| `RtTypes` | rt_types.dfy | the RT case: structure sets, plans, doses, isodoses, contours |
| `Selection` | selection.dfy | key comparisons, the checked-path list, and the two selections |
| `Related` | related.dfy | which RT objects and images of the patient belong with a frame of reference |
| `Overlay` | overlay.dfy | overlay models, images, views and `showGraphic` |
| `OverlayProps` | overlay_props.dfy | what a `showGraphic` pass adds, keeps and ignores |
| `Views` | views.dfy | the `showGraphic` loop over the views of a container |
| `ToolSpec` | tool_spec.dfy | the panel's state as a value, and a function per operation |
| `ToolProps` | tool_props.dfy | lemmas about those functions |
| `Tool` | tool.dfy | the panel as a class |

Each behaviour below is stated as the Java code has it:

- **Node identity.** A tree node is known by its identity, so the model gives each new node a fresh id. Rebuilding a branch replaces all of its children. The branch path is then checked and every new leaf is left unchecked. What stays selected depends on the checking library. If `tree.setModel` clears the checked paths, no layer is selected after an update until the user checks a leaf (`ToolProps.ResetUpdateSelectsNothing`). If it keeps them, no checked path is removed: the leaf paths of the dropped nodes stay checked, and their layers stay selected and drawn (`ToolProps.KeptUpdateKeepsSelection`, `ToolProps.KeptUpdateStaleLeaf`).
- **Keys.** Selection is by key: the ROI number and name for a structure, the level and label for an isodose. Duplicated checked leaves give duplicated selection entries, because `getStructureSelection` does not de-duplicate. They still do not change what is drawn (`OverlayProps.StructureSelectionDuplicateHarmless`).
- **Unknown plan.** `updateTree` with a plan the case does not know dereferences null (`getPlan(...).getFirstDose()`). This assumes that `RtSet.getPlan` returns null for a key it does not hold; `RtSet` is not part of this model. The model records this as an update that does not complete:
  - the Isodoses branch has already been emptied;
  - the guard is reset by the `finally`;
  - `updateCanvas` stops there, with its combo listeners still detached.
- **Combo listeners.** A new panel has no combo listeners. `updateCanvas` detaches them and attaches them again only when it completes with a case, so a selection in a combo before that changes nothing in the tree.
- **Stale structure in `updateCanvas`.** The second `updateTree` call in `updateCanvas` passes the structure selection read *before* the combos were refilled.
  - If that set is no longer in the case, the Structures branch is rebuilt from nothing. The combo then shows the first structure set over an empty branch (`ToolProps.CanvasStaleStructureEmptiesBranch`).
  - A stale plan together with a stale structure makes the first `updateTree` dereference null (`ToolProps.CanvasCompletion`).
- **Checking library.** Whether the checking library forgets its checked paths when `tree.setModel` installs a new model is not visible from this class. The panel therefore carries it as the constant `resetsChecking`, and every result holds for both values.
- **Foreign code as parameters.** Calls into code outside the class are parameters:
  - `project` stands for `Contour.getGraphic(geometry)`;
  - `derive` stands for `new RtSet(list)`;
  - `reloaded` stands for the data after `reloadRtCase()`;
  - the views of the selected container are a sequence;
  - the series context of `initTreeValues` is an `Option`.

## Model

| member | source | states |
|---|---|---|
| Selection.ContainsStructure | weasis-dicom/weasis-dicom-rt/src/main/java/org/weasis/dicom/rt/RtDisplayTool.java:236-244 | true iff some layer of the list has a structure with the same ROI number and name |
| Selection.ContainsIsoDose | weasis-dicom/weasis-dicom-rt/src/main/java/org/weasis/dicom/rt/RtDisplayTool.java:246-254 | true iff some layer of the list has an isodose with the same level and label |
| Selection.ContainsStructureByKey | weasis-dicom/weasis-dicom-rt/src/main/java/org/weasis/dicom/rt/RtDisplayTool.java:238-239 | two structures with the same key are contained in exactly the same lists |
| Selection.ContainsStructureAppend | weasis-dicom/weasis-dicom-rt/src/main/java/org/weasis/dicom/rt/RtDisplayTool.java:236-244 | containment in a concatenation is containment in either part, and does not depend on order |
| Selection.StructureDuplicateHarmless | weasis-dicom/weasis-dicom-rt/src/main/java/org/weasis/dicom/rt/RtDisplayTool.java:236-244 | appending a duplicate of a listed layer changes no containment answer |
| Selection.ContainsIsoDoseByKey | weasis-dicom/weasis-dicom-rt/src/main/java/org/weasis/dicom/rt/RtDisplayTool.java:248-249 | two isodoses with the same key are contained in exactly the same lists |
| Selection.ContainsIsoDoseAppend | weasis-dicom/weasis-dicom-rt/src/main/java/org/weasis/dicom/rt/RtDisplayTool.java:246-254 | containment in a concatenation of isodose lists is containment in either part |
| Selection.IsoDoseDuplicateHarmless | weasis-dicom/weasis-dicom-rt/src/main/java/org/weasis/dicom/rt/RtDisplayTool.java:246-254 | appending a duplicate isodose layer changes no containment answer |
| Selection.AddPath | weasis-dicom/weasis-dicom-rt/src/main/java/org/weasis/dicom/rt/RtDisplayTool.java:173-174 | after adding a checking path, the checked paths are the old ones plus that path, still without duplicates |
| Selection.RemovePath | weasis-dicom/weasis-dicom-rt/src/main/java/org/weasis/dicom/rt/RtDisplayTool.java:175-176 | after removing a checking path, the checked paths are the old ones minus that path; removing an unchecked path changes nothing |
| Selection.StructureSelection | weasis-dicom/weasis-dicom-rt/src/main/java/org/weasis/dicom/rt/RtDisplayTool.java:208-210 | with the Structures branch unchecked, nothing is selected |
| Selection.IsoDoseSelection | weasis-dicom/weasis-dicom-rt/src/main/java/org/weasis/dicom/rt/RtDisplayTool.java:222-224 | with the Isodoses branch unchecked, nothing is selected |
| Selection.StructureLeavesAppend | weasis-dicom/weasis-dicom-rt/src/main/java/org/weasis/dicom/rt/RtDisplayTool.java:211-217 | the structure layers of concatenated path lists are the concatenation, in order |
| Selection.IsoDoseLeavesAppend | weasis-dicom/weasis-dicom-rt/src/main/java/org/weasis/dicom/rt/RtDisplayTool.java:225-231 | the isodose layers of concatenated path lists are the concatenation, in order |
| Selection.StructureLeavesMembership | weasis-dicom/weasis-dicom-rt/src/main/java/org/weasis/dicom/rt/RtDisplayTool.java:211-217 | a layer is collected iff some checked path ends in a leaf holding it |
| Selection.IsoDoseLeavesMembership | weasis-dicom/weasis-dicom-rt/src/main/java/org/weasis/dicom/rt/RtDisplayTool.java:225-231 | an isodose layer is collected iff some checked path ends in a leaf holding it |
| Selection.TwoLeavesTwoEntries | weasis-dicom/weasis-dicom-rt/src/main/java/org/weasis/dicom/rt/RtDisplayTool.java:208-220 | two checked leaves holding the same layer give that layer twice: no de-duplication |
| Selection.BranchAloneSelectsNothing | weasis-dicom/weasis-dicom-rt/src/main/java/org/weasis/dicom/rt/RtDisplayTool.java:208-234 | checked branches without any checked leaf select no layer |
| Selection.StructureSelectionIgnoresOtherPaths | weasis-dicom/weasis-dicom-rt/src/main/java/org/weasis/dicom/rt/RtDisplayTool.java:208-220 | checking or unchecking a path that is neither the Structures branch nor a structure leaf leaves the structure selection as it was |
| Selection.IsoDoseSelectionIgnoresOtherPaths | weasis-dicom/weasis-dicom-rt/src/main/java/org/weasis/dicom/rt/RtDisplayTool.java:222-234 | checking or unchecking a path that is neither the Isodoses branch nor an isodose leaf leaves the isodose selection as it was |
| Related.RelatedElements | weasis-dicom/weasis-dicom-rt/src/main/java/org/weasis/dicom/rt/RtDisplayTool.java:561-562 | a frame of reference with no text relates no element |
| Related.GetRelatedSpecialElements | weasis-dicom/weasis-dicom-rt/src/main/java/org/weasis/dicom/rt/RtDisplayTool.java:559-591 | the nested loops over studies and series return exactly the related elements, in order |
| Related.CollectSeries | weasis-dicom/weasis-dicom-rt/src/main/java/org/weasis/dicom/rt/RtDisplayTool.java:564-587 | the loop over one study's series collects exactly what its matching series contribute |
| Related.CollectMedias | weasis-dicom/weasis-dicom-rt/src/main/java/org/weasis/dicom/rt/RtDisplayTool.java:572-585 | the loop over a series' images keeps exactly those of the wanted modality, in order |
| Related.MediasOfMembership | weasis-dicom/weasis-dicom-rt/src/main/java/org/weasis/dicom/rt/RtDisplayTool.java:572-577 | an image is kept iff the series holds it and its modality is the wanted one |
| Related.SeriesElementsMembership | weasis-dicom/weasis-dicom-rt/src/main/java/org/weasis/dicom/rt/RtDisplayTool.java:564-587 | an element is found in a study iff one of its series contributes it |
| Related.StudyElementsMembership | weasis-dicom/weasis-dicom-rt/src/main/java/org/weasis/dicom/rt/RtDisplayTool.java:563-588 | an element is found iff one of the patient's studies contributes it |
| Related.RelatedMembership | weasis-dicom/weasis-dicom-rt/src/main/java/org/weasis/dicom/rt/RtDisplayTool.java:559-591 | an element is related iff the frame of reference has text and some series matches (same frame of reference or RTSTRUCT), and the element is among its RT special elements, or the series is a DICOM series of modality RTDOSE or CT and the element is one of its images of that modality |
| Overlay.GraphicModel.constructor | weasis-dicom/weasis-dicom-rt/src/main/java/org/weasis/dicom/rt/RtDisplayTool.java:278-279 | a new presentation model has no graphics and no listeners |
| Overlay.GraphicModel.DeleteByLayerType | weasis-dicom/weasis-dicom-rt/src/main/java/org/weasis/dicom/rt/RtDisplayTool.java:281-282 | the graphics of the given layer type are removed and the others kept in order |
| Overlay.GraphicModel.AddGraphic | weasis-dicom/weasis-dicom-rt/src/main/java/org/weasis/dicom/rt/RtDisplayTool.java:313 | the graphic is appended |
| Overlay.ImageElement.constructor | weasis-dicom/weasis-dicom-rt/src/main/java/org/weasis/dicom/rt/RtDisplayTool.java:258-259 | an image with the given slice and presentation-model tag |
| Overlay.ViewCanvas.constructor | weasis-dicom/weasis-dicom-rt/src/main/java/org/weasis/dicom/rt/RtDisplayTool.java:258 | a view of the given image, never repainted yet |
| Overlay.ShowGraphic | weasis-dicom/weasis-dicom-rt/src/main/java/org/weasis/dicom/rt/RtDisplayTool.java:256-374 | without a case, a DICOM image, or any contour or dose for it, nothing changes; otherwise the image's model (created empty when missing) holds its non-RT graphics followed by the RT graphics of the selection, and the view is repainted once |
| Overlay.ResolveModel | weasis-dicom/weasis-dicom-rt/src/main/java/org/weasis/dicom/rt/RtDisplayTool.java:276-367 | the image ends with a model, the old one if it had one, holding one resolution pass over its old graphics |
| Overlay.PrepareModel | weasis-dicom/weasis-dicom-rt/src/main/java/org/weasis/dicom/rt/RtDisplayTool.java:276-283 | the image ends with a model: a new, empty one when it had none, otherwise its own model with the DICOM_RT graphics deleted and the listeners kept |
| Overlay.AddRtGraphics | weasis-dicom/weasis-dicom-rt/src/main/java/org/weasis/dicom/rt/RtDisplayTool.java:285-368 | the two loops append the isodose graphics of the first dose and then the structure graphics of the slice, which together are the slice's RT graphics |
| Overlay.AddLayerGraphics | weasis-dicom/weasis-dicom-rt/src/main/java/org/weasis/dicom/rt/RtDisplayTool.java:289-317 | one isodose layer appends its contours' graphics when it is selected and has contours at z, and nothing otherwise |
| Overlay.AttachListeners | weasis-dicom/weasis-dicom-rt/src/main/java/org/weasis/dicom/rt/RtDisplayTool.java:309-311 | the graphic gets every model listener, after its own |
| Overlay.AddIsoDoseGraphics | weasis-dicom/weasis-dicom-rt/src/main/java/org/weasis/dicom/rt/RtDisplayTool.java:286-319 | the loop over the dose's isodose layers appends exactly the isodose graphics of the selection for slice z |
| Overlay.AddIsoContourGraphics | weasis-dicom/weasis-dicom-rt/src/main/java/org/weasis/dicom/rt/RtDisplayTool.java:298-315 | the loop over one isodose's contours at z appends one styled graphic per contour that projects onto the slice |
| Overlay.AddStructureGraphics | weasis-dicom/weasis-dicom-rt/src/main/java/org/weasis/dicom/rt/RtDisplayTool.java:321-367 | the loop over the slice's contours appends exactly the structure graphics of the selection |
| OverlayProps.WithoutKindAppend | weasis-dicom/weasis-dicom-rt/src/main/java/org/weasis/dicom/rt/RtDisplayTool.java:282 | deleting a layer type distributes over concatenation |
| OverlayProps.WithoutKindMembership | weasis-dicom/weasis-dicom-rt/src/main/java/org/weasis/dicom/rt/RtDisplayTool.java:282 | a graphic survives the deletion iff it was there and is of another layer type |
| OverlayProps.WithoutKindOfOnlyKind | weasis-dicom/weasis-dicom-rt/src/main/java/org/weasis/dicom/rt/RtDisplayTool.java:282 | deleting the only layer type present empties the list |
| OverlayProps.WithoutKindIdempotent | weasis-dicom/weasis-dicom-rt/src/main/java/org/weasis/dicom/rt/RtDisplayTool.java:282 | deleting a layer type twice is deleting it once |
| OverlayProps.IsoContourGraphicsRt | weasis-dicom/weasis-dicom-rt/src/main/java/org/weasis/dicom/rt/RtDisplayTool.java:303-311 | every isodose contour graphic has layer type DICOM_RT and exactly the model's listeners |
| OverlayProps.IsoDoseGraphicsRt | weasis-dicom/weasis-dicom-rt/src/main/java/org/weasis/dicom/rt/RtDisplayTool.java:286-319 | every isodose graphic of a pass has layer type DICOM_RT and the model's listeners |
| OverlayProps.StructureGraphicsRt | weasis-dicom/weasis-dicom-rt/src/main/java/org/weasis/dicom/rt/RtDisplayTool.java:347-362 | every structure graphic of a pass has layer type DICOM_RT and the model's listeners |
| OverlayProps.RtGraphicsAreRt | weasis-dicom/weasis-dicom-rt/src/main/java/org/weasis/dicom/rt/RtDisplayTool.java:285-368 | every graphic a pass adds has layer type DICOM_RT and the model's listeners |
| OverlayProps.ResolveKeepsOtherKinds | weasis-dicom/weasis-dicom-rt/src/main/java/org/weasis/dicom/rt/RtDisplayTool.java:276-368 | a pass keeps every graphic of another layer type, in order, and adds none of another type |
| OverlayProps.ResolveIdempotent | weasis-dicom/weasis-dicom-rt/src/main/java/org/weasis/dicom/rt/RtDisplayTool.java:276-368 | a second pass with the same case, selection and slice leaves the model as the first left it |
| OverlayProps.EmptySelectionAddsNothing | weasis-dicom/weasis-dicom-rt/src/main/java/org/weasis/dicom/rt/RtDisplayTool.java:276-368 | with nothing selected a pass only drops the old RT graphics |
| OverlayProps.IsoDoseGraphicsNoSelection | weasis-dicom/weasis-dicom-rt/src/main/java/org/weasis/dicom/rt/RtDisplayTool.java:292 | no isodose selected, no isodose graphic |
| OverlayProps.StructureGraphicsNoSelection | weasis-dicom/weasis-dicom-rt/src/main/java/org/weasis/dicom/rt/RtDisplayTool.java:327 | no structure selected, no structure graphic |
| OverlayProps.StructureGraphicsMembership | weasis-dicom/weasis-dicom-rt/src/main/java/org/weasis/dicom/rt/RtDisplayTool.java:321-367 | a structure graphic is drawn iff some contour of the slice has a selected owner (by key) and projects onto the slice, styled with the owner's layer, thickness and colour, filled unless EXTERNAL |
| OverlayProps.StructureFilledRule | weasis-dicom/weasis-dicom-rt/src/main/java/org/weasis/dicom/rt/RtDisplayTool.java:351-358 | each structure graphic is filled iff its structure's interpreted type is not EXTERNAL |
| OverlayProps.StructureGraphicsMonotonic | weasis-dicom/weasis-dicom-rt/src/main/java/org/weasis/dicom/rt/RtDisplayTool.java:326-327 | a selection that covers another by key draws every structure graphic the other draws |
| OverlayProps.StructureGraphicsByKey | weasis-dicom/weasis-dicom-rt/src/main/java/org/weasis/dicom/rt/RtDisplayTool.java:326-327 | two selections that answer the same for every owner draw the same structure graphics |
| OverlayProps.StructureSelectionDuplicateHarmless | weasis-dicom/weasis-dicom-rt/src/main/java/org/weasis/dicom/rt/RtDisplayTool.java:208-220 | a duplicated entry in the structure selection draws nothing more |
| OverlayProps.IsoContourGraphicsMembership | weasis-dicom/weasis-dicom-rt/src/main/java/org/weasis/dicom/rt/RtDisplayTool.java:298-315 | an isodose contour graphic is drawn iff some contour at z projects onto the slice, styled from the isodose |
| OverlayProps.IsoDoseGraphicsMembership | weasis-dicom/weasis-dicom-rt/src/main/java/org/weasis/dicom/rt/RtDisplayTool.java:286-319 | an isodose graphic is drawn iff a dose layer selected by key has a contour at exactly z that projects onto the slice, with the layer's thickness and colour, filled |
| OverlayProps.IsoDoseGraphicsAppend | weasis-dicom/weasis-dicom-rt/src/main/java/org/weasis/dicom/rt/RtDisplayTool.java:287-319 | the isodose graphics of a dose are those of its layers in layer order, so two runs of layers draw the first run's graphics then the second's |
| OverlayProps.MissingPlaneAddsNothing | weasis-dicom/weasis-dicom-rt/src/main/java/org/weasis/dicom/rt/RtDisplayTool.java:295-296 | a layer of a dose whose isodose has no contours at z contributes nothing: the dose draws on that slice exactly what it draws without that layer |
| OverlayProps.IsoDoseGraphicsMonotonic | weasis-dicom/weasis-dicom-rt/src/main/java/org/weasis/dicom/rt/RtDisplayTool.java:292 | an isodose selection that covers another by key draws every graphic the other draws |
| OverlayProps.ScenarioCheckedTarget | weasis-dicom/weasis-dicom-rt/src/main/java/org/weasis/dicom/rt/RtDisplayTool.java:208-220 | with the Structures branch and one TARGET leaf checked, the slice shows the old non-RT graphics plus one filled graphic of that structure |
| OverlayProps.ScenarioUncheckedLeaf | weasis-dicom/weasis-dicom-rt/src/main/java/org/weasis/dicom/rt/RtDisplayTool.java:208-220 | with only the branch checked, a pass leaves just the non-RT graphics |
| Views.ShowGraphicOnViews | weasis-dicom/weasis-dicom-rt/src/main/java/org/weasis/dicom/rt/RtDisplayTool.java:200-202 | after the loop every view with RT data for its slice shows one pass over its old model and is repainted once per occurrence in the sequence, every other view is untouched and not repainted, and different images still have different models |
| ToolProps.RebuiltValid | weasis-dicom/weasis-dicom-rt/src/main/java/org/weasis/dicom/rt/RtDisplayTool.java:455-469 | rebuilding a branch keeps the tree well formed: fresh ids, no duplicate checked path, children in their own branch |
| ToolProps.RebuiltBranch | weasis-dicom/weasis-dicom-rt/src/main/java/org/weasis/dicom/rt/RtDisplayTool.java:455-469 | after a rebuild the branch's children hold exactly the items in order, the branch is checked, no new leaf is checked, and the other branch is untouched |
| ToolProps.UpdatedTreeValid | weasis-dicom/weasis-dicom-rt/src/main/java/org/weasis/dicom/rt/RtDisplayTool.java:438-498 | updateTree keeps the tree well formed |
| ToolProps.UpdatedTreeCompletion | weasis-dicom/weasis-dicom-rt/src/main/java/org/weasis/dicom/rt/RtDisplayTool.java:472-475 | updateTree runs to its end iff it is not asked for a plan the present case does not know |
| ToolProps.UpdatedTreeNoCase | weasis-dicom/weasis-dicom-rt/src/main/java/org/weasis/dicom/rt/RtDisplayTool.java:440-446 | without a case both branches are emptied and nothing else is done |
| ToolProps.UpdatedTreeStructures | weasis-dicom/weasis-dicom-rt/src/main/java/org/weasis/dicom/rt/RtDisplayTool.java:455-469 | with a structure selector, the Structures branch holds exactly that set's layers in order (none for an unknown set), is checked, and its leaves are unchecked |
| ToolProps.UpdatedTreeIsoDoses | weasis-dicom/weasis-dicom-rt/src/main/java/org/weasis/dicom/rt/RtDisplayTool.java:472-490 | with a known plan, the Isodoses branch is empty when the plan has no dose, and otherwise holds the dose's isodose layers in order, checked as a branch with unchecked leaves |
| ToolProps.UpdatedTreeKeepsOtherBranch | weasis-dicom/weasis-dicom-rt/src/main/java/org/weasis/dicom/rt/RtDisplayTool.java:455-472 | an absent selector leaves its branch's children, and (when the checking library keeps its paths) its selection, as they were |
| ToolProps.ResetUpdateSelectsNothing | weasis-dicom/weasis-dicom-rt/src/main/java/org/weasis/dicom/rt/RtDisplayTool.java:449-452 | when a new tree model clears the checked paths, nothing is selected after updateTree |
| ToolProps.KeptUpdateKeepsSelection | weasis-dicom/weasis-dicom-rt/src/main/java/org/weasis/dicom/rt/RtDisplayTool.java:449-490 | when a new tree model keeps the checked paths, updateTree unchecks nothing, so every layer selected before it is still selected after it |
| ToolProps.KeptUpdateStaleLeaf | weasis-dicom/weasis-dicom-rt/src/main/java/org/weasis/dicom/rt/RtDisplayTool.java:449-469 | with paths kept, a checked leaf whose node the Structures rebuild drops stays checked and its layer stays selected |
| ToolProps.CanvasValid | weasis-dicom/weasis-dicom-rt/src/main/java/org/weasis/dicom/rt/RtDisplayTool.java:376-420 | updateCanvas keeps the tree well formed and the case as it was |
| ToolProps.CanvasNoCase | weasis-dicom/weasis-dicom-rt/src/main/java/org/weasis/dicom/rt/RtDisplayTool.java:378-386 | without a case both branches are emptied and the combos and listeners are untouched |
| ToolProps.CanvasListening | weasis-dicom/weasis-dicom-rt/src/main/java/org/weasis/dicom/rt/RtDisplayTool.java:388-422 | with a case, the combo listeners are attached afterwards iff updateCanvas completed |
| ToolProps.CanvasCompletion | weasis-dicom/weasis-dicom-rt/src/main/java/org/weasis/dicom/rt/RtDisplayTool.java:403-419 | for a case whose first keys are its own, updateCanvas completes iff the old structure set is known, or there was no old plan, or the old plan is known |
| ToolProps.CanvasSelectorsKnown | weasis-dicom/weasis-dicom-rt/src/main/java/org/weasis/dicom/rt/RtDisplayTool.java:403-419 | after a completed updateCanvas both combos show an item of the case, or nothing |
| ToolProps.CanvasStaleStructureEmptiesBranch | weasis-dicom/weasis-dicom-rt/src/main/java/org/weasis/dicom/rt/RtDisplayTool.java:405-419 | a stale structure set with no plan selected ends with the first structure set in the combo and an empty, checked Structures branch |
| ToolProps.CanvasRunsValid | weasis-dicom/weasis-dicom-rt/src/main/java/org/weasis/dicom/rt/RtDisplayTool.java:122-124 | updating any number of views keeps the tree well formed and the case |
| ToolProps.CanvasRunsSelectorsKnown | weasis-dicom/weasis-dicom-rt/src/main/java/org/weasis/dicom/rt/RtDisplayTool.java:122-124 | after updating one or more views to completion, both combos show an item of the case, or nothing |
| ToolProps.NextCaseSettles | weasis-dicom/weasis-dicom-rt/src/main/java/org/weasis/dicom/rt/RtDisplayTool.java:510-514 | the case is replaced iff the related list is non-empty and differs from the case's elements; then it holds that list; a second call with the same list keeps it |
| Tool.RtDisplayTool.constructor | weasis-dicom/weasis-dicom-rt/src/main/java/org/weasis/dicom/rt/RtDisplayTool.java:85-102 | a new panel has no case, empty combos with no listeners attached (they are attached only at the end of a completed updateCanvas), an enabled load button, empty branches and only the root checked |
| Tool.RtDisplayTool.InitPathSelection | weasis-dicom/weasis-dicom-rt/src/main/java/org/weasis/dicom/rt/RtDisplayTool.java:172-178 | the path is added to or removed from the checked paths, and nothing else changes |
| Tool.RtDisplayTool.GetStructureSelection | weasis-dicom/weasis-dicom-rt/src/main/java/org/weasis/dicom/rt/RtDisplayTool.java:208-220 | the loop returns the structure selection of the checked paths |
| Tool.RtDisplayTool.GetIsoDoseSelection | weasis-dicom/weasis-dicom-rt/src/main/java/org/weasis/dicom/rt/RtDisplayTool.java:222-234 | the loop returns the isodose selection of the checked paths |
| Tool.RtDisplayTool.SetTreeModel | weasis-dicom/weasis-dicom-rt/src/main/java/org/weasis/dicom/rt/RtDisplayTool.java:449-452 | a new tree model keeps the nodes and clears the checked paths iff the checking library does so |
| Tool.RtDisplayTool.RebuildBranch | weasis-dicom/weasis-dicom-rt/src/main/java/org/weasis/dicom/rt/RtDisplayTool.java:455-469 | the loops over the items and then over the children leave the branch rebuilt, in the sense proved by ToolProps.RebuiltBranch |
| Tool.RtDisplayTool.AddLeaves | weasis-dicom/weasis-dicom-rt/src/main/java/org/weasis/dicom/rt/RtDisplayTool.java:456-463 | the branch's children are replaced by one new node per item, in order, numbered from the first fresh id |
| Tool.RtDisplayTool.AddLeaf | weasis-dicom/weasis-dicom-rt/src/main/java/org/weasis/dicom/rt/RtDisplayTool.java:460-462 | one new node is appended to the branch and its path unchecked |
| Tool.RtDisplayTool.UncheckLeaves | weasis-dicom/weasis-dicom-rt/src/main/java/org/weasis/dicom/rt/RtDisplayTool.java:466-469 | the path of every child of the branch is unchecked in turn |
| Tool.RtDisplayTool.UpdateTree | weasis-dicom/weasis-dicom-rt/src/main/java/org/weasis/dicom/rt/RtDisplayTool.java:438-498 | the tree becomes the updated tree, the update completes as ToolProps.UpdatedTreeCompletion says, and the guard ends cleared whenever a case is present |
| Tool.RtDisplayTool.SelectStructureSet | weasis-dicom/weasis-dicom-rt/src/main/java/org/weasis/dicom/rt/RtDisplayTool.java:74-78 | the combo shows the item; when the listener is attached, the Structures branch is rebuilt from it; the initPathSelection guard is never left raised (the finally of updateTree clears it) |
| Tool.RtDisplayTool.SelectPlan | weasis-dicom/weasis-dicom-rt/src/main/java/org/weasis/dicom/rt/RtDisplayTool.java:79-83 | the combo shows the item; when the listener is attached, the Isodoses branch is rebuilt from it; the initPathSelection guard is never left raised |
| Tool.RtDisplayTool.TreeValueChanged | weasis-dicom/weasis-dicom-rt/src/main/java/org/weasis/dicom/rt/RtDisplayTool.java:180-206 | when the guard is clear, with a case and a path under a branch, every view with RT data shows one pass of the current selection and is repainted once per occurrence in the sequence; otherwise no view changes and none is repainted (the guard is set only inside updateTree, which fires no tree event in the model; the constructor clears it and every update method ensures it is not left raised, so a caller always finds it clear) |
| Tool.RtDisplayTool.UpdateCanvas | weasis-dicom/weasis-dicom-rt/src/main/java/org/weasis/dicom/rt/RtDisplayTool.java:376-436 | the panel state becomes the updated canvas state; after a completed update a view with RT data shows one pass of the new selection and is repainted once; otherwise the view is untouched and not repainted; the initPathSelection guard is never left raised |
| Tool.RtDisplayTool.Draw | weasis-dicom/weasis-dicom-rt/src/main/java/org/weasis/dicom/rt/RtDisplayTool.java:435 | showGraphic on the view from the current selections: a view with RT data shows one pass of them and is repainted once, any other is untouched and not repainted |
| Tool.RtDisplayTool.RefreshSelectors | weasis-dicom/weasis-dicom-rt/src/main/java/org/weasis/dicom/rt/RtDisplayTool.java:388-422 | the combo and tree part of updateCanvas yields the updated canvas state, and leaves the initPathSelection guard no higher than it found it |
| Tool.RtDisplayTool.InitTreeValues | weasis-dicom/weasis-dicom-rt/src/main/java/org/weasis/dicom/rt/RtDisplayTool.java:500-519 | without a series context nothing changes; otherwise the case becomes the next case of the related elements, the load button is enabled when it was replaced, and the view is updated and repainted as by updateCanvas; without a context the initPathSelection guard is unchanged too, and it is never left raised |
| Tool.RtDisplayTool.ActionPerformed | weasis-dicom/weasis-dicom-rt/src/main/java/org/weasis/dicom/rt/RtDisplayTool.java:104-127 | another command changes nothing, neither the panel (initPathSelection guard included) nor any view; "Load RT" without a case fails and changes nothing, neither the panel (guard included) nor any view; the guard is never left raised; with a case it reloads the case's data, disables the load button and updates the views one by one, stopping at the first that does not complete; when no two views share an image, each view shows what its own run left: one pass of that run's selection if the run completed and the view has RT data, otherwise its old overlay; each view is repainted once exactly when its run completed and it has RT data |
| Tool.RtDisplayTool.UpdateViews | weasis-dicom/weasis-dicom-rt/src/main/java/org/weasis/dicom/rt/RtDisplayTool.java:116-125 | the loop over the views yields the state of that many updateCanvas runs, never leaves the initPathSelection guard raised, stopping at the first that does not complete; when no two views share an image, view k shows what the (k + 1)-th run left: one pass of that run's selection if it completed and the view has RT data, otherwise its old overlay; view k is repainted once exactly when that run completed and it has RT data |
| Tool.RtDisplayTool.UpdateViewStep | weasis-dicom/weasis-dicom-rt/src/main/java/org/weasis/dicom/rt/RtDisplayTool.java:122-124 | one iteration updates view i as the (i + 1)-th run, and when it does not complete the runs end there, leaving the remaining views untouched and not repainted |
| Tool.RtDisplayTool.RunOnView | weasis-dicom/weasis-dicom-rt/src/main/java/org/weasis/dicom/rt/RtDisplayTool.java:123 | updateCanvas on view i gives the (i + 1)-th run's outcome; when no two views share an image, view i shows what that run left and every other view keeps what it showed; view i is repainted once exactly when the run completed and it has RT data |
| ToolProps.CanvasRunsSplit | weasis-dicom/weasis-dicom-rt/src/main/java/org/weasis/dicom/rt/RtDisplayTool.java:122-124 | a runs followed by b runs are a + b runs, and a run that does not complete ends them all |
| ToolProps.CanvasRunsStop | weasis-dicom/weasis-dicom-rt/src/main/java/org/weasis/dicom/rt/RtDisplayTool.java:122-124 | once one updateCanvas run does not complete, further views change nothing |

## Left out

- Swing presentation is not modelled, because it does not change what is selected or drawn. This covers the button tool tip, the visibility of the combos and the tree, `expandTree`, icons, `changeToolWindowAnchor` and `initTree`'s checking mode.
- The combo boxes are modelled as their selected item alone. Their item lists, the selection Swing makes when items are added to an empty combo, and its refusal of an item that is not listed are left out.
- The ItemEvent filter of the combo listeners is not modelled. Each listener call stands for one selection of an item.
- `EventManager.getSelectedView2dContainer` is not modelled: the views are an input, and no container is an empty sequence.
- `changingViewContentEvent` is not modelled, because its only effect is to call `initTreeValues` with the selected pane.
- `RtSet` is not part of this model. Its construction, `reloadRtCase`, the contour map and `Contour.getGraphic` are parameters, and their results are opaque values. Each `Contour.getGraphic` call is taken to return a new graphic with no listeners; `OverlayProps.ResolveIdempotent` relies on this.
- Slices are matched by SOP instance UID, and isodose planes by their z coordinate. Both keys are opaque values; the double-to-float cast of the thickness and the exact comparison of doubles are not modelled.
- A `getDispSliceGeometry` that returns null is not modelled; every DICOM image has a geometry.
- The iteration order of the `HashMap`/`Set` values is not modelled. Structure sets, dose layers and combo items are sequences in that order. The checked paths are a sequence in the order they were checked, standing in for the checking library's set, whose order is not known.
- Selection.ContainsStructure, Selection.ContainsIsoDose, Overlay.AddStructureGraphics: a null ROI name, isodose label or RT ROI Interpreted Type is not modelled. In the Java code it throws a NullPointerException (RtDisplayTool.java:239, 249 and 352) and aborts `showGraphic` part-way; in the model those strings are never null.
- Related.HasText: recognises whitespace with the ASCII whitespace characters only, not every Unicode whitespace character.
- Overlay.ShowGraphic, Overlay.AddIsoDoseGraphics: a dose whose isodose map is null is not modelled; the model takes it as an empty map. In the Java code `dose.getIsoDoseSet().values()` at RtDisplayTool.java:287 throws a NullPointerException there, aborting the pass before the structure graphics and the repaint. `updateTree` null-checks the map (RtDisplayTool.java:477), so `ToolSpec.IsoDoseStep` matches the source.
- Null strings in series tags are modelled as `None`, and null list elements are not modelled.
- Tool.RtDisplayTool.SetTreeModel: the behaviour of the checking library on `tree.setModel` is unknown, so it is the constant `resetsChecking` and every contract holds for both values.
- Tool.RtDisplayTool.InitPathSelection: checking and unchecking fire no tree event in the model. The guard is modelled as a field, and TreeValueChanged is muted while it is set.
- Overlay.ViewCanvas: the repaint is modelled as a counter of repaint requests.
- The commented-out dose-volume histogram and dose-value code is not modelled, because it does not run.
- Views.ShowGraphicOnViews: requires that views showing different images have different presentation models, as the per-image tag gives.
- Tool.RtDisplayTool.TreeValueChanged: requires the same of its views.
- Tool.RtDisplayTool.UpdateViews: states each view's overlay only when no two views show the same image. When views share an image, a later run redraws that image with its own selection, and the model does not state which run's pass is left.
- Tool.RtDisplayTool.ActionPerformed: states each view's overlay under the same condition as Tool.RtDisplayTool.UpdateViews, for the same reason.
- Tool.RtDisplayTool.InitTreeValues: takes a non-null view. A missing series, explorer model or patient is the `None` context.

/**
  The display tool's state as values, and what each of its operations does
  to it: the checkbox tree (the children of the Structures and Isodoses
  branches and the checked paths), the selected items of the structure-set
  and plan combo boxes, whether the combo listeners are attached, and the
  RT case.

  A tree node is identified by a fresh id, as a Swing tree node is by its
  identity.  Whether the checking library clears its checked paths when the
  tree gets a new model is not visible from the tool: it is the parameter
  `resets`.
 */
module ToolSpec {
  import opened RtTypes
  import opened Selection
  import opened Related

  // ---------------------------------------------------------------------
  // The checkbox tree

  /** The children of the two branches, the checked paths, and the next fresh node id. */
  datatype TreeState = TreeState(structureNodes: seq<Node>, isoDoseNodes: seq<Node>, checked: seq<Path>, nextId: nat)

  /** Every node id in use is below nextId, no path is checked twice, children sit in their own branch. */
  ghost predicate TreeValid(t: TreeState)
  {
    NoDuplicates(t.checked)
    && (forall k :: 0 <= k < |t.structureNodes| ==>
          t.structureNodes[k].id < t.nextId && t.structureNodes[k].payload.StructureItem?)
    && (forall k :: 0 <= k < |t.isoDoseNodes| ==>
          t.isoDoseNodes[k].id < t.nextId && t.isoDoseNodes[k].payload.IsoDoseItem?)
    && (forall k :: 0 <= k < |t.checked| && t.checked[k].LeafPath? ==> t.checked[k].node.id < t.nextId)
  }

  function StructureItems(ls: seq<StructureLayer>): seq<Payload>
  {
    seq(|ls|, k requires 0 <= k < |ls| => StructureItem(ls[k]))
  }

  function IsoDoseItems(ls: seq<IsoDoseLayer>): seq<Payload>
  {
    seq(|ls|, k requires 0 <= k < |ls| => IsoDoseItem(ls[k]))
  }

  /** New tree nodes for the items, numbered from the first fresh id. */
  function NodesFor(first: nat, items: seq<Payload>): seq<Node>
  {
    seq(|items|, k requires 0 <= k < |items| => Node(first + k, items[k]))
  }

  function Children(t: TreeState, b: Branch): seq<Node>
  {
    if b == Structures then t.structureNodes else t.isoDoseNodes
  }

  function OtherBranch(b: Branch): Branch
  {
    if b == Structures then Isodoses else Structures
  }

  function WithChildren(t: TreeState, b: Branch, ns: seq<Node>): TreeState
  {
    if b == Structures then t.(structureNodes := ns) else t.(isoDoseNodes := ns)
  }

  /** tree.setModel with a fresh tree model over the same nodes. */
  function SetModel(t: TreeState, resets: bool): TreeState
  {
    if resets then t.(checked := []) else t
  }

  /** Rebuilding a branch: its children replaced by new, unchecked nodes; the branch checked. */
  function Rebuilt(t: TreeState, b: Branch, items: seq<Payload>): TreeState
  {
    WithChildren(t, b, NodesFor(t.nextId, items)).(checked := AddPath(t.checked, BranchPath(b)),
                                                   nextId := t.nextId + |items|)
  }

  /** The layers of a structure set, none for a selector the case does not know. */
  function LayersOf(rt: RtCase, sel: Selector): seq<StructureLayer>
  {
    match StructureSet(rt, sel)
    case Some(ls) => ls
    case None => []
  }

  /** The tree after an update, and whether the update ran to its end. */
  datatype TreeUpdate = TreeUpdate(tree: TreeState, completed: bool)

  /** The Isodoses part of updateTree for a plan selector: the branch cleared, then rebuilt
      from the plan's first dose; a plan the case does not know gives a NullPointerException. */
  function IsoDoseStep(t: TreeState, rt: RtCase, sel: Selector): TreeUpdate
  {
    var t1 := t.(isoDoseNodes := []);
    if sel !in rt.data.plans then TreeUpdate(t1, false)
    else
      match rt.data.plans[sel].firstDose
      case None => TreeUpdate(t1, true)
      case Some(d) => TreeUpdate(Rebuilt(t1, Isodoses, IsoDoseItems(d.isoDoseSet)), true)
  }

  /** updateTree(selS, selP): an absent selector leaves its branch alone. */
  function UpdatedTree(t: TreeState, resets: bool, rt: Option<RtCase>,
                       selS: Option<Selector>, selP: Option<Selector>): TreeUpdate
  {
    if rt.None? then
      TreeUpdate(SetModel(t.(structureNodes := [], isoDoseNodes := []), resets), true)
    else
      var t1 := SetModel(t, resets);
      var t2 := if selS.Some? then Rebuilt(t1, Structures, StructureItems(LayersOf(rt.value, selS.value))) else t1;
      if selP.None? then TreeUpdate(t2, true) else IsoDoseStep(t2, rt.value, selP.value)
  }

  // ---------------------------------------------------------------------
  // The whole tool

  /** The RT case, the combo selections, whether the combo listeners are attached, the tree. */
  datatype ToolState = ToolState(
    rtSet: Option<RtCase>,
    structureCombo: Option<Selector>,
    planCombo: Option<Selector>,
    listening: bool,
    tree: TreeState)

  datatype Outcome = Outcome(state: ToolState, completed: bool)

  /** Is the selector present and a key of the case's inventory? (Set.contains(null) is false.) */
  predicate Known<V>(sel: Option<Selector>, inventory: map<Selector, V>)
  {
    sel.Some? && sel.value in inventory
  }

  /** The second half of updateCanvas: the plan combo, then the listeners attached again. */
  function CanvasPlanStep(s: ToolState, resets: bool, rt: RtCase, oldS: Option<Selector>,
                          oldP: Option<Selector>): Outcome
  {
    if !Known(oldP, rt.data.plans) || s.tree.isoDoseNodes == [] then
      var u := UpdatedTree(s.tree, resets, Some(rt), oldS, rt.data.firstPlanKey);
      var s1 := s.(planCombo := rt.data.firstPlanKey, tree := u.tree);
      if u.completed then Outcome(s1.(listening := true), true) else Outcome(s1, false)
    else
      Outcome(s.(planCombo := oldP, listening := true), true)
  }

  /** The first half of updateCanvas: the structure-set combo; a stale or missing selection
      falls back to the case's first structure set, rebuilt with the old plan selection. */
  function CanvasStructureStep(s: ToolState, resets: bool, rt: RtCase): Outcome
  {
    if !Known(s.structureCombo, rt.data.structures) then
      var u := UpdatedTree(s.tree, resets, Some(rt), rt.data.firstStructure, s.planCombo);
      Outcome(s.(structureCombo := rt.data.firstStructure, tree := u.tree), u.completed)
    else
      Outcome(s, true)
  }

  /** updateCanvas without its final showGraphic: refresh the combos and the tree. */
  function UpdatedCanvas(s: ToolState, resets: bool): Outcome
  {
    if s.rtSet.None? then
      Outcome(s.(tree := SetModel(s.tree.(structureNodes := [], isoDoseNodes := []), resets)), true)
    else
      var o := CanvasStructureStep(s.(listening := false), resets, s.rtSet.value);
      if o.completed then CanvasPlanStep(o.state, resets, s.rtSet.value, s.structureCombo, s.planCombo) else o
  }

  /** One updateCanvas per view, stopping at the first that does not complete. */
  function CanvasRuns(s: ToolState, resets: bool, n: nat): Outcome
    decreases n
  {
    if n == 0 then Outcome(s, true)
    else
      var o := UpdatedCanvas(s, resets);
      if o.completed then CanvasRuns(o.state, resets, n - 1) else o
  }

  /** The case initTreeValues keeps: a new one, built from the related elements, only
      when the list is non-empty and differs from the current case's elements. */
  function NextCase(current: Option<RtCase>, list: seq<Element>, derive: seq<Element> -> RtData): Option<RtCase>
  {
    if |list| > 0 && (current.None? || current.value.elements != list)
    then Some(RtCase(list, derive(list)))
    else current
  }

  /** A case whose first structure set and first plan are in its own inventory. */
  predicate CoherentCase(rt: RtCase)
  {
    (rt.data.firstStructure.Some? ==> rt.data.firstStructure.value in rt.data.structures)
    && (rt.data.firstPlanKey.Some? ==> rt.data.firstPlanKey.value in rt.data.plans)
  }
}

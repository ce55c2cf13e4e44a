/**
  The RT display tool panel (RtDisplayTool): the RT case of the selected
  view, the checkbox tree of structures and isodoses, the structure-set and
  plan combo boxes and the "Load RT" button.  Each method is tied to the
  value-level function of ToolSpec that says what it does to the tool's
  state.

  The views of the selected container are an input sequence; building an
  RT case from its elements and reloading it are the parameters `derive`
  and `reloaded`.
 */
module Tool {
  import opened RtTypes
  import opened Selection
  import opened Overlay
  import opened Views
  import opened Related
  import opened ToolSpec
  import opened ToolProps

  /** What initTreeValues reads from the selected view's series: the series' frame of
      reference UID and the studies of its patient; None when one of the lookups is null. */
  datatype SeriesContext = SeriesContext(frameRef: Option<string>, studies: seq<seq<SeriesInfo>>)

  /** What one updateCanvas run with outcome o leaves on v: one showGraphic pass of the
      selections of o's tree when the run completed and v has RT data, else v as it was. */
  ghost predicate RunShown(v: ViewCanvas, m0: GraphicModel?, g0: seq<Graphic>, l0: seq<Listener>, o: Outcome,
                           project: (ContourGeom, Geometry) -> Option<Shape>)
    reads v, v.image, ModelOf(v)
  {
    if o.completed && Acts(o.state.rtSet, v) then
      Resolves(v, m0, g0, l0, o.state.rtSet.value, StructureSelection(o.state.tree.checked),
               IsoDoseSelection(o.state.tree.checked), project)
    else
      Keeps(v, m0, g0, l0)
  }

  /** Does a run with outcome o repaint a view showing img: it completed and img has RT data? */
  predicate RunActs(o: Outcome, img: ImageElement?)
  {
    o.completed && o.state.rtSet.Some? && ActsOn(o.state.rtSet.value, img)
  }

  /** The repaint counts after the first i runs, for views that share no image: view k was
      repainted once by its own run, the (k + 1)-th, if that run acts on it, and not otherwise. */
  ghost predicate RunsRepainted(views: seq<ViewCanvas>, i: int, img0: seq<ImageElement?>, r0: seq<nat>,
                                runs: seq<Outcome>)
    requires |img0| == |r0| == |views| && |runs| == |views| + 1
    reads set v | v in views
  {
    forall k :: 0 <= k < |views| ==>
      views[k].repaints == r0[k] + (if k < i && RunActs(runs[k + 1], img0[k]) then 1 else 0)
  }

  /** runs[k] is where the first k updateCanvas runs from s0 end. */
  ghost predicate RunsFrom(runs: seq<Outcome>, s0: ToolState, resets: bool)
  {
    forall k: nat {:trigger CanvasRuns(s0, resets, k)} :: k < |runs| ==> runs[k] == CanvasRuns(s0, resets, k)
  }

  /** The views after the first i runs, for views that share no image: view k shows what its
      own run, the (k + 1)-th, left, and the views not reached yet are as they were. */
  ghost predicate RunsProgress(views: seq<ViewCanvas>, i: int, img0: seq<ImageElement?>, m0: seq<GraphicModel?>,
                               g0: seq<seq<Graphic>>, l0: seq<seq<Listener>>, runs: seq<Outcome>,
                               project: (ContourGeom, Geometry) -> Option<Shape>)
    requires |img0| == |m0| == |g0| == |l0| == |views| && |runs| == |views| + 1
    reads set v | v in views
    reads set v | v in views && v.image != null :: v.image
    reads set v | v in views && ModelOf(v) != null :: ModelOf(v)
  {
    (forall k :: 0 <= k < |views| ==> views[k].image == img0[k])
    && SeparateImages(views) && DistinctModels(views)
    && (forall k :: 0 <= k < i && k < |views| ==> RunShown(views[k], m0[k], g0[k], l0[k], runs[k + 1], project))
    && (forall k :: 0 <= i <= k < |views| ==> Keeps(views[k], m0[k], g0[k], l0[k]))
  }

  /** Before the first run every view is as its snapshot says. */
  lemma RunsStart(views: seq<ViewCanvas>, img0: seq<ImageElement?>, m0: seq<GraphicModel?>,
                  g0: seq<seq<Graphic>>, l0: seq<seq<Listener>>, r0: seq<nat>, runs: seq<Outcome>,
                  project: (ContourGeom, Geometry) -> Option<Shape>)
    requires |img0| == |m0| == |g0| == |l0| == |r0| == |views| && |runs| == |views| + 1
    requires SeparateImages(views) && DistinctModels(views)
    requires forall k :: 0 <= k < |views| ==>
      views[k].image == img0[k] && ModelOf(views[k]) == m0[k]
      && g0[k] == PriorGraphics(views[k]) && l0[k] == PriorListeners(views[k]) && r0[k] == views[k].repaints
    ensures RunsProgress(views, 0, img0, m0, g0, l0, runs, project)
    ensures RunsRepainted(views, 0, img0, r0, runs)
  {
  }

  /** After a run that does not complete, the later runs all end there: the views not reached
      keep what they showed, which is what those runs say of them. */
  lemma RunsEnded(views: seq<ViewCanvas>, i: nat, img0: seq<ImageElement?>, m0: seq<GraphicModel?>,
                  g0: seq<seq<Graphic>>, l0: seq<seq<Listener>>, r0: seq<nat>, runs: seq<Outcome>,
                  s0: ToolState, resets: bool, sep: bool, s: ToolState,
                  project: (ContourGeom, Geometry) -> Option<Shape>)
    requires |img0| == |m0| == |g0| == |l0| == |r0| == |views| && |runs| == |views| + 1 && i < |views|
    requires RunsFrom(runs, s0, resets) && runs[i + 1] == Outcome(s, false)
    requires sep ==> RunsProgress(views, i + 1, img0, m0, g0, l0, runs, project)
    requires sep ==> RunsRepainted(views, i + 1, img0, r0, runs)
    ensures runs[|views|] == Outcome(s, false)
    ensures sep ==> RunsProgress(views, |views|, img0, m0, g0, l0, runs, project)
    ensures sep ==> RunsRepainted(views, |views|, img0, r0, runs)
  {
    assert runs[i + 1] == CanvasRuns(s0, resets, i + 1);
    assert runs[|views|] == CanvasRuns(s0, resets, |views|);
    CanvasRunsStop(s0, resets, i + 1, |views|);
    forall k | i + 1 <= k < |views|
      ensures RunShown(views[k], m0[k], g0[k], l0[k], runs[k + 1], project) == Keeps(views[k], m0[k], g0[k], l0[k])
      ensures !RunActs(runs[k + 1], img0[k])
    {
      assert runs[k + 1] == CanvasRuns(s0, resets, k + 1);
      CanvasRunsStop(s0, resets, i + 1, k + 1);
    }
  }

  class RtDisplayTool {
    /** Does the checking library clear its checked paths when the tree gets a new model? */
    const resetsChecking: bool

    var rtSet: Option<RtCase>
    /** The selected items of comboRtStructureSet and comboRtPlan. */
    var structureCombo: Option<Selector>
    var planCombo: Option<Selector>
    /** Are structureChangeListener and planChangeListener attached to the combos? */
    var comboListening: bool
    /** Is the load button enabled? */
    var loadEnabled: bool
    /** The guard that mutes treeValueChanged while updateTree checks and unchecks paths. */
    var initPathSelection: bool

    var structureNodes: seq<Node>
    var isoDoseNodes: seq<Node>
    var checked: seq<Path>
    var nextId: nat

    function Tree(): TreeState
      reads this
    {
      TreeState(structureNodes, isoDoseNodes, checked, nextId)
    }

    function State(): ToolState
      reads this
    {
      ToolState(rtSet, structureCombo, planCombo, comboListening, Tree())
    }

    ghost predicate Valid()
      reads this
    {
      TreeValid(Tree())
    }

    /** The constructor and initTree: an empty tree whose root path is checked; the combo
        listeners are attached only by the first updateCanvas that completes. */
    constructor (resetsChecking: bool)
      ensures Valid() && this.resetsChecking == resetsChecking
      ensures rtSet.None? && structureCombo.None? && planCombo.None?
      ensures !comboListening && loadEnabled && !initPathSelection
      ensures structureNodes == [] && isoDoseNodes == [] && checked == [RootPath]
    {
      this.resetsChecking := resetsChecking;
      rtSet := None;
      structureCombo := None;
      planCombo := None;
      comboListening := false;
      loadEnabled := true;
      initPathSelection := false;
      structureNodes := [];
      isoDoseNodes := [];
      nextId := 0;
      checked := AddPath([], RootPath);
    }

    /** initPathSelection(path, selected): check or uncheck one path. */
    method InitPathSelection(p: Path, selected: bool)
      modifies this
      ensures checked == (if selected then AddPath(old(checked), p) else RemovePath(old(checked), p))
      ensures Tree() == old(Tree()).(checked := checked) && State() == old(State()).(tree := Tree())
      ensures loadEnabled == old(loadEnabled) && initPathSelection == old(initPathSelection)
    {
      if selected {
        checked := AddPath(checked, p);
      } else {
        checked := RemovePath(checked, p);
      }
    }

    /** getStructureSelection: the structure layers of the checked leaves, in the order of
        the checked paths, when the Structures branch is checked. */
    method GetStructureSelection() returns (list: seq<StructureLayer>)
      ensures list == StructureSelection(checked)
    {
      list := [];
      if BranchPath(Structures) !in checked {
        return;
      }
      var paths := checked;
      for k := 0 to |paths|
        invariant list == StructureLeaves(paths[..k])
      {
        var p := paths[k];
        if p.LeafPath? && p.node.payload.StructureItem? {
          list := list + [p.node.payload.s];
        }
        assert paths[..k + 1][..k] == paths[..k];
      }
      assert paths[..|paths|] == paths;
    }

    /** getIsoDoseSelection: the isodose layers of the checked leaves, when Isodoses is checked. */
    method GetIsoDoseSelection() returns (list: seq<IsoDoseLayer>)
      ensures list == IsoDoseSelection(checked)
    {
      list := [];
      if BranchPath(Isodoses) !in checked {
        return;
      }
      var paths := checked;
      for k := 0 to |paths|
        invariant list == IsoDoseLeaves(paths[..k])
      {
        var p := paths[k];
        if p.LeafPath? && p.node.payload.IsoDoseItem? {
          list := list + [p.node.payload.i];
        }
        assert paths[..k + 1][..k] == paths[..k];
      }
      assert paths[..|paths|] == paths;
    }

    /** tree.setModel(new DefaultTreeModel(rootNode)). */
    method SetTreeModel()
      modifies this
      ensures Tree() == SetModel(old(Tree()), resetsChecking)
      ensures State() == old(State()).(tree := Tree())
      ensures loadEnabled == old(loadEnabled) && initPathSelection == old(initPathSelection)
    {
      if resetsChecking {
        checked := [];
      }
    }

    /** One branch of updateTree: remove the children, add a node per item (unchecking
        each), check the branch, then uncheck every child. */
    method RebuildBranch(b: Branch, items: seq<Payload>)
      requires Valid()
      modifies this
      ensures Tree() == Rebuilt(old(Tree()), b, items)
      ensures State() == old(State()).(tree := Tree())
      ensures loadEnabled == old(loadEnabled) && initPathSelection == old(initPathSelection)
    {
      ghost var t0 := Tree();
      AddLeaves(b, items);
      InitPathSelection(BranchPath(b), true);
      var children := Children(Tree(), b);
      forall k | 0 <= k < |children|
        ensures LeafPath(children[k]) !in checked
      {
        FreshLeafUnchecked(t0, children[k]);
      }
      RemoveLeavesAbsent(checked, children);
      UncheckLeaves(b);
    }

    /** The first half of a branch rebuild: the children removed, then one new node per
        item added and unchecked. */
    method AddLeaves(b: Branch, items: seq<Payload>)
      requires Valid()
      modifies this
      ensures Tree() == WithChildren(old(Tree()), b, NodesFor(old(nextId), items)).(nextId := old(nextId) + |items|)
      ensures State() == old(State()).(tree := Tree())
      ensures loadEnabled == old(loadEnabled) && initPathSelection == old(initPathSelection)
    {
      ghost var t0 := Tree();
      var first := nextId;
      if b == Structures {
        structureNodes := [];
      } else {
        isoDoseNodes := [];
      }
      for k := 0 to |items|
        invariant Tree() == WithChildren(t0, b, NodesFor(first, items[..k])).(nextId := first + k)
        invariant State() == old(State()).(tree := Tree())
        invariant loadEnabled == old(loadEnabled) && initPathSelection == old(initPathSelection)
      {
        FreshLeafUnchecked(t0, Node(nextId, items[k]));
        AddLeaf(b, items[k]);
        assert NodesFor(first, items[..k + 1]) == NodesFor(first, items[..k]) + [Node(first + k, items[k])];
      }
      assert items[..|items|] == items;
    }

    /** One iteration of that loop: a new node for the item appended to the branch, then unchecked. */
    method AddLeaf(b: Branch, item: Payload)
      requires LeafPath(Node(nextId, item)) !in checked
      modifies this
      ensures Tree() == WithChildren(old(Tree()), b, Children(old(Tree()), b) + [Node(old(nextId), item)])
                          .(nextId := old(nextId) + 1)
      ensures State() == old(State()).(tree := Tree())
      ensures loadEnabled == old(loadEnabled) && initPathSelection == old(initPathSelection)
    {
      var node := Node(nextId, item);
      nextId := nextId + 1;
      if b == Structures {
        structureNodes := structureNodes + [node];
      } else {
        isoDoseNodes := isoDoseNodes + [node];
      }
      InitPathSelection(LeafPath(node), false);
    }

    /** The last loop of a branch rebuild: every child of the branch unchecked, in order. */
    method UncheckLeaves(b: Branch)
      modifies this
      ensures checked == RemoveLeaves(old(checked), Children(old(Tree()), b))
      ensures Tree() == old(Tree()).(checked := checked) && State() == old(State()).(tree := Tree())
      ensures loadEnabled == old(loadEnabled) && initPathSelection == old(initPathSelection)
    {
      var children := Children(Tree(), b);
      ghost var goal := RemoveLeaves(checked, children);
      for k := 0 to |children|
        invariant RemoveLeaves(checked, children[k..]) == goal
        invariant structureNodes == old(structureNodes) && isoDoseNodes == old(isoDoseNodes) && nextId == old(nextId)
        invariant rtSet == old(rtSet) && structureCombo == old(structureCombo) && planCombo == old(planCombo)
        invariant comboListening == old(comboListening)
        invariant loadEnabled == old(loadEnabled) && initPathSelection == old(initPathSelection)
      {
        assert children[k..][1..] == children[k + 1..];
        assert RemoveLeaves(checked, children[k..])
            == RemoveLeaves(RemovePath(checked, LeafPath(children[k])), children[k + 1..]);
        InitPathSelection(LeafPath(children[k]), false);
      }
      assert children[|children|..] == [];
    }

    /** updateTree(selectedStructure, selectedPlan): without a case both branches are emptied;
        otherwise, with treeValueChanged muted, each given selector rebuilds its branch. A plan
        the case does not know stops the update (a NullPointerException) once its branch is
        cleared; the guard is lowered on every way out. */
    method UpdateTree(selS: Option<Selector>, selP: Option<Selector>) returns (completed: bool)
      requires Valid()
      modifies this
      ensures Valid()
      ensures TreeUpdate(Tree(), completed) == UpdatedTree(old(Tree()), resetsChecking, rtSet, selS, selP)
      ensures State() == old(State()).(tree := Tree())
      ensures loadEnabled == old(loadEnabled)
      ensures initPathSelection == (old(initPathSelection) && rtSet.None?)
    {
      if rtSet.None? {
        structureNodes := [];
        isoDoseNodes := [];
        SetTreeModel();
        return true;
      }
      ghost var t0 := Tree();
      UpdatedTreeValid(t0, resetsChecking, rtSet, selS, selP);
      initPathSelection := true;
      SetTreeModel();
      if selS.Some? {
        RebuildStructures(rtSet.value, selS.value);
      }
      completed := true;
      if selP.Some? {
        completed := RebuildIsoDoses(rtSet.value, selP.value);
      }
      initPathSelection := false;
    }

    /** The Structures part of updateTree: the layers of the selected set (none for an unknown one). */
    method RebuildStructures(rt: RtCase, sel: Selector)
      requires Valid()
      modifies this
      ensures Valid()
      ensures Tree() == Rebuilt(old(Tree()), Structures, StructureItems(LayersOf(rt, sel)))
      ensures State() == old(State()).(tree := Tree())
      ensures loadEnabled == old(loadEnabled) && initPathSelection == old(initPathSelection)
    {
      var layers: seq<StructureLayer> := [];
      var structures := StructureSet(rt, sel);
      if structures.Some? {
        layers := structures.value;
      }
      RebuiltValid(Tree(), Structures, StructureItems(layers));
      RebuildBranch(Structures, StructureItems(layers));
    }

    /** The Isodoses part of updateTree. */
    method RebuildIsoDoses(rt: RtCase, sel: Selector) returns (completed: bool)
      requires Valid()
      modifies this
      ensures TreeUpdate(Tree(), completed) == IsoDoseStep(old(Tree()), rt, sel)
      ensures State() == old(State()).(tree := Tree())
      ensures loadEnabled == old(loadEnabled) && initPathSelection == old(initPathSelection)
    {
      isoDoseNodes := [];
      if sel !in rt.data.plans {
        return false;
      }
      var dose := rt.data.plans[sel].firstDose;
      if dose.Some? {
        RebuildBranch(Isodoses, IsoDoseItems(dose.value.isoDoseSet));
      }
      return true;
    }

    /** structureChangeListener: the user picks a structure set; the Structures branch is
        rebuilt from it when the listener is attached. */
    method SelectStructureSet(item: Selector) returns (completed: bool)
      requires Valid()
      modifies this
      ensures Valid()
      ensures comboListening ==>
        TreeUpdate(Tree(), completed) == UpdatedTree(old(Tree()), resetsChecking, rtSet, Some(item), None)
      ensures !comboListening ==> Tree() == old(Tree()) && completed
      ensures State() == old(State()).(structureCombo := Some(item), tree := Tree())
      ensures loadEnabled == old(loadEnabled)
      ensures initPathSelection ==> old(initPathSelection)
    {
      structureCombo := Some(item);
      completed := true;
      if comboListening {
        completed := UpdateTree(Some(item), None);
      }
    }

    /** planChangeListener: the user picks a plan; the Isodoses branch is rebuilt from its
        first dose when the listener is attached. */
    method SelectPlan(item: Selector) returns (completed: bool)
      requires Valid()
      modifies this
      ensures Valid()
      ensures comboListening ==>
        TreeUpdate(Tree(), completed) == UpdatedTree(old(Tree()), resetsChecking, rtSet, None, Some(item))
      ensures !comboListening ==> Tree() == old(Tree()) && completed
      ensures State() == old(State()).(planCombo := Some(item), tree := Tree())
      ensures loadEnabled == old(loadEnabled)
      ensures initPathSelection ==> old(initPathSelection)
    {
      planCombo := Some(item);
      completed := true;
      if comboListening {
        completed := UpdateTree(None, Some(item));
      }
    }

    /** treeValueChanged: unless muted, a checking change below Structures or Isodoses
        redraws the RT graphics of every view from the current selections. */
    method TreeValueChanged(p: Path, views: seq<ViewCanvas>, project: (ContourGeom, Geometry) -> Option<Shape>)
      requires DistinctModels(views)
      modifies ViewsFrame(views)
      ensures forall k :: 0 <= k < |views| ==> views[k].image == old(views[k].image)
      ensures DistinctModels(views)
      ensures forall k :: 0 <= k < |views| ==>
        if !initPathSelection && rtSet.Some? && p != RootPath && old(Acts(rtSet, views[k])) then
          Resolves(views[k], old(ModelOf(views[k])), old(PriorGraphics(views[k])), old(PriorListeners(views[k])),
                   rtSet.value, StructureSelection(checked), IsoDoseSelection(checked), project)
        else
          Keeps(views[k], old(ModelOf(views[k])), old(PriorGraphics(views[k])), old(PriorListeners(views[k])))
      ensures forall k :: 0 <= k < |views| ==>
        views[k].repaints == old(views[k].repaints)
          + (if !initPathSelection && rtSet.Some? && p != RootPath && old(Acts(rtSet, views[k]))
             then multiset(views)[views[k]] else 0)
    {
      assert this !in ViewsFrame(views);
      if !initPathSelection {
        var rt := rtSet;
        if rt.Some? && p != RootPath {
          var selS := GetStructureSelection();
          var selI := GetIsoDoseSelection();
          ShowGraphicOnViews(rt.value, selS, selI, views, project);
          assert rtSet == rt && selS == StructureSelection(checked) && selI == IsoDoseSelection(checked);
        }
      }
    }

    /** updateCanvas(view): refresh the combos and the tree for the current case with the
        combo listeners detached, then draw the view's RT graphics from the selections. */
    method UpdateCanvas(v: ViewCanvas, project: (ContourGeom, Geometry) -> Option<Shape>) returns (completed: bool)
      requires Valid()
      modifies this, v, v.image, ModelOf(v)
      ensures Valid()
      ensures Outcome(State(), completed) == UpdatedCanvas(old(State()), resetsChecking)
      ensures loadEnabled == old(loadEnabled)
      ensures initPathSelection ==> old(initPathSelection)
      ensures v.image == old(v.image)
      ensures if completed && Acts(rtSet, v) then
          Resolves(v, old(ModelOf(v)), old(PriorGraphics(v)), old(PriorListeners(v)),
                   rtSet.value, StructureSelection(checked), IsoDoseSelection(checked), project)
        else
          Keeps(v, old(ModelOf(v)), old(PriorGraphics(v)), old(PriorListeners(v)))
      ensures v.repaints == old(v.repaints) + (if completed && Acts(rtSet, v) then 1 else 0)
      ensures ModelOf(v) == old(ModelOf(v)) || (old(ModelOf(v)) == null && fresh(ModelOf(v)))
    {
      CanvasValid(State(), resetsChecking);
      var rt := rtSet;
      if rt.None? {
        structureNodes := [];
        isoDoseNodes := [];
        SetTreeModel();
        return true;
      }
      completed := RefreshSelectors(rt.value);
      if !completed {
        return;
      }
      Draw(rt.value, v, project);
    }

    /** The last step of updateCanvas: showGraphic on the view with the current selections. */
    method Draw(rt: RtCase, v: ViewCanvas, project: (ContourGeom, Geometry) -> Option<Shape>)
      modifies v, v.image, ModelOf(v)
      ensures v.image == old(v.image)
      ensures if old(Acts(Some(rt), v)) then
          Resolves(v, old(ModelOf(v)), old(PriorGraphics(v)), old(PriorListeners(v)),
                   rt, StructureSelection(checked), IsoDoseSelection(checked), project)
        else
          Keeps(v, old(ModelOf(v)), old(PriorGraphics(v)), old(PriorListeners(v)))
      ensures v.repaints == old(v.repaints) + (if old(Acts(Some(rt), v)) then 1 else 0)
      ensures ModelOf(v) == old(ModelOf(v)) || (old(ModelOf(v)) == null && fresh(ModelOf(v)))
    {
      var selS := GetStructureSelection();
      var selI := GetIsoDoseSelection();
      ShowGraphic(Some(rt), selS, selI, v, project);
    }

    /** The combo and tree part of updateCanvas for a present case. */
    method RefreshSelectors(rt: RtCase) returns (completed: bool)
      requires Valid() && rtSet == Some(rt)
      modifies this
      ensures Valid()
      ensures Outcome(State(), completed) == UpdatedCanvas(old(State()), resetsChecking)
      ensures loadEnabled == old(loadEnabled)
      ensures initPathSelection ==> old(initPathSelection)
    {
      var oldStructure := structureCombo;
      var oldPlan := planCombo;
      comboListening := false;
      completed := RefreshStructureCombo(rt);
      if completed {
        completed := RefreshPlanCombo(rt, oldStructure, oldPlan);
      }
    }

    /** The structure-set combo of updateCanvas. */
    method RefreshStructureCombo(rt: RtCase) returns (completed: bool)
      requires Valid() && rtSet == Some(rt)
      modifies this
      ensures Valid()
      ensures Outcome(State(), completed) == CanvasStructureStep(old(State()), resetsChecking, rt)
      ensures loadEnabled == old(loadEnabled)
      ensures initPathSelection ==> old(initPathSelection)
    {
      completed := true;
      if !(structureCombo.Some? && structureCombo.value in rt.data.structures) {
        structureCombo := rt.data.firstStructure;
        completed := UpdateTree(rt.data.firstStructure, planCombo);
      }
    }

    /** The plan combo of updateCanvas, then the combo listeners attached again. */
    method RefreshPlanCombo(rt: RtCase, oldStructure: Option<Selector>, oldPlan: Option<Selector>)
      returns (completed: bool)
      requires Valid() && rtSet == Some(rt)
      modifies this
      ensures Valid()
      ensures Outcome(State(), completed) == CanvasPlanStep(old(State()), resetsChecking, rt, oldStructure, oldPlan)
      ensures loadEnabled == old(loadEnabled)
      ensures initPathSelection ==> old(initPathSelection)
    {
      if !(oldPlan.Some? && oldPlan.value in rt.data.plans) || isoDoseNodes == [] {
        planCombo := rt.data.firstPlanKey;
        completed := UpdateTree(oldStructure, rt.data.firstPlanKey);
        if !completed {
          return;
        }
      } else {
        planCombo := oldPlan;
      }
      comboListening := true;
      completed := true;
    }

    /** initTreeValues(view): collect the elements related to the view's series, keep a new
        case built from them when they differ from the current one (enabling the load button),
        then update the view.  ctx is None when the view, its series, its DICOM model or its
        patient is missing. */
    method InitTreeValues(ctx: Option<SeriesContext>, v: ViewCanvas, derive: seq<Element> -> RtData,
                          project: (ContourGeom, Geometry) -> Option<Shape>) returns (completed: bool)
      requires Valid()
      modifies this, v, v.image, ModelOf(v)
      ensures Valid()
      ensures v.image == old(v.image)
      ensures ctx.None? ==>
        completed && State() == old(State()) && loadEnabled == old(loadEnabled)
        && initPathSelection == old(initPathSelection)
        && Keeps(v, old(ModelOf(v)), old(PriorGraphics(v)), old(PriorListeners(v))) && v.repaints == old(v.repaints)
      ensures ctx.Some? ==>
        var c := NextCase(old(rtSet), RelatedElements(ctx.value.frameRef, ctx.value.studies), derive);
        Outcome(State(), completed) == UpdatedCanvas(old(State()).(rtSet := c), resetsChecking)
        && loadEnabled == (old(loadEnabled) || c != old(rtSet))
      ensures ctx.Some? ==>
        if completed && Acts(rtSet, v) then
          Resolves(v, old(ModelOf(v)), old(PriorGraphics(v)), old(PriorListeners(v)),
                   rtSet.value, StructureSelection(checked), IsoDoseSelection(checked), project)
        else
          Keeps(v, old(ModelOf(v)), old(PriorGraphics(v)), old(PriorListeners(v)))
      ensures ctx.Some? ==> v.repaints == old(v.repaints) + (if completed && Acts(rtSet, v) then 1 else 0)
      ensures initPathSelection ==> old(initPathSelection)
    {
      if ctx.None? {
        return true;
      }
      var list := GetRelatedSpecialElements(ctx.value.frameRef, ctx.value.studies);
      if |list| > 0 && (rtSet.None? || rtSet.value.elements != list) {
        rtSet := Some(RtCase(list, derive(list)));
        loadEnabled := true;
      }
      completed := UpdateCanvas(v, project);
    }

    /** actionPerformed: "Load RT" reloads the case's data, disables the load button and
        updates every view of the selected container, stopping at the first update that
        does not complete.  Without a case the reload dereferences null. */
    method ActionPerformed(command: string, views: seq<ViewCanvas>, reloaded: RtData,
                           project: (ContourGeom, Geometry) -> Option<Shape>) returns (completed: bool)
      requires Valid()
      modifies this, ViewsFrame(views)
      ensures Valid()
      ensures forall k :: 0 <= k < |views| ==> views[k].image == old(views[k].image)
      ensures command != "Load RT" ==> completed && State() == old(State()) && loadEnabled == old(loadEnabled)
      ensures command == "Load RT" && old(rtSet).None? ==>
        !completed && State() == old(State()) && loadEnabled == old(loadEnabled)
      ensures (command != "Load RT" || old(rtSet).None?) ==> initPathSelection == old(initPathSelection)
      ensures initPathSelection ==> old(initPathSelection)
      ensures (command != "Load RT" || old(rtSet).None?) ==> unchanged(old(ViewsFrame(views)))
      ensures command == "Load RT" && old(rtSet).Some? ==>
        !loadEnabled
        && Outcome(State(), completed)
           == CanvasRuns(old(State()).(rtSet := Some(RtCase(old(rtSet).value.elements, reloaded))), resetsChecking, |views|)
      ensures command == "Load RT" && old(rtSet).Some? && old(SeparateImages(views) && DistinctModels(views)) ==>
        forall k :: 0 <= k < |views| ==>
          RunShown(views[k], old(ModelOf(views[k])), old(PriorGraphics(views[k])), old(PriorListeners(views[k])),
                   CanvasRuns(old(State()).(rtSet := Some(RtCase(old(rtSet).value.elements, reloaded))), resetsChecking, k + 1),
                   project)
          && views[k].repaints
             == old(views[k].repaints)
                + (if RunActs(CanvasRuns(old(State()).(rtSet := Some(RtCase(old(rtSet).value.elements, reloaded))),
                                         resetsChecking, k + 1), views[k].image) then 1 else 0)
    {
      if command != "Load RT" {
        return true;
      }
      if rtSet.None? {
        return false;
      }
      rtSet := Some(RtCase(rtSet.value.elements, reloaded));
      loadEnabled := false;
      completed := UpdateViews(views, project);
    }

    /** One iteration of the loop of actionPerformed: updateCanvas on view i, the (i + 1)-th
        run, and where the runs end when it does not complete. */
    method UpdateViewStep(views: seq<ViewCanvas>, i: int, ghost img0: seq<ImageElement?>, ghost m0: seq<GraphicModel?>,
                          ghost g0: seq<seq<Graphic>>, ghost l0: seq<seq<Listener>>, ghost r0: seq<nat>,
                          ghost runs: seq<Outcome>, ghost s0: ToolState, ghost sep: bool,
                          project: (ContourGeom, Geometry) -> Option<Shape>)
      returns (completed: bool)
      requires Valid() && 0 <= i < |views| && |img0| == |r0| == |views| && Coherent(img0, m0, g0, l0)
      requires |runs| == |views| + 1 && RunsFrom(runs, s0, resetsChecking) && runs[i] == Outcome(State(), true)
      requires forall k :: 0 <= k < |views| ==> views[k].image == img0[k]
      requires sep ==> RunsProgress(views, i, img0, m0, g0, l0, runs, project)
      requires sep ==> RunsRepainted(views, i, img0, r0, runs)
      modifies this, views[i], views[i].image, ModelOf(views[i])
      ensures Valid()
      ensures runs[i + 1] == Outcome(State(), completed)
      ensures loadEnabled == old(loadEnabled)
      ensures initPathSelection ==> old(initPathSelection)
      ensures forall k :: 0 <= k < |views| ==> views[k].image == img0[k]
      ensures forall k :: 0 <= k < |views| ==>
        ModelOf(views[k]) == old(ModelOf(views[k]))
        || (old(ModelOf(views[k])) == null && ModelOf(views[k]) != null && fresh(ModelOf(views[k])))
      ensures sep ==> RunsProgress(views, i + 1, img0, m0, g0, l0, runs, project)
      ensures sep ==> RunsRepainted(views, i + 1, img0, r0, runs)
      ensures !completed ==> runs[|views|] == Outcome(State(), false)
      ensures !completed && sep ==>
        RunsProgress(views, |views|, img0, m0, g0, l0, runs, project) && RunsRepainted(views, |views|, img0, r0, runs)
    {
      assert runs[i] == CanvasRuns(s0, resetsChecking, i);
      assert runs[i + 1] == CanvasRuns(s0, resetsChecking, i + 1);
      CanvasRunsNext(s0, resetsChecking, i, State());
      completed := RunOnView(views, i, img0, m0, g0, l0, r0, runs, sep, project);
      if !completed {
        RunsEnded(views, i, img0, m0, g0, l0, r0, runs, s0, resetsChecking, sep, State(), project);
      }
    }

    /** updateCanvas on view i, whose outcome is already known to be the (i + 1)-th run's. */
    method RunOnView(views: seq<ViewCanvas>, i: int, ghost img0: seq<ImageElement?>, ghost m0: seq<GraphicModel?>,
                     ghost g0: seq<seq<Graphic>>, ghost l0: seq<seq<Listener>>, ghost r0: seq<nat>,
                     ghost runs: seq<Outcome>, ghost sep: bool, project: (ContourGeom, Geometry) -> Option<Shape>)
      returns (completed: bool)
      requires Valid() && 0 <= i < |views| && |img0| == |r0| == |views| && Coherent(img0, m0, g0, l0)
      requires |runs| == |views| + 1 && runs[i + 1] == UpdatedCanvas(State(), resetsChecking)
      requires forall k :: 0 <= k < |views| ==> views[k].image == img0[k]
      requires sep ==> RunsProgress(views, i, img0, m0, g0, l0, runs, project) && RunsRepainted(views, i, img0, r0, runs)
      modifies this, views[i], views[i].image, ModelOf(views[i])
      ensures Valid()
      ensures runs[i + 1] == Outcome(State(), completed)
      ensures loadEnabled == old(loadEnabled)
      ensures initPathSelection ==> old(initPathSelection)
      ensures forall k :: 0 <= k < |views| ==> views[k].image == img0[k]
      ensures forall k :: 0 <= k < |views| ==>
        ModelOf(views[k]) == old(ModelOf(views[k]))
        || (old(ModelOf(views[k])) == null && ModelOf(views[k]) != null && fresh(ModelOf(views[k])))
      ensures sep ==> RunsProgress(views, i + 1, img0, m0, g0, l0, runs, project)
      ensures sep ==> RunsRepainted(views, i + 1, img0, r0, runs)
    {
      completed := ShowOnView(views, i, img0, m0, g0, l0, r0, runs, sep, project);
      if sep {
        assert DistinctModels(views) by {
          forall j, k | 0 <= j < |views| && 0 <= k < |views| && views[j].image != views[k].image
            && ModelOf(views[j]) != null
            ensures ModelOf(views[j]) != ModelOf(views[k])
          {
          }
        }
      }
    }

    /** updateCanvas on view i, view by view: view i shows the (i + 1)-th run, and every other
        view, whose image and model view i does not share, shows what it showed. */
    method ShowOnView(views: seq<ViewCanvas>, i: int, ghost img0: seq<ImageElement?>, ghost m0: seq<GraphicModel?>,
                      ghost g0: seq<seq<Graphic>>, ghost l0: seq<seq<Listener>>, ghost r0: seq<nat>,
                      ghost runs: seq<Outcome>, ghost sep: bool, project: (ContourGeom, Geometry) -> Option<Shape>)
      returns (completed: bool)
      requires Valid() && 0 <= i < |views| && |img0| == |r0| == |views| && Coherent(img0, m0, g0, l0)
      requires |runs| == |views| + 1 && runs[i + 1] == UpdatedCanvas(State(), resetsChecking)
      requires forall k :: 0 <= k < |views| ==> views[k].image == img0[k]
      requires sep ==> RunsProgress(views, i, img0, m0, g0, l0, runs, project) && RunsRepainted(views, i, img0, r0, runs)
      modifies this, views[i], views[i].image, ModelOf(views[i])
      ensures Valid()
      ensures runs[i + 1] == Outcome(State(), completed)
      ensures loadEnabled == old(loadEnabled)
      ensures initPathSelection ==> old(initPathSelection)
      ensures forall k :: 0 <= k < |views| ==> views[k].image == img0[k]
      ensures forall k :: 0 <= k < |views| ==>
        ModelOf(views[k]) == old(ModelOf(views[k]))
        || (old(ModelOf(views[k])) == null && ModelOf(views[k]) != null && fresh(ModelOf(views[k])))
      ensures sep ==> SeparateImages(views) && old(DistinctModels(views))
      ensures sep ==> forall k :: 0 <= k <= i ==> RunShown(views[k], m0[k], g0[k], l0[k], runs[k + 1], project)
      ensures sep ==> forall k :: i < k < |views| ==> Keeps(views[k], m0[k], g0[k], l0[k])
      ensures sep ==> RunsRepainted(views, i + 1, img0, r0, runs)
    {
      var v := views[i];
      ghost var img := v.image;
      ghost var mod := ModelOf(v);
      completed := ShowOnViewAhead(views, i, img0, m0, g0, l0, r0, runs, sep, project);
      if sep {
        forall k | 0 <= k <= i
          ensures RunShown(views[k], m0[k], g0[k], l0[k], runs[k + 1], project)
        {
          if k < i && img0[k] != null {
            assert old(RunShown(views[k], m0[k], g0[k], l0[k], runs[k + 1], project));
            assert img0[k] != img && views[k] != v;
            ghost var mk := old(ModelOf(views[k]));
            assert ModelOf(views[k]) == mk;
            if mk != null {
              assert mk != mod;
              assert mk.graphics == old(mk.graphics) && mk.listeners == old(mk.listeners);
            }
          }
        }
      }
    }

    /** The same for view i and the views after it. */
    method ShowOnViewAhead(views: seq<ViewCanvas>, i: int, ghost img0: seq<ImageElement?>, ghost m0: seq<GraphicModel?>,
                           ghost g0: seq<seq<Graphic>>, ghost l0: seq<seq<Listener>>, ghost r0: seq<nat>,
                           ghost runs: seq<Outcome>, ghost sep: bool, project: (ContourGeom, Geometry) -> Option<Shape>)
      returns (completed: bool)
      requires Valid() && 0 <= i < |views| && |img0| == |r0| == |views| && Coherent(img0, m0, g0, l0)
      requires |runs| == |views| + 1 && runs[i + 1] == UpdatedCanvas(State(), resetsChecking)
      requires forall k :: 0 <= k < |views| ==> views[k].image == img0[k]
      requires sep ==> RunsProgress(views, i, img0, m0, g0, l0, runs, project) && RunsRepainted(views, i, img0, r0, runs)
      modifies this, views[i], views[i].image, ModelOf(views[i])
      ensures Valid()
      ensures runs[i + 1] == Outcome(State(), completed)
      ensures loadEnabled == old(loadEnabled)
      ensures initPathSelection ==> old(initPathSelection)
      ensures forall k :: 0 <= k < |views| ==> views[k].image == img0[k]
      ensures forall k :: 0 <= k < |views| ==>
        ModelOf(views[k]) == old(ModelOf(views[k]))
        || (old(ModelOf(views[k])) == null && ModelOf(views[k]) != null && fresh(ModelOf(views[k])))
      ensures sep ==> SeparateImages(views) && old(DistinctModels(views))
      ensures sep ==> RunShown(views[i], m0[i], g0[i], l0[i], runs[i + 1], project)
      ensures sep ==> forall k :: i < k < |views| ==> Keeps(views[k], m0[k], g0[k], l0[k])
      ensures sep ==> RunsRepainted(views, i + 1, img0, r0, runs)
    {
      var v := views[i];
      ghost var img := v.image;
      ghost var mod := ModelOf(v);
      completed := CanvasOnView(views, i, img0, r0, runs, sep, project);
      if sep {
        assert old(Keeps(v, m0[i], g0[i], l0[i]));
        assert old(PriorGraphics(v)) == g0[i] && old(PriorListeners(v)) == l0[i];
        forall k | i < k < |views|
          ensures Keeps(views[k], m0[k], g0[k], l0[k])
        {
          assert old(Keeps(views[k], m0[k], g0[k], l0[k]));
          if img0[k] == null {
            assert m0[k] == null && ModelOf(views[k]) == null;
          } else {
            assert img0[k] != img && views[k] != v;
            assert unchanged(views[k]) && unchanged(img0[k]);
            if m0[k] != null {
              assert m0[k] != mod;
              assert unchanged(m0[k]);
            }
          }
        }
      }
    }

    /** updateCanvas on view i among views: what it leaves on view i, and that it changes
        no other view's image and gives a view a model only where it had none. */
    method CanvasOnView(views: seq<ViewCanvas>, i: int, ghost img0: seq<ImageElement?>, ghost r0: seq<nat>,
                        ghost runs: seq<Outcome>, ghost sep: bool, project: (ContourGeom, Geometry) -> Option<Shape>)
      returns (completed: bool)
      requires Valid() && 0 <= i < |views| && |img0| == |r0| == |views|
      requires |runs| == |views| + 1 && runs[i + 1] == UpdatedCanvas(State(), resetsChecking)
      requires forall k :: 0 <= k < |views| ==> views[k].image == img0[k]
      requires sep ==> SeparateImages(views) && RunsRepainted(views, i, img0, r0, runs)
      modifies this, views[i], views[i].image, ModelOf(views[i])
      ensures Valid()
      ensures runs[i + 1] == Outcome(State(), completed)
      ensures loadEnabled == old(loadEnabled)
      ensures initPathSelection ==> old(initPathSelection)
      ensures forall k :: 0 <= k < |views| ==> views[k].image == img0[k]
      ensures forall k :: 0 <= k < |views| ==>
        ModelOf(views[k]) == old(ModelOf(views[k]))
        || (old(ModelOf(views[k])) == null && ModelOf(views[k]) != null && fresh(ModelOf(views[k])))
      ensures RunShown(views[i], old(ModelOf(views[i])), old(PriorGraphics(views[i])), old(PriorListeners(views[i])),
                       runs[i + 1], project)
      ensures sep ==> RunsRepainted(views, i + 1, img0, r0, runs)
    {
      var v := views[i];
      ghost var img := v.image;
      completed := UpdateCanvas(v, project);
      forall k | 0 <= k < |views|
        ensures views[k].image == img0[k]
        ensures ModelOf(views[k]) == old(ModelOf(views[k]))
          || (old(ModelOf(views[k])) == null && ModelOf(views[k]) != null && fresh(ModelOf(views[k])))
      {
        if views[k] != v && old(views[k].image) != img {
          assert views[k].image == old(views[k].image);
        }
      }
      if sep {
        forall k | 0 <= k < |views|
          ensures views[k].repaints == r0[k] + (if k < i + 1 && RunActs(runs[k + 1], img0[k]) then 1 else 0)
        {
          if k != i && views[k] == v {
            assert img0[k] == img0[i] == null;
          }
        }
      }
    }

    /** The loop of actionPerformed over the container's views. */
    method UpdateViews(views: seq<ViewCanvas>, project: (ContourGeom, Geometry) -> Option<Shape>)
      returns (completed: bool)
      requires Valid()
      modifies this, ViewsFrame(views)
      ensures Valid() && loadEnabled == old(loadEnabled)
      ensures initPathSelection ==> old(initPathSelection)
      ensures forall k :: 0 <= k < |views| ==> views[k].image == old(views[k].image)
      ensures Outcome(State(), completed) == CanvasRuns(old(State()), resetsChecking, |views|)
      ensures old(SeparateImages(views) && DistinctModels(views)) ==>
        forall k :: 0 <= k < |views| ==>
          RunShown(views[k], old(ModelOf(views[k])), old(PriorGraphics(views[k])), old(PriorListeners(views[k])),
                   CanvasRuns(old(State()), resetsChecking, k + 1), project)
          && views[k].repaints
             == old(views[k].repaints) + (if RunActs(CanvasRuns(old(State()), resetsChecking, k + 1), views[k].image) then 1 else 0)
    {
      ghost var img0 := seq(|views|, k requires 0 <= k < |views| reads views => views[k].image);
      ghost var m0 := seq(|views|, k requires 0 <= k < |views| reads ViewsFrame(views) => ModelOf(views[k]));
      ghost var g0 := seq(|views|, k requires 0 <= k < |views| reads ViewsFrame(views) => PriorGraphics(views[k]));
      ghost var l0 := seq(|views|, k requires 0 <= k < |views| reads ViewsFrame(views) => PriorListeners(views[k]));
      ghost var r0 := seq(|views|, k requires 0 <= k < |views| reads views => views[k].repaints);
      ghost var s0 := State();
      ghost var rc := resetsChecking;
      ghost var runs := seq(|views| + 1, k requires 0 <= k <= |views| => CanvasRuns(s0, rc, k));
      assert RunsFrom(runs, s0, resetsChecking);
      SnapshotsCoherent(views, img0, m0, g0, l0);
      ghost var sep := SeparateImages(views) && DistinctModels(views);
      if sep {
        RunsStart(views, img0, m0, g0, l0, r0, runs, project);
      }
      completed := UpdateViewsLoop(views, img0, m0, g0, l0, r0, runs, s0, sep, project);
      assert runs[|views|] == CanvasRuns(s0, rc, |views|);
    }

    /** That loop, against the images, models, graphics, listeners and repaint counts the views
        had before it and the outcomes runs of the successive updateCanvas runs. */
    method UpdateViewsLoop(views: seq<ViewCanvas>, ghost img0: seq<ImageElement?>, ghost m0: seq<GraphicModel?>,
                           ghost g0: seq<seq<Graphic>>, ghost l0: seq<seq<Listener>>, ghost r0: seq<nat>,
                           ghost runs: seq<Outcome>, ghost s0: ToolState, ghost sep: bool,
                           project: (ContourGeom, Geometry) -> Option<Shape>)
      returns (completed: bool)
      requires Valid() && |img0| == |r0| == |views| && Coherent(img0, m0, g0, l0)
      requires |runs| == |views| + 1 && RunsFrom(runs, s0, resetsChecking) && runs[0] == Outcome(State(), true)
      requires forall k :: 0 <= k < |views| ==> views[k].image == img0[k] && ModelOf(views[k]) == m0[k]
      requires sep ==> RunsProgress(views, 0, img0, m0, g0, l0, runs, project) && RunsRepainted(views, 0, img0, r0, runs)
      modifies this, ViewsFrame(views)
      ensures Valid() && loadEnabled == old(loadEnabled)
      ensures initPathSelection ==> old(initPathSelection)
      ensures forall k :: 0 <= k < |views| ==> views[k].image == img0[k]
      ensures Outcome(State(), completed) == runs[|views|]
      ensures sep ==> RunsProgress(views, |views|, img0, m0, g0, l0, runs, project)
      ensures sep ==> RunsRepainted(views, |views|, img0, r0, runs)
    {
      completed := true;
      ghost var guard0 := initPathSelection;
      var i := 0;
      while i < |views|
        invariant 0 <= i <= |views|
        invariant Valid() && loadEnabled == old(loadEnabled) && completed
        invariant initPathSelection ==> guard0
        invariant runs[i] == Outcome(State(), true)
        invariant forall k :: 0 <= k < |views| ==> views[k].image == img0[k]
        invariant forall k :: 0 <= k < |views| ==>
          ModelOf(views[k]) == m0[k] || (m0[k] == null && ModelOf(views[k]) != null && fresh(ModelOf(views[k])))
        invariant sep ==> RunsProgress(views, i, img0, m0, g0, l0, runs, project)
        invariant sep ==> RunsRepainted(views, i, img0, r0, runs)
      {
        assert views[i] in views;
        assert views[i].image != null ==> views[i].image in old(ViewsFrame(views));
        completed := UpdateViewStep(views, i, img0, m0, g0, l0, r0, runs, s0, sep, project);
        if !completed {
          return;
        }
        i := i + 1;
      }
    }
  }
}

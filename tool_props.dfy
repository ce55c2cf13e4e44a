/**
  What updateTree, updateCanvas and initTreeValues guarantee about the
  tree, the combo selections and the RT case.
 */
module ToolProps {
  import opened RtTypes
  import opened Selection
  import opened ToolSpec

  // ---------------------------------------------------------------------
  // Rebuilding one branch

  lemma RebuiltValid(t: TreeState, b: Branch, items: seq<Payload>)
    requires TreeValid(t)
    requires forall k :: 0 <= k < |items| ==> BranchOf(items[k]) == b
    ensures TreeValid(Rebuilt(t, b, items))
  {
    var r := Rebuilt(t, b, items);
    forall k | 0 <= k < |r.checked| && r.checked[k].LeafPath?
      ensures r.checked[k].node.id < r.nextId
    {
      assert r.checked[k] in t.checked;
    }
  }

  /** After a rebuild the branch lists exactly the items, in order, as unchecked nodes,
      the branch itself is checked, and the other branch is untouched. */
  lemma RebuiltBranch(t: TreeState, b: Branch, items: seq<Payload>)
    requires TreeValid(t)
    ensures var r := Rebuilt(t, b, items);
      |Children(r, b)| == |items|
      && (forall k :: 0 <= k < |items| ==> Children(r, b)[k].payload == items[k])
      && BranchPath(b) in r.checked
      && (forall n :: n in Children(r, b) ==> LeafPath(n) !in r.checked)
      && Children(r, OtherBranch(b)) == Children(t, OtherBranch(b))
  {
    var r := Rebuilt(t, b, items);
    forall n | n in Children(r, b)
      ensures LeafPath(n) !in r.checked
    {
      assert n.id >= t.nextId;
    }
  }

  /** A node with a fresh id is not on a checked path. */
  lemma FreshLeafUnchecked(t: TreeState, n: Node)
    requires TreeValid(t) && n.id >= t.nextId
    ensures LeafPath(n) !in t.checked
  {
  }

  // ---------------------------------------------------------------------
  // updateTree

  lemma UpdatedTreeValid(t: TreeState, resets: bool, rt: Option<RtCase>, selS: Option<Selector>, selP: Option<Selector>)
    requires TreeValid(t)
    ensures TreeValid(UpdatedTree(t, resets, rt, selS, selP).tree)
  {
    if rt.Some? {
      var t1 := SetModel(t, resets);
      assert TreeValid(t1);
      var t2 := if selS.Some? then Rebuilt(t1, Structures, StructureItems(LayersOf(rt.value, selS.value))) else t1;
      if selS.Some? {
        RebuiltValid(t1, Structures, StructureItems(LayersOf(rt.value, selS.value)));
      }
      if selP.Some? {
        IsoDoseStepValid(t2, rt.value, selP.value);
      }
    }
  }

  lemma IsoDoseStepValid(t: TreeState, rt: RtCase, sel: Selector)
    requires TreeValid(t)
    ensures TreeValid(IsoDoseStep(t, rt, sel).tree)
  {
    if sel in rt.data.plans {
      var d := rt.data.plans[sel].firstDose;
      if d.Some? {
        RebuiltValid(t.(isoDoseNodes := []), Isodoses, IsoDoseItems(d.value.isoDoseSet));
      }
    }
  }

  /** updateTree runs to its end unless it is given a plan the case does not know. */
  lemma UpdatedTreeCompletion(t: TreeState, resets: bool, rt: Option<RtCase>, selS: Option<Selector>, selP: Option<Selector>)
    ensures UpdatedTree(t, resets, rt, selS, selP).completed <==>
      !(rt.Some? && selP.Some? && selP.value !in rt.value.data.plans)
  {
  }

  /** Without a case both branches are emptied. */
  lemma UpdatedTreeNoCase(t: TreeState, resets: bool, selS: Option<Selector>, selP: Option<Selector>)
    ensures var r := UpdatedTree(t, resets, None, selS, selP);
      r.completed && r.tree.structureNodes == [] && r.tree.isoDoseNodes == []
      && (!resets ==> r.tree.checked == t.checked)
  {
  }

  /** A structure-set selector rebuilds the Structures branch from that set: one unchecked
      node per layer, in order (none for an unknown set), under a checked branch. */
  lemma UpdatedTreeStructures(t: TreeState, resets: bool, rt: RtCase, sel: Selector, selP: Option<Selector>)
    requires TreeValid(t)
    ensures var r := UpdatedTree(t, resets, Some(rt), Some(sel), selP).tree;
      |r.structureNodes| == |LayersOf(rt, sel)|
      && (forall k :: 0 <= k < |r.structureNodes| ==> r.structureNodes[k].payload == StructureItem(LayersOf(rt, sel)[k]))
      && BranchPath(Structures) in r.checked
      && (forall n :: n in r.structureNodes ==> LeafPath(n) !in r.checked)
  {
    var items := StructureItems(LayersOf(rt, sel));
    var t1 := SetModel(t, resets);
    var t2 := Rebuilt(t1, Structures, items);
    RebuiltBranch(t1, Structures, items);
    if selP.Some? && selP.value in rt.data.plans {
      var d := rt.data.plans[selP.value].firstDose;
      if d.Some? {
        RebuiltValid(t1, Structures, items);
        var t3 := t2.(isoDoseNodes := []);
        var r := Rebuilt(t3, Isodoses, IsoDoseItems(d.value.isoDoseSet));
        assert forall n :: n in r.structureNodes ==> LeafPath(n) !in r.checked by {
          forall n | n in r.structureNodes
            ensures LeafPath(n) !in r.checked
          {
            assert n in t2.structureNodes;
          }
        }
      }
    }
  }

  /** A known plan rebuilds the Isodoses branch from its first dose (one unchecked node per
      isodose layer, in order, under a checked branch), or leaves it empty without a dose. */
  lemma UpdatedTreeIsoDoses(t: TreeState, resets: bool, rt: RtCase, selS: Option<Selector>, sel: Selector)
    requires TreeValid(t) && sel in rt.data.plans
    ensures var r := UpdatedTree(t, resets, Some(rt), selS, Some(sel)).tree;
      match rt.data.plans[sel].firstDose
      case None => r.isoDoseNodes == []
      case Some(d) =>
        |r.isoDoseNodes| == |d.isoDoseSet|
        && (forall k :: 0 <= k < |r.isoDoseNodes| ==> r.isoDoseNodes[k].payload == IsoDoseItem(d.isoDoseSet[k]))
        && BranchPath(Isodoses) in r.checked
        && (forall n :: n in r.isoDoseNodes ==> LeafPath(n) !in r.checked)
  {
    var t1 := SetModel(t, resets);
    var t2 := if selS.Some? then Rebuilt(t1, Structures, StructureItems(LayersOf(rt, selS.value))) else t1;
    if selS.Some? {
      RebuiltValid(t1, Structures, StructureItems(LayersOf(rt, selS.value)));
    }
    var d := rt.data.plans[sel].firstDose;
    if d.Some? {
      RebuiltBranch(t2.(isoDoseNodes := []), Isodoses, IsoDoseItems(d.value.isoDoseSet));
    }
  }

  /** An absent selector leaves its branch's children alone, and with a checking library that
      keeps its paths across models, that branch's selection too. */
  lemma UpdatedTreeKeepsOtherBranch(t: TreeState, resets: bool, rt: RtCase, selS: Option<Selector>, selP: Option<Selector>)
    ensures var r := UpdatedTree(t, resets, Some(rt), selS, selP).tree;
      (selS.None? ==> r.structureNodes == t.structureNodes)
      && (selP.None? ==> r.isoDoseNodes == t.isoDoseNodes)
      && (!resets && selS.None? ==> StructureSelection(r.checked) == StructureSelection(t.checked))
      && (!resets && selP.None? ==> IsoDoseSelection(r.checked) == IsoDoseSelection(t.checked))
  {
    if !resets && selS.None? && selP.Some? && selP.value in rt.data.plans {
      if rt.data.plans[selP.value].firstDose.Some? {
        StructureSelectionIgnoresOtherPaths(t.checked, BranchPath(Isodoses));
      }
    }
    if !resets && selP.None? && selS.Some? {
      IsoDoseSelectionIgnoresOtherPaths(t.checked, BranchPath(Structures));
    }
  }

  /** With a checking library that keeps its paths across models, an update unchecks nothing:
      a layer selected before it is still selected after it, even when the rebuild dropped the
      node that carried it. */
  lemma KeptUpdateKeepsSelection(t: TreeState, rt: RtCase, selS: Option<Selector>, selP: Option<Selector>,
                                 l: StructureLayer, m: IsoDoseLayer)
    ensures var r := UpdatedTree(t, false, Some(rt), selS, selP).tree;
      (forall p :: p in t.checked ==> p in r.checked)
      && (l in StructureSelection(t.checked) ==> l in StructureSelection(r.checked))
      && (m in IsoDoseSelection(t.checked) ==> m in IsoDoseSelection(r.checked))
  {
    var r := UpdatedTree(t, false, Some(rt), selS, selP).tree;
    if l in StructureSelection(t.checked) {
      StructureLeavesMembership(t.checked, l);
      var k :| 0 <= k < |t.checked| && t.checked[k].LeafPath? && t.checked[k].node.payload == StructureItem(l);
      assert t.checked[k] in r.checked;
      StructureLeavesMembership(r.checked, l);
    }
    if m in IsoDoseSelection(t.checked) {
      IsoDoseLeavesMembership(t.checked, m);
      var k :| 0 <= k < |t.checked| && t.checked[k].LeafPath? && t.checked[k].node.payload == IsoDoseItem(m);
      assert t.checked[k] in r.checked;
      IsoDoseLeavesMembership(r.checked, m);
    }
  }

  /** An instance: a checked leaf whose node a rebuild of the Structures branch drops stays
      checked, and its layer stays selected, with a library that keeps its paths. */
  lemma KeptUpdateStaleLeaf(rt: RtCase, sel: Selector, n: Node, l: StructureLayer)
    requires n.id == 0 && n.payload == StructureItem(l)
    ensures var r := UpdatedTree(TreeState([n], [], [BranchPath(Structures), LeafPath(n)], 1),
                                 false, Some(rt), Some(sel), None).tree;
      n !in r.structureNodes && LeafPath(n) in r.checked && StructureSelection(r.checked) == [l]
  {
    var t := TreeState([n], [], [BranchPath(Structures), LeafPath(n)], 1);
    var r := UpdatedTree(t, false, Some(rt), Some(sel), None).tree;
    var items := StructureItems(LayersOf(rt, sel));
    assert r == Rebuilt(t, Structures, items);
    assert r.checked == t.checked;
    assert forall k :: 0 <= k < |r.structureNodes| ==> r.structureNodes[k].id == 1 + k;
    assert StructureLeaves(r.checked) == [l] by {
      assert r.checked[..1] == [BranchPath(Structures)];
      assert [BranchPath(Structures)][..0] == [];
    }
  }

  /** With a checking library that clears its paths on a new model, nothing is selected
      after an update: only branch paths are checked. */
  lemma ResetUpdateSelectsNothing(t: TreeState, rt: Option<RtCase>, selS: Option<Selector>, selP: Option<Selector>)
    ensures var r := UpdatedTree(t, true, rt, selS, selP).tree;
      StructureSelection(r.checked) == [] && IsoDoseSelection(r.checked) == []
  {
    var r := UpdatedTree(t, true, rt, selS, selP).tree;
    assert forall k :: 0 <= k < |r.checked| ==> r.checked[k] in r.checked;
    BranchAloneSelectsNothing(r.checked);
  }

  // ---------------------------------------------------------------------
  // updateCanvas

  lemma CanvasValid(s: ToolState, resets: bool)
    requires TreeValid(s.tree)
    ensures TreeValid(UpdatedCanvas(s, resets).state.tree)
    ensures UpdatedCanvas(s, resets).state.rtSet == s.rtSet
  {
    if s.rtSet.Some? {
      var rt := s.rtSet.value;
      var oldS := s.structureCombo;
      var oldP := s.planCombo;
      var s1 := s.(listening := false);
      var s2 := s1.(structureCombo := oldS);
      if !Known(oldS, rt.data.structures) {
        UpdatedTreeValid(s1.tree, resets, s.rtSet, rt.data.firstStructure, oldP);
        var u := UpdatedTree(s1.tree, resets, s.rtSet, rt.data.firstStructure, oldP);
        s2 := s1.(structureCombo := rt.data.firstStructure, tree := u.tree);
      }
      UpdatedTreeValid(s2.tree, resets, s.rtSet, oldS, rt.data.firstPlanKey);
    }
  }

  /** Without a case updateCanvas only empties the tree. */
  lemma CanvasNoCase(s: ToolState, resets: bool)
    requires s.rtSet.None?
    ensures var o := UpdatedCanvas(s, resets);
      o.completed && o.state.tree.structureNodes == [] && o.state.tree.isoDoseNodes == []
      && o.state.structureCombo == s.structureCombo && o.state.planCombo == s.planCombo
      && o.state.listening == s.listening
  {
  }

  /** With a case, the combo listeners are attached again exactly when updateCanvas completes. */
  lemma CanvasListening(s: ToolState, resets: bool)
    requires s.rtSet.Some?
    ensures UpdatedCanvas(s, resets).state.listening <==> UpdatedCanvas(s, resets).completed
  {
  }

  /** On a coherent case updateCanvas completes unless the structure selection is stale and
      the plan selection is a stale plan: the first updateTree is then given that plan. */
  lemma CanvasCompletion(s: ToolState, resets: bool)
    requires s.rtSet.Some? && CoherentCase(s.rtSet.value)
    ensures var rt := s.rtSet.value;
      UpdatedCanvas(s, resets).completed <==>
        (Known(s.structureCombo, rt.data.structures) || s.planCombo.None? || Known(s.planCombo, rt.data.plans))
  {
    var rt := s.rtSet.value;
    var s1 := s.(listening := false);
    if !Known(s.structureCombo, rt.data.structures) {
      UpdatedTreeCompletion(s1.tree, resets, s.rtSet, rt.data.firstStructure, s.planCombo);
      var u := UpdatedTree(s1.tree, resets, s.rtSet, rt.data.firstStructure, s.planCombo);
      var s2 := s1.(structureCombo := rt.data.firstStructure, tree := u.tree);
      UpdatedTreeCompletion(s2.tree, resets, s.rtSet, s.structureCombo, rt.data.firstPlanKey);
    } else {
      UpdatedTreeCompletion(s1.tree, resets, s.rtSet, s.structureCombo, rt.data.firstPlanKey);
    }
  }

  /** After a completed updateCanvas on a coherent case, each combo selects nothing or a
      selector of the case's inventory. */
  lemma CanvasSelectorsKnown(s: ToolState, resets: bool)
    requires s.rtSet.Some? && CoherentCase(s.rtSet.value)
    requires UpdatedCanvas(s, resets).completed
    ensures var o := UpdatedCanvas(s, resets).state;
      (o.structureCombo.Some? ==> o.structureCombo.value in s.rtSet.value.data.structures)
      && (o.planCombo.Some? ==> o.planCombo.value in s.rtSet.value.data.plans)
  {
  }

  /** The second updateTree of updateCanvas is given the structure selection from before the
      refresh: after a case change that leaves it stale, and no plan selected, the combo shows
      the first structure set while the Structures branch lists nothing. */
  lemma CanvasStaleStructureEmptiesBranch(s: ToolState, resets: bool)
    requires s.rtSet.Some? && CoherentCase(s.rtSet.value)
    requires s.structureCombo.Some? && s.structureCombo.value !in s.rtSet.value.data.structures
    requires s.planCombo.None?
    ensures var o := UpdatedCanvas(s, resets);
      o.completed && o.state.structureCombo == s.rtSet.value.data.firstStructure
      && o.state.tree.structureNodes == []
      && BranchPath(Structures) in o.state.tree.checked
  {
    var rt := s.rtSet.value;
    var s1 := s.(listening := false);
    var u := UpdatedTree(s1.tree, resets, s.rtSet, rt.data.firstStructure, None);
    var s2 := s1.(structureCombo := rt.data.firstStructure, tree := u.tree);
    var u2 := UpdatedTree(s2.tree, resets, s.rtSet, s.structureCombo, rt.data.firstPlanKey);
    assert LayersOf(rt, s.structureCombo.value) == [];
    var t1 := SetModel(s2.tree, resets);
    var t2 := Rebuilt(t1, Structures, StructureItems([]));
    assert BranchPath(Structures) in t2.checked;
  }

  // ---------------------------------------------------------------------
  // Several views, and initTreeValues

  lemma {:induction false} CanvasRunsValid(s: ToolState, resets: bool, n: nat)
    requires TreeValid(s.tree)
    ensures TreeValid(CanvasRuns(s, resets, n).state.tree)
    ensures CanvasRuns(s, resets, n).state.rtSet == s.rtSet
    decreases n
  {
    if n > 0 {
      CanvasValid(s, resets);
      if UpdatedCanvas(s, resets).completed {
        CanvasRunsValid(UpdatedCanvas(s, resets).state, resets, n - 1);
      }
    }
  }

  /** a runs followed by b runs are a + b runs; a run that does not complete ends them all. */
  lemma {:induction false} CanvasRunsSplit(s: ToolState, resets: bool, a: nat, b: nat)
    ensures CanvasRuns(s, resets, a + b)
      == (var o := CanvasRuns(s, resets, a); if o.completed then CanvasRuns(o.state, resets, b) else o)
    decreases a
  {
    if a > 0 {
      var o := UpdatedCanvas(s, resets);
      if o.completed {
        CanvasRunsSplit(o.state, resets, a - 1, b);
      }
    }
  }

  /** After i completed runs ending in state t, the next run is updateCanvas on t. */
  lemma CanvasRunsNext(s: ToolState, resets: bool, i: nat, t: ToolState)
    requires CanvasRuns(s, resets, i) == Outcome(t, true)
    ensures CanvasRuns(s, resets, i + 1) == UpdatedCanvas(t, resets)
  {
    CanvasRunsSplit(s, resets, i, 1);
  }

  /** Once a run does not complete, more views change nothing: the runs stopped there. */
  lemma CanvasRunsStop(s: ToolState, resets: bool, n: nat, m: nat)
    requires n <= m && !CanvasRuns(s, resets, n).completed
    ensures CanvasRuns(s, resets, m) == CanvasRuns(s, resets, n)
  {
    CanvasRunsSplit(s, resets, n, m - n);
  }

  /** After at least one view, a completed pass on a coherent case leaves both combos on
      selectors of the case's inventory (or on nothing). */
  lemma {:induction false} CanvasRunsSelectorsKnown(s: ToolState, resets: bool, n: nat)
    requires s.rtSet.Some? && CoherentCase(s.rtSet.value) && n > 0
    requires TreeValid(s.tree)
    requires CanvasRuns(s, resets, n).completed
    ensures var o := CanvasRuns(s, resets, n).state;
      (o.structureCombo.Some? ==> o.structureCombo.value in s.rtSet.value.data.structures)
      && (o.planCombo.Some? ==> o.planCombo.value in s.rtSet.value.data.plans)
    decreases n
  {
    var o := UpdatedCanvas(s, resets);
    CanvasValid(s, resets);
    assert o.completed;
    if n == 1 {
      CanvasSelectorsKnown(s, resets);
    } else {
      CanvasRunsSelectorsKnown(o.state, resets, n - 1);
    }
  }

  /** initTreeValues keeps a case built from the related elements exactly when they are
      non-empty and differ from the current case's; a second call on the same list keeps it. */
  lemma NextCaseSettles(current: Option<RtCase>, list: seq<Element>, derive: seq<Element> -> RtData)
    ensures var c := NextCase(current, list, derive);
      (c != current <==> |list| > 0 && (current.None? || current.value.elements != list))
      && (|list| > 0 ==> c.Some? && c.value.elements == list)
      && NextCase(c, list, derive) == c
  {
  }
}

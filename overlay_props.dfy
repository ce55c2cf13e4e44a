/**
  Properties of the overlay resolver's specification: a pass replaces the
  RT graphics and nothing else, two passes equal one, the RT graphics are
  exactly the styled projections of the selected entities at the slice,
  selection is monotonic and by key, and the styling rules hold.
 */
module OverlayProps {
  import opened RtTypes
  import opened Selection
  import opened Overlay

  // ---------------------------------------------------------------------
  // Removing one layer kind

  lemma {:induction false} WithoutKindAppend(a: seq<Graphic>, b: seq<Graphic>, k: LayerKind)
    ensures WithoutKind(a + b, k) == WithoutKind(a, k) + WithoutKind(b, k)
  {
    if b == [] {
      assert a + b == a;
    } else {
      var b' := b[..|b| - 1];
      assert (a + b)[..|a + b| - 1] == a + b';
      assert (a + b)[|a + b| - 1] == b[|b| - 1];
      WithoutKindAppend(a, b', k);
    }
  }

  /** deleteByLayerType keeps exactly the graphics of the other kinds. */
  lemma {:induction false} WithoutKindMembership(gs: seq<Graphic>, k: LayerKind, g: Graphic)
    ensures g in WithoutKind(gs, k) <==> g in gs && g.kind != k
  {
    if gs != [] {
      var init := gs[..|gs| - 1];
      WithoutKindMembership(init, k, g);
      assert gs == init + [gs[|gs| - 1]];
    }
  }

  lemma {:induction false} WithoutKindOfOnlyKind(gs: seq<Graphic>, k: LayerKind)
    requires forall i :: 0 <= i < |gs| ==> gs[i].kind == k
    ensures WithoutKind(gs, k) == []
  {
    if gs != [] {
      WithoutKindOfOnlyKind(gs[..|gs| - 1], k);
    }
  }

  lemma {:induction false} WithoutKindIdempotent(gs: seq<Graphic>, k: LayerKind)
    ensures WithoutKind(WithoutKind(gs, k), k) == WithoutKind(gs, k)
  {
    if gs != [] {
      var init := gs[..|gs| - 1];
      var last := gs[|gs| - 1];
      WithoutKindIdempotent(init, k);
      var tail := if last.kind == k then [] else [last];
      WithoutKindAppend(WithoutKind(init, k), tail, k);
      if tail != [] {
        assert tail[..0] == [];
      }
    }
  }

  // ---------------------------------------------------------------------
  // Every resolved RT graphic is of kind DICOM_RT and carries the model's listeners

  ghost predicate AllRt(gs: seq<Graphic>, ls: seq<Listener>)
  {
    forall i :: 0 <= i < |gs| ==> gs[i].kind == DicomRt && gs[i].listeners == ls
  }

  lemma {:induction false} IsoContourGraphicsRt(cs: seq<ContourGeom>, il: IsoDoseLayer, geo: Geometry,
                                                project: (ContourGeom, Geometry) -> Option<Shape>, ls: seq<Listener>)
    ensures AllRt(IsoContourGraphics(cs, il, geo, project, ls), ls)
  {
    if cs != [] {
      IsoContourGraphicsRt(cs[..|cs| - 1], il, geo, project, ls);
    }
  }

  lemma {:induction false} IsoDoseGraphicsRt(layers: seq<IsoDoseLayer>, sel: seq<IsoDoseLayer>, z: ZKey, geo: Geometry,
                                             project: (ContourGeom, Geometry) -> Option<Shape>, ls: seq<Listener>)
    ensures AllRt(IsoDoseGraphics(layers, sel, z, geo, project, ls), ls)
  {
    if layers != [] {
      var il := layers[|layers| - 1];
      IsoDoseGraphicsRt(layers[..|layers| - 1], sel, z, geo, project, ls);
      if z in il.isoDose.planes {
        IsoContourGraphicsRt(il.isoDose.planes[z], il, geo, project, ls);
      }
    }
  }

  lemma {:induction false} StructureGraphicsRt(cs: seq<Contour>, sel: seq<StructureLayer>, geo: Geometry,
                                               project: (ContourGeom, Geometry) -> Option<Shape>, ls: seq<Listener>)
    ensures AllRt(StructureGraphics(cs, sel, geo, project, ls), ls)
  {
    if cs != [] {
      StructureGraphicsRt(cs[..|cs| - 1], sel, geo, project, ls);
    }
  }

  /** Every graphic a pass adds has kind DICOM_RT and every listener of the model. */
  lemma RtGraphicsAreRt(rt: RtCase, selS: seq<StructureLayer>, selI: seq<IsoDoseLayer>, sl: DicomSlice,
                        project: (ContourGeom, Geometry) -> Option<Shape>, ls: seq<Listener>)
    ensures forall g :: g in RtGraphics(rt, selS, selI, sl, project, ls) ==> g.kind == DicomRt && g.listeners == ls
  {
    var d := FirstDose(rt);
    if d.Some? {
      IsoDoseGraphicsRt(d.value.isoDoseSet, selI, sl.z, sl.geometry, project, ls);
    }
    if sl.uid in rt.data.contourMap {
      StructureGraphicsRt(rt.data.contourMap[sl.uid], selS, sl.geometry, project, ls);
    }
  }

  // ---------------------------------------------------------------------
  // Full replace: non-RT graphics survive, and two passes equal one

  /** A pass keeps every graphic of another kind, in order, and only those besides its own. */
  lemma ResolveKeepsOtherKinds(prior: seq<Graphic>, rt: RtCase, selS: seq<StructureLayer>, selI: seq<IsoDoseLayer>,
                               sl: DicomSlice, project: (ContourGeom, Geometry) -> Option<Shape>, ls: seq<Listener>)
    ensures WithoutKind(Resolved(prior, rt, selS, selI, sl, project, ls), DicomRt) == WithoutKind(prior, DicomRt)
    ensures forall g :: g in prior && g.kind != DicomRt ==> g in Resolved(prior, rt, selS, selI, sl, project, ls)
  {
    var rtg := RtGraphics(rt, selS, selI, sl, project, ls);
    RtGraphicsAreRt(rt, selS, selI, sl, project, ls);
    WithoutKindAppend(WithoutKind(prior, DicomRt), rtg, DicomRt);
    WithoutKindOfOnlyKind(rtg, DicomRt);
    WithoutKindIdempotent(prior, DicomRt);
    forall g | g in prior && g.kind != DicomRt
      ensures g in Resolved(prior, rt, selS, selI, sl, project, ls)
    {
      WithoutKindMembership(prior, DicomRt, g);
    }
  }

  /** Idempotence: resolving twice with the same inputs gives what resolving once gives. */
  lemma ResolveIdempotent(prior: seq<Graphic>, rt: RtCase, selS: seq<StructureLayer>, selI: seq<IsoDoseLayer>,
                          sl: DicomSlice, project: (ContourGeom, Geometry) -> Option<Shape>, ls: seq<Listener>)
    ensures Resolved(Resolved(prior, rt, selS, selI, sl, project, ls), rt, selS, selI, sl, project, ls)
         == Resolved(prior, rt, selS, selI, sl, project, ls)
  {
    ResolveKeepsOtherKinds(prior, rt, selS, selI, sl, project, ls);
  }

  /** With nothing selected a pass only drops the old RT graphics. */
  lemma EmptySelectionAddsNothing(prior: seq<Graphic>, rt: RtCase, sl: DicomSlice,
                                  project: (ContourGeom, Geometry) -> Option<Shape>, ls: seq<Listener>)
    ensures Resolved(prior, rt, [], [], sl, project, ls) == WithoutKind(prior, DicomRt)
  {
    var d := FirstDose(rt);
    if d.Some? {
      IsoDoseGraphicsNoSelection(d.value.isoDoseSet, sl.z, sl.geometry, project, ls);
    }
    if sl.uid in rt.data.contourMap {
      StructureGraphicsNoSelection(rt.data.contourMap[sl.uid], sl.geometry, project, ls);
    }
  }

  lemma {:induction false} IsoDoseGraphicsNoSelection(layers: seq<IsoDoseLayer>, z: ZKey, geo: Geometry,
                                                      project: (ContourGeom, Geometry) -> Option<Shape>, ls: seq<Listener>)
    ensures IsoDoseGraphics(layers, [], z, geo, project, ls) == []
  {
    if layers != [] {
      IsoDoseGraphicsNoSelection(layers[..|layers| - 1], z, geo, project, ls);
    }
  }

  lemma {:induction false} StructureGraphicsNoSelection(cs: seq<Contour>, geo: Geometry,
                                                        project: (ContourGeom, Geometry) -> Option<Shape>, ls: seq<Listener>)
    ensures StructureGraphics(cs, [], geo, project, ls) == []
  {
    if cs != [] {
      StructureGraphicsNoSelection(cs[..|cs| - 1], geo, project, ls);
    }
  }

  // ---------------------------------------------------------------------
  // What the structure graphics are

  /** A structure graphic exists exactly for a contour whose owner is selected by key and
      whose projection is non-null; it is filled unless the structure is EXTERNAL. */
  lemma {:induction false} StructureGraphicsMembership(cs: seq<Contour>, sel: seq<StructureLayer>, geo: Geometry,
                                                       project: (ContourGeom, Geometry) -> Option<Shape>,
                                                       ls: seq<Listener>, g: Graphic)
    ensures g in StructureGraphics(cs, sel, geo, project, ls) <==>
      exists k :: 0 <= k < |cs| && ContainsStructure(sel, cs[k].owner.structure)
        && project(cs[k].geom, geo).Some?
        && g == Graphic(project(cs[k].geom, geo).value, DicomRt, cs[k].owner.layer,
                        cs[k].owner.structure.thickness, cs[k].owner.structure.color,
                        cs[k].owner.structure.interpretedType != "EXTERNAL", ls)
  {
    ContoursMembership(cs, sel, geo, project, ls, g);
  }

  /** Does one contour draw g on the slice? */
  ghost predicate ContourDraws(c: Contour, sel: seq<StructureLayer>, geo: Geometry,
                               project: (ContourGeom, Geometry) -> Option<Shape>, ls: seq<Listener>, g: Graphic)
  {
    ContainsStructure(sel, c.owner.structure) && project(c.geom, geo).Some?
    && g == StructStyled(project(c.geom, geo).value, c.owner, ls)
  }

  lemma {:induction false} ContoursMembership(cs: seq<Contour>, sel: seq<StructureLayer>, geo: Geometry,
                                              project: (ContourGeom, Geometry) -> Option<Shape>,
                                              ls: seq<Listener>, g: Graphic)
    ensures g in StructureGraphics(cs, sel, geo, project, ls) <==>
      exists k :: 0 <= k < |cs| && ContourDraws(cs[k], sel, geo, project, ls, g)
  {
    if cs != [] {
      var init := cs[..|cs| - 1];
      ContoursMembership(init, sel, geo, project, ls, g);
      assert g in StructureGraphics(cs, sel, geo, project, ls) <==>
        g in StructureGraphics(init, sel, geo, project, ls) || ContourDraws(cs[|cs| - 1], sel, geo, project, ls, g);
      assert forall k :: 0 <= k < |init| ==> init[k] == cs[k];
    }
  }

  /** The styling rule: a structure graphic is filled iff its structure is not EXTERNAL. */
  lemma {:induction false} StructureFilledRule(cs: seq<Contour>, sel: seq<StructureLayer>, geo: Geometry,
                                               project: (ContourGeom, Geometry) -> Option<Shape>, ls: seq<Listener>,
                                               i: nat)
    requires i < |StructureGraphics(cs, sel, geo, project, ls)|
    ensures var g := StructureGraphics(cs, sel, geo, project, ls)[i];
      exists k :: 0 <= k < |cs| && g.layer == cs[k].owner.layer
        && (g.filled <==> cs[k].owner.structure.interpretedType != "EXTERNAL")
  {
    var g := StructureGraphics(cs, sel, geo, project, ls)[i];
    StructureGraphicsMembership(cs, sel, geo, project, ls, g);
  }

  /** Monotonic selection: a selection covering another by key yields every graphic it yields. */
  lemma StructureGraphicsMonotonic(cs: seq<Contour>, s1: seq<StructureLayer>, s2: seq<StructureLayer>, geo: Geometry,
                                   project: (ContourGeom, Geometry) -> Option<Shape>, ls: seq<Listener>)
    requires forall l :: l in s1 ==> ContainsStructure(s2, l.structure)
    ensures forall g :: g in StructureGraphics(cs, s1, geo, project, ls) ==> g in StructureGraphics(cs, s2, geo, project, ls)
  {
    forall g | g in StructureGraphics(cs, s1, geo, project, ls)
      ensures g in StructureGraphics(cs, s2, geo, project, ls)
    {
      StructureGraphicsMembership(cs, s1, geo, project, ls, g);
      StructureGraphicsMembership(cs, s2, geo, project, ls, g);
      var k :| 0 <= k < |cs| && ContainsStructure(s1, cs[k].owner.structure)
        && project(cs[k].geom, geo).Some?
        && g == Graphic(project(cs[k].geom, geo).value, DicomRt, cs[k].owner.layer,
                        cs[k].owner.structure.thickness, cs[k].owner.structure.color,
                        cs[k].owner.structure.interpretedType != "EXTERNAL", ls);
      var m :| 0 <= m < |s1| && SameStructureKey(s1[m].structure, cs[k].owner.structure);
      assert s1[m] in s1;
      ContainsStructureByKey(s2, s1[m].structure, cs[k].owner.structure);
    }
  }

  /** Selection is by key: two selections that find the same keys give the same graphics. */
  lemma {:induction false} StructureGraphicsByKey(cs: seq<Contour>, s1: seq<StructureLayer>, s2: seq<StructureLayer>,
                                                  geo: Geometry, project: (ContourGeom, Geometry) -> Option<Shape>,
                                                  ls: seq<Listener>)
    requires forall k :: 0 <= k < |cs| ==>
      ContainsStructure(s1, cs[k].owner.structure) == ContainsStructure(s2, cs[k].owner.structure)
    ensures StructureGraphics(cs, s1, geo, project, ls) == StructureGraphics(cs, s2, geo, project, ls)
  {
    if cs != [] {
      StructureGraphicsByKey(cs[..|cs| - 1], s1, s2, geo, project, ls);
    }
  }

  /** A duplicated structure leaf in the selection changes nothing. */
  lemma StructureSelectionDuplicateHarmless(cs: seq<Contour>, sel: seq<StructureLayer>, k: nat, geo: Geometry,
                                            project: (ContourGeom, Geometry) -> Option<Shape>, ls: seq<Listener>)
    requires k < |sel|
    ensures StructureGraphics(cs, sel + [sel[k]], geo, project, ls) == StructureGraphics(cs, sel, geo, project, ls)
  {
    forall j | 0 <= j < |cs|
      ensures ContainsStructure(sel + [sel[k]], cs[j].owner.structure) == ContainsStructure(sel, cs[j].owner.structure)
    {
      StructureDuplicateHarmless(sel, k, cs[j].owner.structure);
    }
    StructureGraphicsByKey(cs, sel + [sel[k]], sel, geo, project, ls);
  }

  // ---------------------------------------------------------------------
  // What the isodose graphics are

  lemma {:induction false} IsoContourGraphicsMembership(cs: seq<ContourGeom>, il: IsoDoseLayer, geo: Geometry,
                                                        project: (ContourGeom, Geometry) -> Option<Shape>,
                                                        ls: seq<Listener>, g: Graphic)
    ensures g in IsoContourGraphics(cs, il, geo, project, ls) <==>
      exists j :: 0 <= j < |cs| && project(cs[j], geo).Some? && g == IsoStyled(project(cs[j], geo).value, il, ls)
  {
    if cs != [] {
      var init := cs[..|cs| - 1];
      IsoContourGraphicsMembership(init, il, geo, project, ls, g);
      assert forall j :: 0 <= j < |init| ==> init[j] == cs[j];
    }
  }

  /** An isodose graphic exists exactly for a dose layer selected by key that has contours
      under exactly key z, and one of those contours with a non-null projection; it takes
      the isodose's thickness and colour, the layer's handle, kind DICOM_RT, and is filled. */
  lemma {:induction false} IsoDoseGraphicsMembership(layers: seq<IsoDoseLayer>, sel: seq<IsoDoseLayer>, z: ZKey,
                                                     geo: Geometry, project: (ContourGeom, Geometry) -> Option<Shape>,
                                                     ls: seq<Listener>, g: Graphic)
    ensures g in IsoDoseGraphics(layers, sel, z, geo, project, ls) <==>
      exists k, j :: 0 <= k < |layers| && ContainsIsoDose(sel, layers[k].isoDose)
        && z in layers[k].isoDose.planes && 0 <= j < |layers[k].isoDose.planes[z]|
        && project(layers[k].isoDose.planes[z][j], geo).Some?
        && g == Graphic(project(layers[k].isoDose.planes[z][j], geo).value, DicomRt, layers[k].layer,
                        layers[k].isoDose.thickness, layers[k].isoDose.color, true, ls)
  {
    IsoDoseLayersMembership(layers, sel, z, geo, project, ls, g);
    if g in IsoDoseGraphics(layers, sel, z, geo, project, ls) {
      var k :| 0 <= k < |layers| && LayerDraws(layers[k], sel, z, geo, project, ls, g);
      var j :| 0 <= j < |layers[k].isoDose.planes[z]| && project(layers[k].isoDose.planes[z][j], geo).Some?
        && g == IsoStyled(project(layers[k].isoDose.planes[z][j], geo).value, layers[k], ls);
    }
  }

  /** Does one isodose layer draw g on the slice at z? */
  ghost predicate LayerDraws(il: IsoDoseLayer, sel: seq<IsoDoseLayer>, z: ZKey, geo: Geometry,
                             project: (ContourGeom, Geometry) -> Option<Shape>, ls: seq<Listener>, g: Graphic)
  {
    ContainsIsoDose(sel, il.isoDose) && z in il.isoDose.planes
    && exists j :: 0 <= j < |il.isoDose.planes[z]| && project(il.isoDose.planes[z][j], geo).Some?
         && g == IsoStyled(project(il.isoDose.planes[z][j], geo).value, il, ls)
  }

  lemma LayerIsoGraphicsMembership(il: IsoDoseLayer, sel: seq<IsoDoseLayer>, z: ZKey, geo: Geometry,
                                   project: (ContourGeom, Geometry) -> Option<Shape>, ls: seq<Listener>, g: Graphic)
    ensures g in LayerIsoGraphics(il, sel, z, geo, project, ls) <==> LayerDraws(il, sel, z, geo, project, ls, g)
  {
    if ContainsIsoDose(sel, il.isoDose) && z in il.isoDose.planes {
      IsoContourGraphicsMembership(il.isoDose.planes[z], il, geo, project, ls, g);
    }
  }

  lemma {:induction false} IsoDoseLayersMembership(layers: seq<IsoDoseLayer>, sel: seq<IsoDoseLayer>, z: ZKey,
                                                   geo: Geometry, project: (ContourGeom, Geometry) -> Option<Shape>,
                                                   ls: seq<Listener>, g: Graphic)
    ensures g in IsoDoseGraphics(layers, sel, z, geo, project, ls) <==>
      exists k :: 0 <= k < |layers| && LayerDraws(layers[k], sel, z, geo, project, ls, g)
  {
    if layers != [] {
      var init := layers[..|layers| - 1];
      IsoDoseLayersMembership(init, sel, z, geo, project, ls, g);
      LayerIsoGraphicsMembership(layers[|layers| - 1], sel, z, geo, project, ls, g);
      assert forall k :: 0 <= k < |init| ==> init[k] == layers[k];
    }
  }

  /** The isodose graphics of two runs of layers are those of the first, then those of the second. */
  lemma {:induction false} IsoDoseGraphicsAppend(a: seq<IsoDoseLayer>, b: seq<IsoDoseLayer>, sel: seq<IsoDoseLayer>,
                                                 z: ZKey, geo: Geometry,
                                                 project: (ContourGeom, Geometry) -> Option<Shape>, ls: seq<Listener>)
    ensures IsoDoseGraphics(a + b, sel, z, geo, project, ls)
      == IsoDoseGraphics(a, sel, z, geo, project, ls) + IsoDoseGraphics(b, sel, z, geo, project, ls)
  {
    if b == [] {
      assert a + b == a;
    } else {
      var init, last := b[..|b| - 1], b[|b| - 1];
      assert (a + b)[..|a + b| - 1] == a + init;
      assert (a + b)[|a + b| - 1] == last;
      var tail := LayerIsoGraphics(last, sel, z, geo, project, ls);
      calc {
        IsoDoseGraphics(a + b, sel, z, geo, project, ls);
        IsoDoseGraphics(a + init, sel, z, geo, project, ls) + tail;
        { IsoDoseGraphicsAppend(a, init, sel, z, geo, project, ls); }
        IsoDoseGraphics(a, sel, z, geo, project, ls) + IsoDoseGraphics(init, sel, z, geo, project, ls) + tail;
        IsoDoseGraphics(a, sel, z, geo, project, ls) + (IsoDoseGraphics(init, sel, z, geo, project, ls) + tail);
        IsoDoseGraphics(a, sel, z, geo, project, ls) + IsoDoseGraphics(b, sel, z, geo, project, ls);
      }
    }
  }

  /** Exact z lookup: a layer of a dose whose isodose has no contours under key z contributes
      nothing, so the dose draws on that slice what it draws without that layer. */
  lemma MissingPlaneAddsNothing(layers: seq<IsoDoseLayer>, k: nat, sel: seq<IsoDoseLayer>, z: ZKey, geo: Geometry,
                                project: (ContourGeom, Geometry) -> Option<Shape>, ls: seq<Listener>)
    requires k < |layers| && z !in layers[k].isoDose.planes
    ensures IsoDoseGraphics(layers, sel, z, geo, project, ls)
      == IsoDoseGraphics(layers[..k] + layers[k + 1..], sel, z, geo, project, ls)
  {
    var before, after := layers[..k], layers[k + 1..];
    var one := [layers[k]];
    assert layers == (before + one) + after;
    assert one[..0] == [];
    assert IsoDoseGraphics(one, sel, z, geo, project, ls) == [];
    IsoDoseGraphicsAppend(before + one, after, sel, z, geo, project, ls);
    IsoDoseGraphicsAppend(before, one, sel, z, geo, project, ls);
    IsoDoseGraphicsAppend(before, after, sel, z, geo, project, ls);
  }

  /** Monotonic isodose selection. */
  lemma IsoDoseGraphicsMonotonic(layers: seq<IsoDoseLayer>, s1: seq<IsoDoseLayer>, s2: seq<IsoDoseLayer>, z: ZKey,
                                 geo: Geometry, project: (ContourGeom, Geometry) -> Option<Shape>, ls: seq<Listener>)
    requires forall l :: l in s1 ==> ContainsIsoDose(s2, l.isoDose)
    ensures forall g :: g in IsoDoseGraphics(layers, s1, z, geo, project, ls) ==> g in IsoDoseGraphics(layers, s2, z, geo, project, ls)
  {
    forall g | g in IsoDoseGraphics(layers, s1, z, geo, project, ls)
      ensures g in IsoDoseGraphics(layers, s2, z, geo, project, ls)
    {
      IsoDoseGraphicsMembership(layers, s1, z, geo, project, ls, g);
      IsoDoseGraphicsMembership(layers, s2, z, geo, project, ls, g);
      var k, j :| 0 <= k < |layers| && ContainsIsoDose(s1, layers[k].isoDose)
        && z in layers[k].isoDose.planes && 0 <= j < |layers[k].isoDose.planes[z]|
        && project(layers[k].isoDose.planes[z][j], geo).Some?
        && g == Graphic(project(layers[k].isoDose.planes[z][j], geo).value, DicomRt, layers[k].layer,
                        layers[k].isoDose.thickness, layers[k].isoDose.color, true, ls);
      var m :| 0 <= m < |s1| && SameIsoDoseKey(s1[m].isoDose, layers[k].isoDose);
      assert s1[m] in s1;
      ContainsIsoDoseByKey(s2, s1[m].isoDose, layers[k].isoDose);
    }
  }

  // ---------------------------------------------------------------------
  // End-to-end scenarios over the selection tree and the resolver

  /** One TARGET structure with one contour that meets the slice, its branch and leaf
      checked, no dose: a pass adds exactly one filled RT graphic. */
  lemma ScenarioCheckedTarget(prior: seq<Graphic>, sl: StructureLayer, c: ContourGeom, n: Node, slice: DicomSlice,
                              data: RtData, elements: seq<Element>, sh: Shape,
                              project: (ContourGeom, Geometry) -> Option<Shape>, ls: seq<Listener>)
    requires sl.structure.interpretedType == "TARGET"
    requires n.payload == StructureItem(sl)
    requires data.firstPlan.None?
    requires slice.uid in data.contourMap && data.contourMap[slice.uid] == [Contour(c, sl)]
    requires project(c, slice.geometry) == Some(sh)
    ensures
      var checked := [BranchPath(Structures), LeafPath(n)];
      Resolved(prior, RtCase(elements, data), StructureSelection(checked), IsoDoseSelection(checked), slice, project, ls)
        == WithoutKind(prior, DicomRt) + [Graphic(sh, DicomRt, sl.layer, sl.structure.thickness, sl.structure.color, true, ls)]
  {
    var checked := [BranchPath(Structures), LeafPath(n)];
    var c1 := [BranchPath(Structures)];
    assert c1[..0] == [];
    assert StructureLeaves(c1) == [];
    assert IsoDoseLeaves(c1) == [];
    assert checked[..1] == c1;
    assert StructureLeaves(checked) == [sl];
    assert checked[0] == BranchPath(Structures);
    assert StructureSelection(checked) == [sl];
    var cs := [Contour(c, sl)];
    assert cs[..0] == [];
    assert ContainsStructure([sl], sl.structure);
    assert |"TARGET"| != |"EXTERNAL"|;
    assert StructStyled(sh, sl, ls) == Graphic(sh, DicomRt, sl.layer, sl.structure.thickness, sl.structure.color, true, ls);
    assert StructureGraphics(cs, [sl], slice.geometry, project, ls) == [StructStyled(sh, sl, ls)];
    assert IsoDoseSelection(checked) == [];
    assert FirstDose(RtCase(elements, data)) == None;
  }

  /** The same with the leaf unchecked: nothing is added and non-RT graphics stay. */
  lemma ScenarioUncheckedLeaf(prior: seq<Graphic>, data: RtData, elements: seq<Element>, slice: DicomSlice,
                              project: (ContourGeom, Geometry) -> Option<Shape>, ls: seq<Listener>)
    requires data.firstPlan.None?
    ensures
      var checked := [BranchPath(Structures)];
      Resolved(prior, RtCase(elements, data), StructureSelection(checked), IsoDoseSelection(checked), slice, project, ls)
        == WithoutKind(prior, DicomRt)
  {
    var checked := [BranchPath(Structures)];
    BranchAloneSelectsNothing(checked);
    EmptySelectionAddsNothing(prior, RtCase(elements, data), slice, project, ls);
  }
}

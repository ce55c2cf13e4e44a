/**
  The overlay resolver: for one view, replace the RT graphics of the
  displayed slice's overlay model by the graphics of the selected
  isodoses (first) and the selected structures (after them), styled from
  their entities, with every listener of the model attached, and ask for
  a repaint.  Graphics of any other layer kind are kept.

  Projecting a 3D contour onto a slice (Contour.getGraphic) is foreign,
  floating-point code: it is the parameter `project`, which may give no
  graphic.
 */
module Overlay {
  import opened RtTypes
  import opened Selection

  /** LayerType: DICOM_RT tags RT graphics; every other kind is kept by the resolver. */
  datatype LayerKind = DicomRt | OtherKind(name: string)

  /** A graphic on an overlay model, with the style the resolver sets. */
  datatype Graphic = Graphic(
    shape: Shape,
    kind: LayerKind,
    layer: LayerHandle,
    thickness: Thickness,
    paint: Paint,
    filled: bool,
    listeners: seq<Listener>)

  /** A displayed DICOM slice: its SOP instance UID, its geometry and its z key. */
  datatype DicomSlice = DicomSlice(uid: string, geometry: Geometry, z: ZKey)

  // ---------------------------------------------------------------------
  // Specification of the resolved graphics

  /** The graphics of the model without those of one kind, in order. */
  function WithoutKind(gs: seq<Graphic>, kind: LayerKind): seq<Graphic>
  {
    if gs == [] then []
    else WithoutKind(gs[..|gs| - 1], kind) + (if gs[|gs| - 1].kind == kind then [] else [gs[|gs| - 1]])
  }

  /** An isodose graphic: style of its isodose, RT kind, its layer's handle, filled. */
  function IsoStyled(sh: Shape, il: IsoDoseLayer, ls: seq<Listener>): Graphic
  {
    Graphic(sh, DicomRt, il.layer, il.isoDose.thickness, il.isoDose.color, true, ls)
  }

  /** A structure graphic: style of its structure, RT kind, outline only for EXTERNAL. */
  function StructStyled(sh: Shape, sl: StructureLayer, ls: seq<Listener>): Graphic
  {
    Graphic(sh, DicomRt, sl.layer, sl.structure.thickness, sl.structure.color,
            sl.structure.interpretedType != "EXTERNAL", ls)
  }

  /** The graphics of one isodose's contours on the slice, null projections skipped. */
  function IsoContourGraphics(cs: seq<ContourGeom>, il: IsoDoseLayer, geo: Geometry,
                              project: (ContourGeom, Geometry) -> Option<Shape>, ls: seq<Listener>): seq<Graphic>
  {
    if cs == [] then []
    else
      var p := project(cs[|cs| - 1], geo);
      IsoContourGraphics(cs[..|cs| - 1], il, geo, project, ls)
        + (if p.Some? then [IsoStyled(p.value, il, ls)] else [])
  }

  /** What one isodose layer yields: nothing unless selected and planned at exactly z. */
  function LayerIsoGraphics(il: IsoDoseLayer, sel: seq<IsoDoseLayer>, z: ZKey, geo: Geometry,
                            project: (ContourGeom, Geometry) -> Option<Shape>, ls: seq<Listener>): seq<Graphic>
  {
    if ContainsIsoDose(sel, il.isoDose) && z in il.isoDose.planes
    then IsoContourGraphics(il.isoDose.planes[z], il, geo, project, ls)
    else []
  }

  /** The isodose graphics of a dose's layers, in layer order. */
  function IsoDoseGraphics(layers: seq<IsoDoseLayer>, sel: seq<IsoDoseLayer>, z: ZKey, geo: Geometry,
                           project: (ContourGeom, Geometry) -> Option<Shape>, ls: seq<Listener>): seq<Graphic>
  {
    if layers == [] then []
    else
      IsoDoseGraphics(layers[..|layers| - 1], sel, z, geo, project, ls)
        + LayerIsoGraphics(layers[|layers| - 1], sel, z, geo, project, ls)
  }

  /** The structure graphics of an instance's contours, for selected owners only. */
  function StructureGraphics(cs: seq<Contour>, sel: seq<StructureLayer>, geo: Geometry,
                             project: (ContourGeom, Geometry) -> Option<Shape>, ls: seq<Listener>): seq<Graphic>
  {
    if cs == [] then []
    else
      var c := cs[|cs| - 1];
      var p := project(c.geom, geo);
      StructureGraphics(cs[..|cs| - 1], sel, geo, project, ls)
        + (if ContainsStructure(sel, c.owner.structure) && p.Some? then [StructStyled(p.value, c.owner, ls)] else [])
  }

  /** Does the case hold anything for the slice: contours of its instance or a first dose? */
  predicate HasRtData(rt: RtCase, sl: DicomSlice)
  {
    sl.uid in rt.data.contourMap || FirstDose(rt).Some?
  }

  /** The RT graphics of a slice: all isodose graphics, then all structure graphics. */
  function RtGraphics(rt: RtCase, selS: seq<StructureLayer>, selI: seq<IsoDoseLayer>, sl: DicomSlice,
                      project: (ContourGeom, Geometry) -> Option<Shape>, ls: seq<Listener>): seq<Graphic>
  {
    (match FirstDose(rt)
     case Some(d) => IsoDoseGraphics(d.isoDoseSet, selI, sl.z, sl.geometry, project, ls)
     case None => [])
    + (if sl.uid in rt.data.contourMap
       then StructureGraphics(rt.data.contourMap[sl.uid], selS, sl.geometry, project, ls)
       else [])
  }

  /** The model's graphics after a resolution pass over prior graphics. */
  function Resolved(prior: seq<Graphic>, rt: RtCase, selS: seq<StructureLayer>, selI: seq<IsoDoseLayer>,
                    sl: DicomSlice, project: (ContourGeom, Geometry) -> Option<Shape>, ls: seq<Listener>): seq<Graphic>
  {
    WithoutKind(prior, DicomRt) + RtGraphics(rt, selS, selI, sl, project, ls)
  }

  // ---------------------------------------------------------------------
  // The overlay model, the image and the view

  /** The per-image overlay model (GraphicModel): its graphics and its graphics listeners. */
  class GraphicModel {
    var graphics: seq<Graphic>
    var listeners: seq<Listener>

    /** new XmlGraphicModel(image): no graphics, no listeners. */
    constructor ()
      ensures graphics == [] && listeners == []
    {
      graphics := [];
      listeners := [];
    }

    /** deleteByLayerType: drops the graphics of one kind, keeps the rest in order. */
    method DeleteByLayerType(kind: LayerKind)
      modifies this
      ensures graphics == WithoutKind(old(graphics), kind)
      ensures listeners == old(listeners)
    {
      graphics := WithoutKind(graphics, kind);
    }

    /** addGraphic: appends one graphic. */
    method AddGraphic(g: Graphic)
      modifies this
      ensures graphics == old(graphics) + [g]
      ensures listeners == old(listeners)
    {
      graphics := graphics + [g];
    }
  }

  /** A displayed image: a DICOM slice or some other image, and its presentation model. */
  class ImageElement {
    const slice: Option<DicomSlice>
    var presentationModel: GraphicModel?

    constructor (slice: Option<DicomSlice>, presentationModel: GraphicModel?)
      ensures this.slice == slice && this.presentationModel == presentationModel
    {
      this.slice := slice;
      this.presentationModel := presentationModel;
    }
  }

  /** A view canvas: its current image and a count of repaint requests. */
  class ViewCanvas {
    var image: ImageElement?
    var repaints: nat

    constructor (image: ImageElement?)
      ensures this.image == image && repaints == 0
    {
      this.image := image;
      repaints := 0;
    }
  }

  /** The overlay model of v's image, if any. */
  function ModelOf(v: ViewCanvas): GraphicModel?
    reads v, v.image
  {
    if v.image == null then null else v.image.presentationModel
  }

  /** Will showGraphic act on v: a case, a DICOM slice and RT data for that slice? */
  predicate Acts(rt: Option<RtCase>, v: ViewCanvas)
    reads v, v.image
  {
    rt.Some? && v.image != null && v.image.slice.Some? && HasRtData(rt.value, v.image.slice.value)
  }

  /** The prior graphics a pass starts from: none when v's image has no model yet. */
  function PriorGraphics(v: ViewCanvas): seq<Graphic>
    reads v, v.image, ModelOf(v)
  {
    if ModelOf(v) == null then [] else ModelOf(v).graphics
  }

  /** The listeners a pass attaches: those of the existing model, none for a new one. */
  function PriorListeners(v: ViewCanvas): seq<Listener>
    reads v, v.image, ModelOf(v)
  {
    if ModelOf(v) == null then [] else ModelOf(v).listeners
  }

  /** showGraphic: resolve the RT graphics of the slice shown by v. */
  method ShowGraphic(rt: Option<RtCase>, selS: seq<StructureLayer>, selI: seq<IsoDoseLayer>, v: ViewCanvas,
                     project: (ContourGeom, Geometry) -> Option<Shape>)
    modifies v, v.image, ModelOf(v)
    ensures v.image == old(v.image)
    ensures !old(Acts(rt, v)) ==>
      v.repaints == old(v.repaints) && ModelOf(v) == old(ModelOf(v))
      && (ModelOf(v) != null ==> unchanged(ModelOf(v)))
    ensures old(Acts(rt, v)) ==>
      var m := ModelOf(v);
      m != null && v.repaints == old(v.repaints) + 1
      && (old(ModelOf(v)) == null ==> fresh(m) && m.listeners == [])
      && (old(ModelOf(v)) != null ==> m == old(ModelOf(v)) && m.listeners == old(m.listeners))
      && m.graphics == Resolved(old(PriorGraphics(v)), rt.value, selS, selI, v.image.slice.value, project, m.listeners)
  {
    if rt.None? {
      return;
    }
    var img := v.image;
    if img == null || img.slice.None? {
      return;
    }
    var sl := img.slice.value;
    var contours: Option<seq<Contour>> := None;
    if sl.uid in rt.value.data.contourMap {
      contours := Some(rt.value.data.contourMap[sl.uid]);
    }
    var plan := rt.value.data.firstPlan;
    var dose: Option<Dose> := None;
    if plan.Some? {
      dose := plan.value.firstDose;
    }
    if contours.Some? || dose.Some? {
      ResolveModel(img, rt.value, selS, selI, sl, project);
      v.repaints := v.repaints + 1;
    }
  }

  /** The part of showGraphic that acts: get or create the model, replace its RT graphics. */
  method ResolveModel(img: ImageElement, rt: RtCase, selS: seq<StructureLayer>, selI: seq<IsoDoseLayer>,
                      sl: DicomSlice, project: (ContourGeom, Geometry) -> Option<Shape>)
    modifies img, img.presentationModel
    ensures img.presentationModel != null
    ensures old(img.presentationModel) == null ==>
      fresh(img.presentationModel) && img.presentationModel.listeners == []
    ensures old(img.presentationModel) != null ==>
      img.presentationModel == old(img.presentationModel)
      && img.presentationModel.listeners == old(img.presentationModel.listeners)
    ensures img.presentationModel.graphics ==
      Resolved(old(if img.presentationModel == null then [] else img.presentationModel.graphics),
               rt, selS, selI, sl, project, img.presentationModel.listeners)
  {
    ghost var prior := if img.presentationModel == null then [] else img.presentationModel.graphics;
    var model := PrepareModel(img);
    assert model.graphics == WithoutKind(prior, DicomRt);
    AddRtGraphics(model, rt, selS, selI, sl, project);
  }

  /** The two loops of showGraphic: the isodose graphics of the first dose, then the
      structure graphics of the slice's contours. */
  method AddRtGraphics(model: GraphicModel, rt: RtCase, selS: seq<StructureLayer>, selI: seq<IsoDoseLayer>,
                       sl: DicomSlice, project: (ContourGeom, Geometry) -> Option<Shape>)
    modifies model
    ensures model.listeners == old(model.listeners)
    ensures model.graphics == old(model.graphics) + RtGraphics(rt, selS, selI, sl, project, model.listeners)
  {
    ghost var ls := model.listeners;
    ghost var base := model.graphics;
    ghost var iso := match FirstDose(rt)
      case Some(d) => IsoDoseGraphics(d.isoDoseSet, selI, sl.z, sl.geometry, project, ls)
      case None => [];
    ghost var str := if sl.uid in rt.data.contourMap
      then StructureGraphics(rt.data.contourMap[sl.uid], selS, sl.geometry, project, ls)
      else [];
    var dose := FirstDose(rt);
    if dose.Some? {
      AddIsoDoseGraphics(model, dose.value.isoDoseSet, selI, sl.z, sl.geometry, project);
    }
    assert model.graphics == base + iso;
    if sl.uid in rt.data.contourMap {
      AddStructureGraphics(model, rt.data.contourMap[sl.uid], selS, sl.geometry, project);
    }
    assert model.graphics == (base + iso) + str;
    assert RtGraphics(rt, selS, selI, sl, project, ls) == iso + str;
  }

  /** Get or create the image's model; an existing one loses its RT graphics. */
  method PrepareModel(img: ImageElement) returns (model: GraphicModel)
    modifies img, img.presentationModel
    ensures model == img.presentationModel
    ensures old(img.presentationModel) == null ==> fresh(model) && model.graphics == [] && model.listeners == []
    ensures old(img.presentationModel) != null ==>
      model == old(img.presentationModel) && model.listeners == old(model.listeners)
      && model.graphics == WithoutKind(old(model.graphics), DicomRt)
  {
    var existing := img.presentationModel;
    if existing == null {
      model := new GraphicModel();
      img.presentationModel := model;
    } else {
      model := existing;
      model.DeleteByLayerType(DicomRt);
    }
  }

  /** The listener loop: a projected graphic gets every listener of the model, in order. */
  method AttachListeners(g: Graphic, ls: seq<Listener>) returns (r: Graphic)
    ensures r == g.(listeners := g.listeners + ls)
  {
    r := g;
    for k := 0 to |ls|
      invariant r == g.(listeners := g.listeners + ls[..k])
    {
      r := r.(listeners := r.listeners + [ls[k]]);
      assert ls[..k + 1] == ls[..k] + [ls[k]];
    }
    assert ls[..|ls|] == ls;
  }

  /** The isodose part of showGraphic: the loop over the dose's layers and their contours at z. */
  method AddIsoDoseGraphics(model: GraphicModel, layers: seq<IsoDoseLayer>, sel: seq<IsoDoseLayer>, z: ZKey,
                            geo: Geometry, project: (ContourGeom, Geometry) -> Option<Shape>)
    modifies model
    ensures model.listeners == old(model.listeners)
    ensures model.graphics == old(model.graphics) + IsoDoseGraphics(layers, sel, z, geo, project, model.listeners)
  {
    var ls := model.listeners;
    ghost var g0 := model.graphics;
    for i := 0 to |layers|
      invariant model.listeners == ls
      invariant model.graphics == g0 + IsoDoseGraphics(layers[..i], sel, z, geo, project, ls)
    {
      ghost var before := IsoDoseGraphics(layers[..i], sel, z, geo, project, ls);
      AddLayerGraphics(model, layers[i], sel, z, geo, project);
      assert layers[..i + 1][..i] == layers[..i];
      assert IsoDoseGraphics(layers[..i + 1], sel, z, geo, project, ls)
          == before + LayerIsoGraphics(layers[i], sel, z, geo, project, ls);
    }
    assert layers[..|layers|] == layers;
  }

  /** One iteration of that loop: a selected isodose with contours at z adds their graphics. */
  method AddLayerGraphics(model: GraphicModel, il: IsoDoseLayer, sel: seq<IsoDoseLayer>, z: ZKey,
                          geo: Geometry, project: (ContourGeom, Geometry) -> Option<Shape>)
    modifies model
    ensures model.listeners == old(model.listeners)
    ensures model.graphics == old(model.graphics) + LayerIsoGraphics(il, sel, z, geo, project, model.listeners)
  {
    if ContainsIsoDose(sel, il.isoDose) && z in il.isoDose.planes {
      AddIsoContourGraphics(model, il, il.isoDose.planes[z], geo, project);
    } else {
      assert old(model.graphics) + [] == old(model.graphics);
    }
  }

  /** The inner isodose loop: the graphics of one isodose's contours at the slice. */
  method AddIsoContourGraphics(model: GraphicModel, il: IsoDoseLayer, cs: seq<ContourGeom>, geo: Geometry,
                               project: (ContourGeom, Geometry) -> Option<Shape>)
    modifies model
    ensures model.listeners == old(model.listeners)
    ensures model.graphics == old(model.graphics) + IsoContourGraphics(cs, il, geo, project, model.listeners)
  {
    var ls := model.listeners;
    for j := 0 to |cs|
      invariant model.listeners == ls
      invariant model.graphics == old(model.graphics) + IsoContourGraphics(cs[..j], il, geo, project, ls)
    {
      var p := project(cs[j], geo);
      if p.Some? {
        var g := Graphic(p.value, DicomRt, il.layer, il.isoDose.thickness, il.isoDose.color, true, []);
        g := AttachListeners(g, model.listeners);
        assert g == IsoStyled(p.value, il, ls);
        model.AddGraphic(g);
      }
      assert cs[..j + 1][..j] == cs[..j];
      assert cs[..j + 1][j] == cs[j];
    }
    assert cs[..|cs|] == cs;
  }

  /** The structure part of showGraphic: the loop over the instance's contours. */
  method AddStructureGraphics(model: GraphicModel, cs: seq<Contour>, sel: seq<StructureLayer>,
                              geo: Geometry, project: (ContourGeom, Geometry) -> Option<Shape>)
    modifies model
    ensures model.listeners == old(model.listeners)
    ensures model.graphics == old(model.graphics) + StructureGraphics(cs, sel, geo, project, model.listeners)
  {
    var ls := model.listeners;
    for k := 0 to |cs|
      invariant model.listeners == ls
      invariant model.graphics == old(model.graphics) + StructureGraphics(cs[..k], sel, geo, project, ls)
    {
      var c := cs[k];
      var structLayer := c.owner;
      var structure := structLayer.structure;
      if ContainsStructure(sel, structure) {
        var p := project(c.geom, geo);
        if p.Some? {
          var filled := true;
          if structure.interpretedType == "EXTERNAL" {
            filled := false;
          }
          var g := Graphic(p.value, DicomRt, structLayer.layer, structure.thickness, structure.color, filled, []);
          g := AttachListeners(g, model.listeners);
          assert g == StructStyled(p.value, structLayer, ls);
          model.AddGraphic(g);
        }
      }
      assert cs[..k + 1][..k] == cs[..k];
      assert cs[..k + 1][k] == cs[k];
    }
    assert cs[..|cs|] == cs;
  }
}

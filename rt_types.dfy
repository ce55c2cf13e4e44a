/**
  The vocabulary shared by the RT display tool: structures, isodoses, the
  layers that wrap them, plans, doses and the RT case (the "RtSet").
  Everything whose content comes from DICOM parsing or floating-point
  geometry is an opaque type compared only by equality.
 */
module RtTypes {

  datatype Option<+T> = None | Some(value: T)

  /** A DICOM RT special element or image of a related series (MediaElement). */
  type Element(==, !new)
  /** A structure-set or plan selector (RtSpecialElement shown in a combo box). */
  type Selector(==, !new)
  /** The rendering-layer handle that groups graphics on a canvas. */
  type LayerHandle(==, !new)
  /** A colour (java.awt.Color). */
  type Paint(==, !new)
  /** A line thickness (the source's double, cast to float). */
  type Thickness(==, !new)
  /** A dose level; the source compares levels with exact equality. */
  type Level(==, !new)
  /** The z coordinate of a slice's top-left-hand corner, matched exactly. */
  type ZKey(==, !new)
  /** The 3D geometry of one contour polygon. */
  type ContourGeom(==, !new)
  /** The 2D spatial geometry of a displayed slice (GeometryOfSlice). */
  type Geometry(==, !new)
  /** The 2D shape of a projected graphic. */
  type Shape(==, !new)
  /** A property-change listener registered on an overlay model. */
  type Listener(==, !new)

  datatype Structure = Structure(
    roiNumber: int,
    roiName: string,
    color: Paint,
    thickness: Thickness,
    interpretedType: string)

  datatype StructureLayer = StructureLayer(structure: Structure, layer: LayerHandle)

  datatype IsoDose = IsoDose(
    level: Level,
    isoLabel: string,
    color: Paint,
    thickness: Thickness,
    planes: map<ZKey, seq<ContourGeom>>)

  datatype IsoDoseLayer = IsoDoseLayer(isoDose: IsoDose, layer: LayerHandle)

  /** A structure contour of an image instance, tagged with its owning layer. */
  datatype Contour = Contour(geom: ContourGeom, owner: StructureLayer)

  /** A dose: its isodose layers in the iteration order of its level map. */
  datatype Dose = Dose(isoDoseSet: seq<IsoDoseLayer>)

  datatype Plan = Plan(firstDose: Option<Dose>)

  /** What an RT case exposes once built (and, after loading, reloaded). */
  datatype RtData = RtData(
    contourMap: map<string, seq<Contour>>,
    structures: map<Selector, seq<StructureLayer>>,
    plans: map<Selector, Plan>,
    firstStructure: Option<Selector>,
    firstPlanKey: Option<Selector>,
    firstPlan: Option<Plan>)

  /** An RT case: the related elements it was built from and its data. */
  datatype RtCase = RtCase(elements: seq<Element>, data: RtData)

  /** The first dose of the first plan, if both exist. */
  function FirstDose(rt: RtCase): (d: Option<Dose>)
    ensures d.Some? <==> rt.data.firstPlan.Some? && rt.data.firstPlan.value.firstDose.Some?
  {
    match rt.data.firstPlan
    case None => None
    case Some(p) => p.firstDose
  }

  /** The structure layers of one structure set; None for an unknown selector. */
  function StructureSet(rt: RtCase, sel: Selector): (r: Option<seq<StructureLayer>>)
    ensures r.Some? <==> sel in rt.data.structures
    ensures r.Some? ==> r.value == rt.data.structures[sel]
  {
    if sel in rt.data.structures then Some(rt.data.structures[sel]) else None
  }
}

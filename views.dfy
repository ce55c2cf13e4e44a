/**
  The loop over the image panels of the selected view container: one
  showGraphic pass per view, in order.  Several views may show the same
  image and then share its overlay model; the second pass over a shared
  model changes nothing, because a resolution pass is idempotent.
 */
module Views {
  import opened RtTypes
  import opened Overlay
  import opened OverlayProps

  /** Everything a pass over the views may change: the views, their images and their models. */
  ghost function ViewsFrame(views: seq<ViewCanvas>): set<object>
    reads set v | v in views
    reads set v | v in views && v.image != null :: v.image
  {
    (set v | v in views :: v as object)
    + (set v | v in views && v.image != null :: v.image as object)
    + (set v | v in views && ModelOf(v) != null :: ModelOf(v) as object)
  }

  /** Views that show different images do not share an overlay model. */
  ghost predicate DistinctModels(views: seq<ViewCanvas>)
    reads set v | v in views
    reads set v | v in views && v.image != null :: v.image
  {
    forall j, k ::
      (0 <= j < |views| && 0 <= k < |views| && views[j].image != views[k].image && ModelOf(views[j]) != null)
      ==> ModelOf(views[j]) != ModelOf(views[k])
  }

  /** No two views show the same image (views without an image aside). */
  ghost predicate SeparateImages(views: seq<ViewCanvas>)
    reads set v | v in views
  {
    forall j, k :: 0 <= j < |views| && 0 <= k < |views| && j != k && views[j].image != null ==>
      views[j].image != views[k].image
  }

  /** Acts, for a case that is present, read off the image alone. */
  predicate ActsOn(rt: RtCase, img: ImageElement?)
  {
    img != null && img.slice.Some? && HasRtData(rt, img.slice.value)
  }

  /** v's model holds one resolution pass over the prior state (m0, g0, l0) of that model. */
  ghost predicate Resolves(v: ViewCanvas, m0: GraphicModel?, g0: seq<Graphic>, l0: seq<Listener>,
                           rt: RtCase, selS: seq<StructureLayer>, selI: seq<IsoDoseLayer>,
                           project: (ContourGeom, Geometry) -> Option<Shape>)
    reads v, v.image, ModelOf(v)
  {
    v.image != null && v.image.slice.Some? && ModelOf(v) != null
    && (m0 == null ==> ModelOf(v).listeners == [])
    && (m0 != null ==> ModelOf(v) == m0 && ModelOf(v).listeners == l0)
    && ModelOf(v).graphics == Resolved(g0, rt, selS, selI, v.image.slice.value, project, ModelOf(v).listeners)
  }

  /** v's model is still the prior one (m0), with its prior graphics and listeners. */
  ghost predicate Keeps(v: ViewCanvas, m0: GraphicModel?, g0: seq<Graphic>, l0: seq<Listener>)
    reads v, v.image, ModelOf(v)
  {
    ModelOf(v) == m0 && (m0 != null ==> m0.graphics == g0 && m0.listeners == l0)
  }

  /** Was the image of view k already shown by one of the first i views? */
  ghost predicate SeenBefore(imgs: seq<ImageElement?>, i: int, k: int)
    requires 0 <= k < |imgs|
  {
    exists j :: 0 <= j < i && j < |imgs| && imgs[j] == imgs[k]
  }

  /** The state of the pass after the first i views, against the snapshots taken before it. */
  ghost predicate Progress(views: seq<ViewCanvas>, i: int, img0: seq<ImageElement?>, m0: seq<GraphicModel?>,
                           g0: seq<seq<Graphic>>, l0: seq<seq<Listener>>, rt: RtCase,
                           selS: seq<StructureLayer>, selI: seq<IsoDoseLayer>,
                           project: (ContourGeom, Geometry) -> Option<Shape>)
    requires |img0| == |m0| == |g0| == |l0| == |views|
    reads set v | v in views
    reads set v | v in views && v.image != null :: v.image
    reads set v | v in views && ModelOf(v) != null :: ModelOf(v)
  {
    (forall k :: 0 <= k < |views| ==> views[k].image == img0[k])
    && DistinctModels(views)
    && (forall k :: 0 <= k < |views| && ActsOn(rt, img0[k]) && SeenBefore(img0, i, k) ==>
          Resolves(views[k], m0[k], g0[k], l0[k], rt, selS, selI, project))
    && (forall k :: 0 <= k < |views| && !(ActsOn(rt, img0[k]) && SeenBefore(img0, i, k)) ==>
          Keeps(views[k], m0[k], g0[k], l0[k]))
  }

  /** The repaint counts after the first i views of a pass: each view that acts was repainted
      once for every time it occurs among those views. */
  ghost predicate Repainted(views: seq<ViewCanvas>, i: int, r0: seq<nat>, img0: seq<ImageElement?>, rt: RtCase)
    requires |r0| == |img0| == |views| && 0 <= i <= |views|
    reads set v | v in views
  {
    forall k :: 0 <= k < |views| ==>
      views[k].repaints == r0[k] + (if ActsOn(rt, img0[k]) then multiset(views[..i])[views[k]] else 0)
  }

  /** Snapshots agree on views that show the same image. */
  ghost predicate Coherent(img0: seq<ImageElement?>, m0: seq<GraphicModel?>,
                           g0: seq<seq<Graphic>>, l0: seq<seq<Listener>>)
  {
    |img0| == |m0| == |g0| == |l0|
    && (forall k :: 0 <= k < |img0| && img0[k] == null ==> m0[k] == null)
    && (forall k :: 0 <= k < |img0| && m0[k] == null ==> g0[k] == [] && l0[k] == [])
    && (forall j, k :: 0 <= j < |img0| && 0 <= k < |img0| && img0[j] == img0[k] ==>
          m0[j] == m0[k] && g0[j] == g0[k] && l0[j] == l0[k])
  }

  /** One iteration of the loop over the views: showGraphic on view i. */
  method ShowGraphicStep(rt: RtCase, selS: seq<StructureLayer>, selI: seq<IsoDoseLayer>, views: seq<ViewCanvas>,
                         i: int, ghost img0: seq<ImageElement?>, ghost m0: seq<GraphicModel?>,
                         ghost g0: seq<seq<Graphic>>, ghost l0: seq<seq<Listener>>,
                         project: (ContourGeom, Geometry) -> Option<Shape>)
    requires 0 <= i < |views| && Coherent(img0, m0, g0, l0) && |img0| == |views|
    requires Progress(views, i, img0, m0, g0, l0, rt, selS, selI, project)
    modifies views[i], views[i].image, ModelOf(views[i])
    ensures Progress(views, i + 1, img0, m0, g0, l0, rt, selS, selI, project)
    ensures views[i].repaints == old(views[i].repaints) + (if ActsOn(rt, img0[i]) then 1 else 0)
    ensures forall k :: 0 <= k < |views| && views[k] != views[i] ==> views[k].repaints == old(views[k].repaints)
    ensures forall k :: 0 <= k < |views| ==>
      ModelOf(views[k]) == old(ModelOf(views[k])) || (old(ModelOf(views[k])) == null && fresh(ModelOf(views[k])))
  {
    var v := views[i];
    ghost var img := v.image;
    ghost var before := ModelOf(v);
    ghost var prior := PriorGraphics(v);
    ghost var priorLs := PriorListeners(v);
    assert Keeps(v, m0[i], g0[i], l0[i]) ==> prior == g0[i] && priorLs == l0[i];
    ShowGraphic(Some(rt), selS, selI, v, project);
    ghost var after := ModelOf(v);
    assert Acts(Some(rt), v) == ActsOn(rt, img);
    forall k | 0 <= k < |views|
      ensures views[k].image == img0[k]
      ensures ModelOf(views[k]) == old(ModelOf(views[k])) || (old(ModelOf(views[k])) == null && fresh(ModelOf(views[k])))
      ensures ActsOn(rt, img0[k]) && SeenBefore(img0, i + 1, k) ==>
        Resolves(views[k], m0[k], g0[k], l0[k], rt, selS, selI, project)
      ensures !(ActsOn(rt, img0[k]) && SeenBefore(img0, i + 1, k)) ==> Keeps(views[k], m0[k], g0[k], l0[k])
    {
      if img0[k] == img {
        assert SeenBefore(img0, i + 1, k) by { assert 0 <= i < i + 1 && img0[i] == img0[k]; }
        if img != null {
          assert ModelOf(views[k]) == ModelOf(v);
          assert m0[k] == m0[i] && g0[k] == g0[i] && l0[k] == l0[i];
          assert SeenBefore(img0, i, k) == SeenBefore(img0, i, i);
          if ActsOn(rt, img) && SeenBefore(img0, i, k) {
            assert prior == Resolved(g0[k], rt, selS, selI, img.slice.value, project, priorLs);
            ResolveIdempotent(g0[k], rt, selS, selI, img.slice.value, project, after.listeners);
          }
        }
      } else {
        assert views[k] != v;
        assert SeenBefore(img0, i + 1, k) == SeenBefore(img0, i, k);
        if old(ModelOf(views[k])) != null {
          assert old(ModelOf(views[k])) != before;
        }
      }
    }
    assert DistinctModels(views) by {
      forall j, k | 0 <= j < |views| && 0 <= k < |views| && views[j].image != views[k].image
        && ModelOf(views[j]) != null
        ensures ModelOf(views[j]) != ModelOf(views[k])
      {
      }
    }
  }

  /** showGraphic on view i, and the repaint counts it leaves: one more on view i when it acts. */
  method ShowGraphicRepaintStep(rt: RtCase, selS: seq<StructureLayer>, selI: seq<IsoDoseLayer>, views: seq<ViewCanvas>,
                                i: int, ghost img0: seq<ImageElement?>, ghost m0: seq<GraphicModel?>,
                                ghost g0: seq<seq<Graphic>>, ghost l0: seq<seq<Listener>>, ghost r0: seq<nat>,
                                project: (ContourGeom, Geometry) -> Option<Shape>)
    requires 0 <= i < |views| && Coherent(img0, m0, g0, l0) && |img0| == |views|
    requires Progress(views, i, img0, m0, g0, l0, rt, selS, selI, project)
    requires |r0| == |views| && Repainted(views, i, r0, img0, rt)
    requires forall j, k :: 0 <= j < |views| && 0 <= k < |views| && views[j] == views[k] ==> r0[j] == r0[k]
    modifies views[i], views[i].image, ModelOf(views[i])
    ensures Progress(views, i + 1, img0, m0, g0, l0, rt, selS, selI, project)
    ensures Repainted(views, i + 1, r0, img0, rt)
    ensures forall k :: 0 <= k < |views| ==>
      ModelOf(views[k]) == old(ModelOf(views[k])) || (old(ModelOf(views[k])) == null && fresh(ModelOf(views[k])))
  {
    ShowGraphicStep(rt, selS, selI, views, i, img0, m0, g0, l0, project);
    assert views[..i + 1] == views[..i] + [views[i]];
    forall k | 0 <= k < |views|
      ensures views[k].repaints == r0[k] + (if ActsOn(rt, img0[k]) then multiset(views[..i + 1])[views[k]] else 0)
    {
      if views[k] == views[i] {
        assert r0[k] == r0[i] && img0[k] == img0[i];
      }
    }
  }

  /** The loop over the views: showGraphic on each, in order. */
  method ShowGraphicOnViews(rt: RtCase, selS: seq<StructureLayer>, selI: seq<IsoDoseLayer>, views: seq<ViewCanvas>,
                            project: (ContourGeom, Geometry) -> Option<Shape>)
    requires DistinctModels(views)
    modifies ViewsFrame(views)
    ensures forall k :: 0 <= k < |views| ==> views[k].image == old(views[k].image)
    ensures DistinctModels(views)
    ensures forall k :: 0 <= k < |views| && old(Acts(Some(rt), views[k])) ==>
      Resolves(views[k], old(ModelOf(views[k])), old(PriorGraphics(views[k])), old(PriorListeners(views[k])),
               rt, selS, selI, project)
    ensures forall k :: 0 <= k < |views| && !old(Acts(Some(rt), views[k])) ==>
      Keeps(views[k], old(ModelOf(views[k])), old(PriorGraphics(views[k])), old(PriorListeners(views[k])))
    ensures forall k :: 0 <= k < |views| && old(ModelOf(views[k])) == null && ModelOf(views[k]) != null ==>
      fresh(ModelOf(views[k]))
    ensures forall k :: 0 <= k < |views| ==>
      views[k].repaints == old(views[k].repaints) + (if old(Acts(Some(rt), views[k])) then multiset(views)[views[k]] else 0)
  {
    ghost var img0 := seq(|views|, k requires 0 <= k < |views| reads views => views[k].image);
    ghost var m0 := seq(|views|, k requires 0 <= k < |views| reads ViewsFrame(views) => ModelOf(views[k]));
    ghost var g0 := seq(|views|, k requires 0 <= k < |views| reads ViewsFrame(views) => PriorGraphics(views[k]));
    ghost var l0 := seq(|views|, k requires 0 <= k < |views| reads ViewsFrame(views) => PriorListeners(views[k]));
    ghost var r0 := seq(|views|, k requires 0 <= k < |views| reads views => views[k].repaints);
    SnapshotsCoherent(views, img0, m0, g0, l0);
    ProgressStart(views, img0, m0, g0, l0, rt, selS, selI, project);
    assert views[..0] == [];
    ShowGraphicLoop(rt, selS, selI, views, img0, m0, g0, l0, r0, project);
    ProgressDone(views, img0, m0, g0, l0, rt, selS, selI, project);
    assert views[..|views|] == views;
  }

  /** The loop itself, against the snapshots taken before it. */
  method ShowGraphicLoop(rt: RtCase, selS: seq<StructureLayer>, selI: seq<IsoDoseLayer>, views: seq<ViewCanvas>,
                         ghost img0: seq<ImageElement?>, ghost m0: seq<GraphicModel?>,
                         ghost g0: seq<seq<Graphic>>, ghost l0: seq<seq<Listener>>, ghost r0: seq<nat>,
                         project: (ContourGeom, Geometry) -> Option<Shape>)
    requires Coherent(img0, m0, g0, l0) && |img0| == |views|
    requires Progress(views, 0, img0, m0, g0, l0, rt, selS, selI, project)
    requires |r0| == |views| && Repainted(views, 0, r0, img0, rt)
    requires forall j, k :: 0 <= j < |views| && 0 <= k < |views| && views[j] == views[k] ==> r0[j] == r0[k]
    modifies ViewsFrame(views)
    ensures Progress(views, |views|, img0, m0, g0, l0, rt, selS, selI, project)
    ensures Repainted(views, |views|, r0, img0, rt)
    ensures forall k :: 0 <= k < |views| ==>
      ModelOf(views[k]) == m0[k] || (m0[k] == null && fresh(ModelOf(views[k])))
  {
    for i := 0 to |views|
      invariant Progress(views, i, img0, m0, g0, l0, rt, selS, selI, project)
      invariant Repainted(views, i, r0, img0, rt)
      invariant forall k :: 0 <= k < |views| ==>
        ModelOf(views[k]) == m0[k] || (m0[k] == null && fresh(ModelOf(views[k])))
    {
      assert views[i] in views;
      ShowGraphicRepaintStep(rt, selS, selI, views, i, img0, m0, g0, l0, r0, project);
    }
  }

  /** Before the loop no view has been seen, so each keeps its snapshot. */
  lemma ProgressStart(views: seq<ViewCanvas>, img0: seq<ImageElement?>, m0: seq<GraphicModel?>,
                      g0: seq<seq<Graphic>>, l0: seq<seq<Listener>>, rt: RtCase,
                      selS: seq<StructureLayer>, selI: seq<IsoDoseLayer>,
                      project: (ContourGeom, Geometry) -> Option<Shape>)
    requires |img0| == |m0| == |g0| == |l0| == |views|
    requires DistinctModels(views)
    requires forall k :: 0 <= k < |views| ==>
      img0[k] == views[k].image && m0[k] == ModelOf(views[k])
      && g0[k] == PriorGraphics(views[k]) && l0[k] == PriorListeners(views[k])
    ensures Progress(views, 0, img0, m0, g0, l0, rt, selS, selI, project)
  {
  }

  /** Snapshots of the views taken in one state agree on views that show the same image. */
  lemma SnapshotsCoherent(views: seq<ViewCanvas>, img0: seq<ImageElement?>, m0: seq<GraphicModel?>,
                          g0: seq<seq<Graphic>>, l0: seq<seq<Listener>>)
    requires |img0| == |m0| == |g0| == |l0| == |views|
    requires forall k :: 0 <= k < |views| ==>
      img0[k] == views[k].image && m0[k] == ModelOf(views[k])
      && g0[k] == PriorGraphics(views[k]) && l0[k] == PriorListeners(views[k])
    ensures Coherent(img0, m0, g0, l0)
  {
  }

  /** After the last view every view has been seen. */
  lemma ProgressDone(views: seq<ViewCanvas>, img0: seq<ImageElement?>, m0: seq<GraphicModel?>,
                     g0: seq<seq<Graphic>>, l0: seq<seq<Listener>>, rt: RtCase,
                     selS: seq<StructureLayer>, selI: seq<IsoDoseLayer>,
                     project: (ContourGeom, Geometry) -> Option<Shape>)
    requires |img0| == |m0| == |g0| == |l0| == |views|
    requires Progress(views, |views|, img0, m0, g0, l0, rt, selS, selI, project)
    ensures forall k :: 0 <= k < |views| && ActsOn(rt, img0[k]) ==>
      Resolves(views[k], m0[k], g0[k], l0[k], rt, selS, selI, project)
    ensures forall k :: 0 <= k < |views| && !ActsOn(rt, img0[k]) ==> Keeps(views[k], m0[k], g0[k], l0[k])
  {
    forall k | 0 <= k < |views|
      ensures SeenBefore(img0, |views|, k)
    {
      assert img0[k] == img0[k];
    }
  }
}

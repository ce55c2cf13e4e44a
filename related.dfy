/**
  Collecting the elements an RT case is built from: every special element
  of a series that shares the image's frame of reference or is an RTSTRUCT
  series, plus the RTDOSE images of a matching RTDOSE series and the CT
  images of a matching CT series.  The study/series hierarchy of the DICOM
  explorer is given as a sequence of studies, each a sequence of series.
 */
module Related {
  import opened RtTypes

  /** An image of a series with its Modality tag (None when absent). */
  datatype Media = Media(element: Element, modality: Option<string>)

  /** The part of a series that the filter reads. */
  datatype SeriesInfo = SeriesInfo(
    frameUid: Option<string>,
    modality: Option<string>,
    specialElements: seq<Element>,
    isDicomSeries: bool,
    medias: seq<Media>)

  /** Character.isWhitespace on the ASCII range. */
  predicate IsWhitespace(c: char)
  {
    c == ' ' || c == '\t' || c == '\n' || c == '\r' || c == '\U{B}' || c == '\U{C}'
    || ('\U{1C}' <= c <= '\U{1F}')
  }

  /** StringUtil.hasText: present and holding some non-whitespace character. */
  predicate HasText(s: Option<string>)
  {
    s.Some? && exists k :: 0 <= k < |s.value| && !IsWhitespace(s.value[k])
  }

  /** Does the series take part: same frame of reference, or an RTSTRUCT series? */
  predicate Matches(frameRef: string, s: SeriesInfo)
  {
    s.frameUid == Some(frameRef) || s.modality == Some("RTSTRUCT")
  }

  /** The images of ms whose own modality is mod, in order. */
  function MediasOf(ms: seq<Media>, mod: string): seq<Element>
  {
    if ms == [] then []
    else
      MediasOf(ms[..|ms| - 1], mod)
        + (if ms[|ms| - 1].modality == Some(mod) then [ms[|ms| - 1].element] else [])
  }

  /** What one series adds to the list. */
  function SeriesContribution(frameRef: string, s: SeriesInfo): seq<Element>
  {
    if !Matches(frameRef, s) then []
    else
      s.specialElements
        + (if s.modality == Some("RTDOSE") && s.isDicomSeries then MediasOf(s.medias, "RTDOSE") else [])
        + (if s.modality == Some("CT") && s.isDicomSeries then MediasOf(s.medias, "CT") else [])
  }

  /** The contributions of a study's series, in order. */
  function SeriesElements(frameRef: string, ss: seq<SeriesInfo>): seq<Element>
  {
    if ss == [] then []
    else SeriesElements(frameRef, ss[..|ss| - 1]) + SeriesContribution(frameRef, ss[|ss| - 1])
  }

  /** The contributions of all studies of the patient, in order. */
  function StudyElements(frameRef: string, studies: seq<seq<SeriesInfo>>): seq<Element>
  {
    if studies == [] then []
    else StudyElements(frameRef, studies[..|studies| - 1]) + SeriesElements(frameRef, studies[|studies| - 1])
  }

  /** The list getRelatedSpecialElements returns. */
  function RelatedElements(frameRef: Option<string>, studies: seq<seq<SeriesInfo>>): (r: seq<Element>)
    ensures !HasText(frameRef) ==> r == []
  {
    if HasText(frameRef) then StudyElements(frameRef.value, studies) else []
  }

  /** getRelatedSpecialElements: the loop over the patient's studies. */
  method GetRelatedSpecialElements(frameRef: Option<string>, studies: seq<seq<SeriesInfo>>)
    returns (list: seq<Element>)
    ensures list == RelatedElements(frameRef, studies)
  {
    list := [];
    if !HasText(frameRef) {
      return;
    }
    var ref := frameRef.value;
    for i := 0 to |studies|
      invariant list == StudyElements(ref, studies[..i])
    {
      var found := CollectSeries(ref, studies[i]);
      list := list + found;
      assert studies[..i + 1][..i] == studies[..i];
    }
    assert studies[..|studies|] == studies;
  }

  /** The loop over the series of one study. */
  method CollectSeries(ref: string, ss: seq<SeriesInfo>) returns (found: seq<Element>)
    ensures found == SeriesElements(ref, ss)
  {
    found := [];
    for j := 0 to |ss|
      invariant found == SeriesElements(ref, ss[..j])
    {
      var s := ss[j];
      if Matches(ref, s) {
        var doses: seq<Element> := [];
        var cts: seq<Element> := [];
        if s.modality == Some("RTDOSE") && s.isDicomSeries {
          doses := CollectMedias(s.medias, "RTDOSE");
        }
        if s.modality == Some("CT") && s.isDicomSeries {
          cts := CollectMedias(s.medias, "CT");
        }
        found := found + s.specialElements + doses + cts;
      }
      assert ss[..j + 1][..j] == ss[..j];
    }
    assert ss[..|ss|] == ss;
  }

  /** The inner loop over a series' images. */
  method CollectMedias(ms: seq<Media>, mod: string) returns (found: seq<Element>)
    ensures found == MediasOf(ms, mod)
  {
    found := [];
    for k := 0 to |ms|
      invariant found == MediasOf(ms[..k], mod)
    {
      if ms[k].modality == Some(mod) {
        found := found + [ms[k].element];
      }
      assert ms[..k + 1][..k] == ms[..k];
    }
    assert ms[..|ms|] == ms;
  }

  lemma {:induction false} MediasOfMembership(ms: seq<Media>, mod: string, e: Element)
    ensures e in MediasOf(ms, mod) <==> exists k :: 0 <= k < |ms| && ms[k] == Media(e, Some(mod))
  {
    if ms != [] {
      var init := ms[..|ms| - 1];
      MediasOfMembership(init, mod, e);
      assert forall k :: 0 <= k < |init| ==> init[k] == ms[k];
    }
  }

  lemma {:induction false} SeriesElementsMembership(ref: string, ss: seq<SeriesInfo>, e: Element)
    ensures e in SeriesElements(ref, ss) <==>
      exists j :: 0 <= j < |ss| && e in SeriesContribution(ref, ss[j])
  {
    if ss != [] {
      var init := ss[..|ss| - 1];
      SeriesElementsMembership(ref, init, e);
      assert forall j :: 0 <= j < |init| ==> init[j] == ss[j];
    }
  }

  lemma {:induction false} StudyElementsMembership(ref: string, studies: seq<seq<SeriesInfo>>, e: Element)
    ensures e in StudyElements(ref, studies) <==>
      exists i :: 0 <= i < |studies| && e in SeriesElements(ref, studies[i])
  {
    if studies != [] {
      var init := studies[..|studies| - 1];
      StudyElementsMembership(ref, init, e);
      assert forall i :: 0 <= i < |init| ==> init[i] == studies[i];
    }
  }

  /** An element is related exactly when the frame UID has text and some series that
      matches it (same frame of reference or RTSTRUCT) yields the element: one of its
      special elements, or an image of the series' own modality for RTDOSE and CT series. */
  lemma RelatedMembership(frameRef: Option<string>, studies: seq<seq<SeriesInfo>>, e: Element)
    ensures e in RelatedElements(frameRef, studies) <==>
      HasText(frameRef) &&
      exists i, j :: 0 <= i < |studies| && 0 <= j < |studies[i]| &&
        var s := studies[i][j];
        Matches(frameRef.value, s) &&
        (e in s.specialElements
         || (s.isDicomSeries && s.modality == Some("RTDOSE") && Media(e, Some("RTDOSE")) in s.medias)
         || (s.isDicomSeries && s.modality == Some("CT") && Media(e, Some("CT")) in s.medias))
  {
    if HasText(frameRef) {
      var ref := frameRef.value;
      StudyElementsMembership(ref, studies, e);
      forall i | 0 <= i < |studies|
        ensures e in SeriesElements(ref, studies[i]) <==>
          exists j :: 0 <= j < |studies[i]| && e in SeriesContribution(ref, studies[i][j])
      {
        SeriesElementsMembership(ref, studies[i], e);
      }
      forall s: SeriesInfo
        ensures e in SeriesContribution(ref, s) <==>
          Matches(ref, s) &&
          (e in s.specialElements
           || (s.isDicomSeries && s.modality == Some("RTDOSE") && Media(e, Some("RTDOSE")) in s.medias)
           || (s.isDicomSeries && s.modality == Some("CT") && Media(e, Some("CT")) in s.medias))
      {
        MediasOfMembership(s.medias, "RTDOSE", e);
        MediasOfMembership(s.medias, "CT", e);
      }
    }
  }
}

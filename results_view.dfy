/** The result panel (src/components/AnalysisResults.tsx): a pure mapping from an `AnalysisData`
    record and the preview image to what is shown. The view is kept as a record of the facts the
    markup exposes (texts, labels, which sections exist, rectangles and their opacities and hues),
    not as markup. Percentages are shown as they arrive: nothing is clamped. */
module ResultsView {
  import opened Records

  /** One metric card: the big number (also the progress bar's value) and its qualitative rating. */
  datatype Gauge = Gauge(value: int, rating: string)

  /** A rectangle placed by `left`/`top`/`width`/`height` percentages of the image. */
  datatype Rect = Rect(left: int, top: int, width: int, height: int)

  /** One heat-map overlay: its rectangle, the two gradient stops (hue, opacity), the border
      and glow opacities, the tooltip and the "N%" badge under it. */
  datatype RegionOverlay = RegionOverlay(
    rect: Rect,
    startHue: real, startOpacity: real,
    endHue: real, endOpacity: real,
    borderOpacity: real, glowOpacity: real,
    tooltip: string, badge: string)

  /** One line of the "Detected Regions" legend: the dot's hue and the text beside it. */
  datatype LegendEntry = LegendEntry(hue: real, text: string)

  datatype View = View(
    affirmativeIcon: bool,
    heading: string,
    speciesLine: Option<string>,
    description: string,
    camouflage: Gauge,
    confidence: Gauge,
    overallBadge: string,
    imageSource: string,
    boundingBox: Option<Rect>,
    overlays: seq<RegionOverlay>,
    legend: Option<seq<LegendEntry>>,
    adaptations: Option<seq<string>>)

  const DetectedHeading: string := "Camouflage Detected!"
  const NotDetectedHeading: string := "No Camouflage Detected"
  const TooltipSuffix: string := "% camouflage intensity"
  const LegendSuffix: string := "% intensity"
  const OverallSuffix: string := " Overall"

  /** The label under "Camouflage Level" (AnalysisResults.tsx:79-80). */
  function CamouflageLabel(v: int): (r: string)
    ensures r == "Excellent" <==> v >= 70
    ensures r == "Moderate" <==> 40 <= v < 70
    ensures r == "Low" <==> v < 40
  {
    if v >= 70 then "Excellent" else if v >= 40 then "Moderate" else "Low"
  }

  /** The label under "AI Confidence" (AnalysisResults.tsx:102-103). */
  function ConfidenceLabel(v: int): (r: string)
    ensures r == "Very High" <==> v >= 80
    ensures r == "High" <==> 60 <= v < 80
    ensures r == "Moderate" <==> v < 60
  {
    if v >= 80 then "Very High" else if v >= 60 then "High" else "Moderate"
  }

  /** The order of the bands: 0 for the lowest, 2 for the highest. */
  function CamouflageBand(rating: string): nat {
    if rating == "Excellent" then 2 else if rating == "Moderate" then 1 else 0
  }

  function ConfidenceBand(rating: string): nat {
    if rating == "Very High" then 2 else if rating == "High" then 1 else 0
  }

  /** A higher camouflage percentage never gets a lower band. */
  lemma CamouflageLabelMonotone(a: int, b: int)
    requires a <= b
    ensures CamouflageBand(CamouflageLabel(a)) <= CamouflageBand(CamouflageLabel(b))
  {
  }

  /** A higher confidence never gets a lower band. */
  lemma ConfidenceLabelMonotone(a: int, b: int)
    requires a <= b
    ensures ConfidenceBand(ConfidenceLabel(a)) <= ConfidenceBand(ConfidenceLabel(b))
  {
  }

  /** `${n}%`. */
  function Percent(n: int): string {
    IntToString(n) + "%"
  }

  // The intensity-to-style maps of AnalysisResults.tsx:159-164 and 189.

  function StartHue(intensity: int): real { 35.0 + intensity as real * 0.5 }
  function EndHue(intensity: int): real { 0.0 + intensity as real * 0.3 }
  function StartOpacity(intensity: int): real { intensity as real / 200.0 }
  function EndOpacity(intensity: int): real { intensity as real / 150.0 }
  function BorderOpacity(intensity: int): real { intensity as real / 100.0 }
  function GlowOpacity(intensity: int): real { intensity as real / 200.0 }

  /** Higher intensity never gives a weaker overlay or a lower legend hue. */
  lemma StyleMapsMonotone(a: int, b: int)
    requires a <= b
    ensures StartOpacity(a) <= StartOpacity(b) && EndOpacity(a) <= EndOpacity(b)
    ensures BorderOpacity(a) <= BorderOpacity(b) && GlowOpacity(a) <= GlowOpacity(b)
    ensures StartHue(a) <= StartHue(b) && EndHue(a) <= EndHue(b)
  {
  }

  /** For an intensity in [0,100] every opacity is in [0,1] and the legend hue in [35,85].
      Outside that range nothing is clamped. */
  lemma OpacitiesInRange(i: int)
    requires 0 <= i <= 100
    ensures 0.0 <= StartOpacity(i) <= 0.5 && 0.0 <= EndOpacity(i) <= 1.0
    ensures 0.0 <= BorderOpacity(i) <= 1.0 && 0.0 <= GlowOpacity(i) <= 0.5
    ensures 35.0 <= StartHue(i) <= 85.0
  {
  }

  function BoxRect(b: BoundingBox): Rect {
    Rect(b.x, b.y, b.width, b.height)
  }

  /** The overlay drawn for one region (AnalysisResults.tsx:151-171). */
  function Overlay(r: CamouflageRegion): RegionOverlay {
    RegionOverlay(
      Rect(r.x, r.y, r.width, r.height),
      StartHue(r.intensity), StartOpacity(r.intensity),
      EndHue(r.intensity), EndOpacity(r.intensity),
      BorderOpacity(r.intensity), GlowOpacity(r.intensity),
      r.description + ": " + IntToString(r.intensity) + TooltipSuffix,
      Percent(r.intensity))
  }

  /** `camouflageRegions.map(...)` of AnalysisResults.tsx:150: one overlay per region, in order,
      at the region's own position, badged with its intensity. */
  function Overlays(rs: seq<CamouflageRegion>): (os: seq<RegionOverlay>)
    ensures |os| == |rs|
    ensures forall i :: 0 <= i < |rs| ==> os[i] == Overlay(rs[i])
  {
    if rs == [] then [] else [Overlay(rs[0])] + Overlays(rs[1..])
  }

  /** The legend's lines (AnalysisResults.tsx:184-195): one per region, in order. */
  function LegendEntries(rs: seq<CamouflageRegion>): (es: seq<LegendEntry>)
    ensures |es| == |rs|
    ensures forall i :: 0 <= i < |rs| ==>
      es[i] == LegendEntry(StartHue(rs[i].intensity),
                           rs[i].description + " - " + IntToString(rs[i].intensity) + LegendSuffix)
  {
    if rs == [] then [] else
      [LegendEntry(StartHue(rs[0].intensity),
                   rs[0].description + " - " + IntToString(rs[0].intensity) + LegendSuffix)]
      + LegendEntries(rs[1..])
  }

  /** The regions property, with an absent one read as no regions. */
  function Regions(data: AnalysisData): seq<CamouflageRegion> {
    match data.camouflageRegions
    case None => []
    case Some(rs) => rs
  }

  /** `AnalysisResults({ data, imagePreview })`. */
  function Render(data: AnalysisData, imagePreview: string): (v: View)
    // Banner keyed on `detected`, species line only for a non-empty species.
    ensures v.heading == DetectedHeading <==> data.detected
    ensures v.heading == NotDetectedHeading <==> !data.detected
    ensures v.affirmativeIcon == data.detected
    ensures v.speciesLine.Some? <==> Truthy(data.species)
    ensures v.speciesLine.Some? ==> v.speciesLine.value == data.species.value
    ensures v.description == data.description && v.imageSource == imagePreview
    // Gauges show the raw values with their band labels.
    ensures v.camouflage == Gauge(data.camouflagePercentage, CamouflageLabel(data.camouflagePercentage))
    ensures v.confidence == Gauge(data.confidence, ConfidenceLabel(data.confidence))
    ensures v.overallBadge == Percent(data.camouflagePercentage) + OverallSuffix
    // One bounding rectangle exactly when a box is given, placed verbatim.
    ensures v.boundingBox.Some? <==> data.boundingBox.Some?
    ensures data.boundingBox.Some? ==> v.boundingBox.value == BoxRect(data.boundingBox.value)
    // One overlay per region in list order; a legend only for a non-empty list. Every overlay
    // and every legend line is the one drawn for its own region.
    ensures v.legend.Some? <==> |Regions(data)| > 0
    ensures v.overlays == Overlays(Regions(data))
    ensures v.legend.Some? ==> v.legend.value == LegendEntries(Regions(data))
    // Adaptations: a section only for a non-empty list, one entry per adaptation in order.
    ensures v.adaptations.Some? <==> |data.adaptations| > 0
    ensures v.adaptations.Some? ==> v.adaptations.value == data.adaptations
  {
    var rs := Regions(data);
    View(
      affirmativeIcon := data.detected,
      heading := if data.detected then DetectedHeading else NotDetectedHeading,
      speciesLine := if Truthy(data.species) then Some(data.species.value) else None,
      description := data.description,
      camouflage := Gauge(data.camouflagePercentage, CamouflageLabel(data.camouflagePercentage)),
      confidence := Gauge(data.confidence, ConfidenceLabel(data.confidence)),
      overallBadge := Percent(data.camouflagePercentage) + OverallSuffix,
      imageSource := imagePreview,
      boundingBox := match data.boundingBox case None => None case Some(b) => Some(BoxRect(b)),
      overlays := Overlays(rs),
      legend := if |rs| > 0 then Some(LegendEntries(rs)) else None,
      adaptations := if |data.adaptations| > 0 then Some(data.adaptations) else None)
  }

  /** The legend and the overlays describe the same regions: each legend line carries the hue of
      its overlay's first gradient stop. */
  lemma LegendMatchesOverlays(data: AnalysisData, imagePreview: string, i: int)
    requires Render(data, imagePreview).legend.Some?
    requires 0 <= i < |Render(data, imagePreview).overlays|
    ensures Render(data, imagePreview).legend.value[i].hue == Render(data, imagePreview).overlays[i].startHue
  {
  }

  /** The scenario of a leaf insect: positive banner, "Excellent" and "Very High", one box,
      one overlay badged "75%", one adaptation. */
  lemma LeafInsectScenario()
    ensures var v := Render(LeafInsect(), "preview");
      v.heading == DetectedHeading &&
      v.camouflage.rating == "Excellent" && v.confidence.rating == "Very High" &&
      v.boundingBox == Some(Rect(10, 10, 30, 40)) &&
      |v.overlays| == 1 && v.overlays[0].badge == "75%" &&
      v.adaptations == Some(["color matching"])
  {
    var d := LeafInsect();
    assert NatToString(75) == NatToString(7) + ['5'];
    assert Percent(75) == "75%";
    assert Render(d, "preview").overlays[0].badge == Percent(Regions(d)[0].intensity);
  }

  function LeafInsect(): AnalysisData {
    AnalysisData(
      detected := true,
      species := Some("Leaf insect"),
      camouflagePercentage := 82,
      confidence := 91,
      description := "...",
      adaptations := ["color matching"],
      boundingBox := Some(BoundingBox(10, 10, 30, 40)),
      camouflageRegions := Some([CamouflageRegion("wings", 75, 12, 12, 20, 15)]))
  }
}

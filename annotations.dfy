/**
 * The annotation builder (createAnnotations, scripts/main.js:116-130): turns
 * raw `{x, text, tickHeight?}` records into the descriptors handed to the
 * charting engine. A pure, order-preserving map.
 */
module AnnotationBuilder {
  import opened Optional
  import opened Text

  /** A raw annotation as authored: a date string, its text, an optional tick height. */
  datatype RawAnnotation = RawAnnotation(x: string, text: string, tickHeight: Option<int>)

  /** A built descriptor: the raw fields plus the engine's display settings. */
  datatype Descriptor = Descriptor(
    x: string,
    text: string,
    series: string,
    shortText: nat,
    width: nat,
    height: nat,
    cssClass: string,
    tickWidth: nat,
    tickHeight: int)

  const MarkerSize: nat := 24
  const DefaultTickWidth: nat := 2
  const DefaultTickHeight: int := 20

  /** The class that hides a marker's tooltip until it is hovered. */
  const HiddenClass: string := "tooltip-hidden"

  /** The class that marks the k-th annotation, and the selector key that finds it. */
  function MarkerClass(k: nat): (c: string)
    ensures ' ' !in c && c != ""
  {
    "annotation-" + Decimal(k)
  }

  /** `annotation.tickHeight || 20`: an absent or zero tick height is falsy. */
  function TickHeightOrDefault(tickHeight: Option<int>): int {
    match tickHeight
    case None => DefaultTickHeight
    case Some(h) => if h != 0 then h else DefaultTickHeight
  }

  /** The descriptor built for the raw annotation at position i. */
  function Describe(series: string, raw: RawAnnotation, i: nat): (d: Descriptor)
    ensures ClassList(d.cssClass) == {HiddenClass, MarkerClass(i + 1)}
  {
    TwoClassNames(HiddenClass, MarkerClass(i + 1));
    Descriptor(
      x := raw.x,
      text := raw.text,
      series := series,
      shortText := i + 1,
      width := MarkerSize,
      height := MarkerSize,
      cssClass := HiddenClass + " " + MarkerClass(i + 1),
      tickWidth := DefaultTickWidth,
      tickHeight := TickHeightOrDefault(raw.tickHeight))
  }

  function CreateAnnotations(series: string, raws: seq<RawAnnotation>): (r: seq<Descriptor>)
    ensures |r| == |raws|
    ensures forall i :: 0 <= i < |r| ==>
      r[i].x == raws[i].x && r[i].text == raws[i].text && r[i].series == series
    ensures forall i :: 0 <= i < |r| ==>
      r[i].shortText == i + 1 && r[i].width == 24 && r[i].height == 24 && r[i].tickWidth == 2
    ensures forall i :: 0 <= i < |r| ==>
      ClassList(r[i].cssClass) == {"tooltip-hidden", MarkerClass(i + 1)}
    ensures forall i :: 0 <= i < |r| && raws[i].tickHeight in {None, Some(0)} ==>
      r[i].tickHeight == 20
    ensures forall i :: 0 <= i < |r| && raws[i].tickHeight.Some? && raws[i].tickHeight.value != 0 ==>
      r[i].tickHeight == raws[i].tickHeight.value
  {
    seq(|raws|, i requires 0 <= i < |raws| => Describe(series, raws[i], i))
  }

  /**
   * The selector `.annotation-k` matches the marker of descriptor i exactly
   * when k == i + 1: the index is the one correlation key between a
   * descriptor and its marker, and no two descriptors share it.
   */
  lemma SelectorMatchesOnlyItsDescriptor(series: string, raws: seq<RawAnnotation>, i: nat, k: nat)
    requires i < |raws|
    ensures MarkerClass(k) in ClassList(CreateAnnotations(series, raws)[i].cssClass) <==> k == i + 1
  {
    var r := CreateAnnotations(series, raws);
    assert ClassList(r[i].cssClass) == {HiddenClass, MarkerClass(i + 1)};
    assert MarkerClass(k)[0] != HiddenClass[0];
    if MarkerClass(k) == MarkerClass(i + 1) {
      assert Decimal(k) == MarkerClass(k)[11..];
      assert Decimal(i + 1) == MarkerClass(i + 1)[11..];
      DecimalInjective(k, i + 1);
    }
  }
}

/** The traffic chart's annotation list (scripts/main.js:176-182). */
module TrafficAnnotations {
  import opened Optional
  import opened AnnotationBuilder

  const Raw: seq<RawAnnotation> := [
    RawAnnotation("2025/03/22", "Minecraft LIVE \U{2013} March is held", Some(70)),
    RawAnnotation("2025/03/25", "Spring to Life is released", Some(70)),
    RawAnnotation("2025/06/17", "Chase the Skies is released", None),
    RawAnnotation("2025/09/27", "Minecraft LIVE \U{2013} September is held", Some(50)),
    RawAnnotation("2025/12/09", "Mounts of Mayhem is released", None)
  ]

  /** The third entry, authored without a tick height, is marker 3 with the default tick height 20. */
  lemma ChaseTheSkiesDescriptor()
    ensures var d := CreateAnnotations("Pageviews", Raw)[2];
      && d.shortText == 3 && d.tickHeight == 20 && d.width == 24 && d.height == 24
      && d.x == "2025/06/17" && d.text == "Chase the Skies is released" && d.series == "Pageviews"
  {
  }
}

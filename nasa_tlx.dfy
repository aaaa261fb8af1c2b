/**
  The NASA-TLX workload section: eighteen integer ratings (six metrics for
  each of three needle-guidance techniques), the per-slider update rule, the
  table of six scales and the 21 marks drawn under every slider, and the form
  component that mirrors its parent's data and emits every change upward.
 */
module NasaTlx {

  /** The three needle-placement techniques rated side by side. */
  datatype Technique = Freehand | InPlaneGuide | OutOfPlaneGuide

  /** The six NASA-TLX dimensions. */
  datatype Metric = MentalDemand | PhysicalDemand | TemporalDemand | Performance | Effort | Frustration

  /** One technique's six ratings. */
  datatype Ratings = Ratings(
    mentalDemand: int,
    physicalDemand: int,
    temporalDemand: int,
    performance: int,
    effort: int,
    frustration: int)

  /** The whole section: one block of ratings per technique. */
  datatype NasaTlxData = NasaTlxData(freehand: Ratings, inPlaneGuide: Ratings, outOfPlaneGuide: Ratings)

  /** The key under which a technique is stored (and which the post-session questions offer). */
  function TechniqueKey(t: Technique): string {
    match t
    case Freehand => "freehand"
    case InPlaneGuide => "inPlaneGuide"
    case OutOfPlaneGuide => "outOfPlaneGuide"
  }

  /** Position of a technique among the three sliders of a scale. */
  function TechniqueIndex(t: Technique): nat {
    match t
    case Freehand => 0
    case InPlaneGuide => 1
    case OutOfPlaneGuide => 2
  }

  function Get(r: Ratings, m: Metric): int {
    match m
    case MentalDemand => r.mentalDemand
    case PhysicalDemand => r.physicalDemand
    case TemporalDemand => r.temporalDemand
    case Performance => r.performance
    case Effort => r.effort
    case Frustration => r.frustration
  }

  /** `{ ...prev, [metric]: x }` on one technique's ratings. */
  function Set(r: Ratings, m: Metric, x: int): (r': Ratings)
    ensures Get(r', m) == x
    ensures forall m' :: m' != m ==> Get(r', m') == Get(r, m')
  {
    match m
    case MentalDemand => r.(mentalDemand := x)
    case PhysicalDemand => r.(physicalDemand := x)
    case TemporalDemand => r.(temporalDemand := x)
    case Performance => r.(performance := x)
    case Effort => r.(effort := x)
    case Frustration => r.(frustration := x)
  }

  function Block(d: NasaTlxData, t: Technique): Ratings {
    match t
    case Freehand => d.freehand
    case InPlaneGuide => d.inPlaneGuide
    case OutOfPlaneGuide => d.outOfPlaneGuide
  }

  /** `{ ...prev, [technique]: r }` on the whole section. */
  function SetBlock(d: NasaTlxData, t: Technique, r: Ratings): (d': NasaTlxData)
    ensures Block(d', t) == r
    ensures forall t' :: t' != t ==> Block(d', t') == Block(d, t')
  {
    match t
    case Freehand => d.(freehand := r)
    case InPlaneGuide => d.(inPlaneGuide := r)
    case OutOfPlaneGuide => d.(outOfPlaneGuide := r)
  }

  /** The rating stored for technique t and metric m. */
  function Rating(d: NasaTlxData, t: Technique, m: Metric): int {
    Get(Block(d, t), m)
  }

  /** The section with all eighteen ratings at 0. */
  function AllZero(): (d: NasaTlxData)
    ensures forall t, m :: Rating(d, t, m) == 0
  {
    var z := Ratings(0, 0, 0, 0, 0, 0);
    NasaTlxData(z, z, z)
  }

  type NonEmptySeq = s: seq<int> | |s| > 0 witness [0]

  /** What a slider reports on change: a number, or an array of numbers for a range slider. */
  datatype SliderValue = Single(value: int) | Many(values: NonEmptySeq)

  /**
    `Array.isArray(v) ? v[0] : v`: the reported number, or the first entry of
    the reported array; a slider that reports positions on its grid yields a
    rating on the grid.
   */
  function NewRating(v: SliderValue): (r: int)
    ensures v.Single? ==> r == v.value
    ensures v.Many? ==> r == v.values[0] && r in v.values
    ensures SliderDelivers(v) ==> SliderPosition(r)
  {
    match v
    case Single(x) => x
    case Many(xs) => xs[0]
  }

  /**
    The updater passed to `setFormData` by the change handler of the slider
    for technique t and metric m: that one rating takes the reported value and
    the other seventeen keep theirs.
   */
  function HandleSliderChange(prev: NasaTlxData, t: Technique, m: Metric, v: SliderValue): (d: NasaTlxData)
    ensures Rating(d, t, m) == NewRating(v)
    ensures v.Many? ==> Rating(d, t, m) == v.values[0]
    ensures forall t', m' :: (t' != t || m' != m) ==> Rating(d, t', m') == Rating(prev, t', m')
  {
    SetBlock(prev, t, Set(Block(prev, t), m, NewRating(v)))
  }

  // ---------------------------------------------------------------------------
  // Slider range

  const SliderMin: int := 0
  const SliderMax: int := 20
  const SliderStep: int := 1

  /** A position the slider can report: within [min, max] and on the step grid. */
  predicate SliderPosition(x: int) {
    SliderMin <= x <= SliderMax && (x - SliderMin) % SliderStep == 0
  }

  predicate SliderDelivers(v: SliderValue) {
    match v
    case Single(x) => SliderPosition(x)
    case Many(xs) => forall i :: 0 <= i < |xs| ==> SliderPosition(xs[i])
  }

  /** Every one of the eighteen ratings is a slider position. */
  predicate AllOnScale(d: NasaTlxData) {
    forall t, m :: SliderPosition(Rating(d, t, m))
  }

  /** One user move of a slider. */
  datatype SliderChange = SliderChange(technique: Technique, metric: Metric, value: SliderValue)

  /** The local state after a sequence of slider moves. */
  function ApplyChanges(d: NasaTlxData, cs: seq<SliderChange>): NasaTlxData
    decreases |cs|
  {
    if cs == [] then d
    else ApplyChanges(HandleSliderChange(d, cs[0].technique, cs[0].metric, cs[0].value), cs[1..])
  }

  /** If the ratings start on the scale and every slider reports a slider position, they stay on it. */
  lemma {:induction false} ChangesStayOnScale(d: NasaTlxData, cs: seq<SliderChange>)
    requires AllOnScale(d)
    requires forall i :: 0 <= i < |cs| ==> SliderDelivers(cs[i].value)
    ensures AllOnScale(ApplyChanges(d, cs))
    decreases |cs|
  {
    if cs != [] {
      var c := cs[0];
      var d' := HandleSliderChange(d, c.technique, c.metric, c.value);
      forall t, m ensures SliderPosition(Rating(d', t, m)) {
        if t != c.technique || m != c.metric {
          assert Rating(d', t, m) == Rating(d, t, m);
        }
      }
      assert forall i :: 0 <= i < |cs[1..]| ==> cs[1..][i] == cs[i + 1];
      ChangesStayOnScale(d', cs[1..]);
    }
  }

  /** A sequence of moves that never touches slider (t, m) leaves that rating alone. */
  lemma {:induction false} UntouchedRatingKept(d: NasaTlxData, cs: seq<SliderChange>, t: Technique, m: Metric)
    requires forall i :: 0 <= i < |cs| ==> cs[i].technique != t || cs[i].metric != m
    ensures Rating(ApplyChanges(d, cs), t, m) == Rating(d, t, m)
    decreases |cs|
  {
    if cs != [] {
      var d' := HandleSliderChange(d, cs[0].technique, cs[0].metric, cs[0].value);
      assert forall i :: 0 <= i < |cs[1..]| ==> cs[1..][i] == cs[i + 1];
      UntouchedRatingKept(d', cs[1..], t, m);
    }
  }

  // ---------------------------------------------------------------------------
  // The six scales

  /** One row of the `scales` table (its question text is presentation only). */
  datatype Scale = Scale(name: string, minLabel: string, maxLabel: string, metric: Metric)

  const Scales: seq<Scale> := [
    Scale("Mental Demand", "Very Low", "Very High", MentalDemand),
    Scale("Physical Demand", "Very Low", "Very High", PhysicalDemand),
    Scale("Temporal Demand", "Very slow", "Very fast", TemporalDemand),
    Scale("Performance", "Very Poor Performance", "Excellent Performance", Performance),
    Scale("Effort", "No Effort Required", "Extreme Effort Required", Effort),
    Scale("Frustration", "Not Frustrated at all", "Extremely Frustrated", Frustration)
  ]

  /** The one row of `Scales` that drives metric m: every metric appears exactly once. */
  function ScaleIndex(m: Metric): (i: nat)
    ensures |Scales| == 6
    ensures i < |Scales| && Scales[i].metric == m
    ensures forall j :: 0 <= j < |Scales| && Scales[j].metric == m ==> j == i
  {
    match m
    case MentalDemand => 0
    case PhysicalDemand => 1
    case TemporalDemand => 2
    case Performance => 3
    case Effort => 4
    case Frustration => 5
  }

  // ---------------------------------------------------------------------------
  // Slider marks

  datatype MarkLabel = Unlabelled | Labelled(text: string)

  datatype Mark = Mark(value: int, caption: MarkLabel)

  /** `Array.from({ length: 21 }, (_, i) => ...)` for one scale. */
  function Marks(s: Scale): (ms: seq<Mark>)
    ensures |ms| == 21
    ensures forall i :: 0 <= i < |ms| ==> ms[i].value == i
    ensures ms[0].caption == Labelled(s.minLabel) && ms[20].caption == Labelled(s.maxLabel)
    ensures forall i :: 0 < i < 20 ==> ms[i].caption == Unlabelled
  {
    seq(21, i => Mark(i, if i == 0 then Labelled(s.minLabel) else if i == 20 then Labelled(s.maxLabel) else Unlabelled))
  }

  /** The marks stand exactly on the positions the slider can take. */
  lemma MarksAreSliderPositions(s: Scale, x: int)
    ensures (exists i :: 0 <= i < |Marks(s)| && Marks(s)[i].value == x) <==> SliderPosition(x)
  {
    var ms := Marks(s);
    if SliderPosition(x) {
      assert ms[x].value == x;
    }
  }

  /** The first and last marks carry the scale's end labels, in that order. */
  lemma MarkLabelsAtEnds(s: Scale, i: nat)
    requires i < |Marks(s)|
    ensures Marks(s)[i].caption.Labelled? <==> (i == SliderMin || i == SliderMax)
    ensures Marks(s)[i].caption.Labelled? ==>
      Marks(s)[i].caption.text == (if i == SliderMin then s.minLabel else s.maxLabel)
  {
  }

  // ---------------------------------------------------------------------------
  // Slider layout

  /** Which rating a slider edits. */
  datatype Slider = Slider(technique: Technique, metric: Metric)

  /** Each scale renders three sliders: freehand, in-plane guide, out-of-plane guide. */
  function ScaleSliders(s: Scale): (r: seq<Slider>)
    ensures |r| == 3
    ensures forall t :: r[TechniqueIndex(t)] == Slider(t, s.metric)
  {
    [Slider(Freehand, s.metric), Slider(InPlaneGuide, s.metric), Slider(OutOfPlaneGuide, s.metric)]
  }

  /** All sliders on the page, scale by scale. */
  function AllSliders(scales: seq<Scale>): seq<Slider>
    decreases |scales|
  {
    if scales == [] then [] else ScaleSliders(scales[0]) + AllSliders(scales[1..])
  }

  lemma {:induction false} AllSlidersAt(scales: seq<Scale>, i: nat, j: nat)
    requires i < |scales| && j < 3
    ensures |AllSliders(scales)| == 3 * |scales|
    ensures AllSliders(scales)[3 * i + j] == ScaleSliders(scales[i])[j]
    decreases |scales|
  {
    if i == 0 {
      AllSlidersLength(scales[1..]);
    } else {
      AllSlidersAt(scales[1..], i - 1, j);
    }
  }

  lemma {:induction false} AllSlidersLength(scales: seq<Scale>)
    ensures |AllSliders(scales)| == 3 * |scales|
    decreases |scales|
  {
    if scales != [] {
      AllSlidersLength(scales[1..]);
    }
  }

  /**
    The page lays out eighteen sliders and every rating (t, m) is driven by
    exactly one of them, the one at this index.
   */
  function SliderIndex(t: Technique, m: Metric): (k: nat)
    ensures |AllSliders(Scales)| == 18
    ensures k < |AllSliders(Scales)| && AllSliders(Scales)[k] == Slider(t, m)
    ensures forall j :: 0 <= j < |AllSliders(Scales)| && AllSliders(Scales)[j] == Slider(t, m) ==> j == k
  {
    AllSlidersLength(Scales);
    AllSlidersAt(Scales, ScaleIndex(m), TechniqueIndex(t));
    forall j | 0 <= j < |AllSliders(Scales)| && AllSliders(Scales)[j] == Slider(t, m)
      ensures j == 3 * ScaleIndex(m) + TechniqueIndex(t)
    {
      AllSlidersAt(Scales, j / 3, j % 3);
      var s := ScaleSliders(Scales[j / 3]);
      assert s[j % 3] == Slider(t, m);
      assert Scales[j / 3].metric == m;
      assert j % 3 == TechniqueIndex(t) by {
        if t == Freehand { assert s[0] == Slider(t, m); }
        else if t == InPlaneGuide { assert s[1] == Slider(t, m); }
        else { assert s[2] == Slider(t, m); }
      }
    }
    3 * ScaleIndex(m) + TechniqueIndex(t)
  }

  // ---------------------------------------------------------------------------
  // The form component

  /**
    The mounted workload form. Its local state starts as the parent's section
    and changes only through the slider handlers; each change is passed back
    to the parent as the whole three-technique object.
   */
  class Form {
    var formData: NasaTlxData

    constructor (initialData: NasaTlxData)
      ensures formData == initialData
    {
      formData := initialData;
    }

    /** The effect that hands the current local state to the parent. */
    method Emit() returns (emitted: NasaTlxData)
      ensures emitted == formData
    {
      emitted := formData;
    }

    /** A slider moved: update the local state and emit it. */
    method SliderMoved(t: Technique, m: Metric, v: SliderValue) returns (emitted: NasaTlxData)
      modifies this
      ensures formData == HandleSliderChange(old(formData), t, m, v)
      ensures emitted == formData
    {
      formData := HandleSliderChange(formData, t, m, v);
      emitted := Emit();
    }
  }
}

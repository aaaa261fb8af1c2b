/**
  The survey wizard: the authoritative response object, the current step,
  and the two submission flags. The handlers are modelled twice over, as one
  would write them: `Apply` gives the effect of each user or network event on
  a `WizardState` value and `Enabled` says when the rendered controls let it
  happen, and the class `Wizard` holds the four fields and updates them in
  place, each method proved to take the state to `Apply` of the old one.
 */
module Survey {
  import NasaTlx
  import Demographics
  import PostEval

  /** The stepper's labels; the post-evaluation step is the last one. */
  const Steps: seq<string> := ["Demographics", "NASA-TLX", "Post-Session Evaluation"]

  /** Index of the last step; a successful submission moves one past it. */
  const LastStep: int := |Steps| - 1

  datatype Section = DemographicsSection | NasaTlxSection | PostEvalSection

  /** What a section form emits: the whole record of its own section. */
  datatype SectionData =
    | OfDemographics(demographics: Demographics.DemographicsData)
    | OfNasaTlx(nasaTlx: NasaTlx.NasaTlxData)
    | OfPostEval(postEval: PostEval.PostEvalData)

  /** The section whose change callback passes this data on. */
  function SectionOf(data: SectionData): Section {
    match data
    case OfDemographics(_) => DemographicsSection
    case OfNasaTlx(_) => NasaTlxSection
    case OfPostEval(_) => PostEvalSection
  }

  datatype FormData = FormData(
    demographics: Demographics.DemographicsData,
    nasaTlx: NasaTlx.NasaTlxData,
    postEval: PostEval.PostEvalData)

  /** One section of the response object, as it is passed to that section's form. */
  function Read(f: FormData, s: Section): (data: SectionData)
    ensures SectionOf(data) == s
  {
    match s
    case DemographicsSection => OfDemographics(f.demographics)
    case NasaTlxSection => OfNasaTlx(f.nasaTlx)
    case PostEvalSection => OfPostEval(f.postEval)
  }

  /** `{ ...prev, [section]: data }`: the named section is replaced wholesale, the others are kept. */
  function Replace(f: FormData, data: SectionData): (r: FormData)
    ensures Read(r, SectionOf(data)) == data
    ensures forall s :: s != SectionOf(data) ==> Read(r, s) == Read(f, s)
  {
    match data
    case OfDemographics(d) => f.(demographics := d)
    case OfNasaTlx(n) => f.(nasaTlx := n)
    case OfPostEval(p) => f.(postEval := p)
  }

  /** Two response objects with the same three sections are equal. */
  lemma SectionsDetermineFormData(a: FormData, b: FormData)
    requires forall s :: Read(a, s) == Read(b, s)
    ensures a == b
  {
    assert Read(a, DemographicsSection) == Read(b, DemographicsSection);
    assert Read(a, NasaTlxSection) == Read(b, NasaTlxSection);
    assert Read(a, PostEvalSection) == Read(b, PostEvalSection);
  }

  /** Writing back a section's own current value changes nothing. */
  lemma ReplaceWithOwnSection(f: FormData, s: Section)
    ensures Replace(f, Read(f, s)) == f
  {
    SectionsDetermineFormData(Replace(f, Read(f, s)), f);
  }

  /** Of two replacements of the same section the later one wins, with nothing merged. */
  lemma ReplaceLastWins(f: FormData, a: SectionData, b: SectionData)
    requires SectionOf(a) == SectionOf(b)
    ensures Replace(Replace(f, a), b) == Replace(f, b)
  {
    SectionsDetermineFormData(Replace(Replace(f, a), b), Replace(f, b));
  }

  /** Replacements of different sections do not interfere. */
  lemma ReplacementsCommute(f: FormData, a: SectionData, b: SectionData)
    requires SectionOf(a) != SectionOf(b)
    ensures Replace(Replace(f, a), b) == Replace(Replace(f, b), a)
  {
    SectionsDetermineFormData(Replace(Replace(f, a), b), Replace(Replace(f, b), a));
  }

  /**
    The demographics record as the wizard creates it. It has `initials`, not
    `participantId`, which the form writes.
   */
  function InitialDemographics(): (d: Demographics.DemographicsData)
    ensures d.Keys == {"initials", Demographics.TrainingLevel, Demographics.UltrasoundExperience, Demographics.NeedlePlacements}
    ensures forall k :: k in d ==> d[k] == ""
    ensures "initials" !in Demographics.FormFields
    ensures Demographics.ParticipantId !in d && Demographics.OtherTrainingLevel !in d
    ensures Demographics.SelectionsValid(d) && !Demographics.ShowsOtherInput(d)
  {
    map["initials" := "", "trainingLevel" := "", "ultrasoundExperience" := "", "needlePlacements" := ""]
  }

  /** The response object the wizard starts from: every rating 0 and every answer empty. */
  function InitialFormData(): (f: FormData)
    ensures f.demographics == InitialDemographics()
    ensures forall t, m :: NasaTlx.Rating(f.nasaTlx, t, m) == 0
    ensures NasaTlx.AllOnScale(f.nasaTlx)
    ensures forall g :: PostEval.Get(f.postEval, g) == ""
  {
    FormData(InitialDemographics(), NasaTlx.AllZero(), PostEval.Empty())
  }

  /** The object handed to the submission client. */
  datatype SurveyResponse = SurveyResponse(
    demographics: Demographics.DemographicsData,
    nasaTlx: NasaTlx.NasaTlxData,
    postEval: PostEval.PostEvalData,
    timestamp: string)

  /** The response object a payload carries, without its timestamp. */
  function Sections(r: SurveyResponse): FormData {
    FormData(r.demographics, r.nasaTlx, r.postEval)
  }

  /**
    The payload of a submission: the three current sections, each whole, plus
    the timestamp taken at submission. The response object can be read back
    from it.
   */
  function Response(f: FormData, timestamp: string): (r: SurveyResponse)
    ensures Sections(r) == f && r.timestamp == timestamp
    ensures forall s :: Read(Sections(r), s) == Read(f, s)
  {
    SurveyResponse(f.demographics, f.nasaTlx, f.postEval, timestamp)
  }

  // ---------------------------------------------------------------------------
  // The state machine

  datatype WizardState = WizardState(activeStep: int, isSubmitting: bool, isSubmitted: bool, formData: FormData)

  /**
    The wizard as created: on the demographics step with Back disabled and
    Next offered, nothing in flight, holding the initial response object.
   */
  function Initial(): (w: WizardState)
    ensures WellFormed(w)
    ensures w.activeStep == 0 && !w.isSubmitting && !w.isSubmitted
    ensures w.formData == InitialFormData()
    ensures FormShown(w, DemographicsSection)
    ensures !BackEnabled(w) && PrimaryEnabled(w) && PrimaryActionOf(w) == CallsNext
  {
    WizardState(0, false, false, InitialFormData())
  }

  /**
    The states the wizard can be in: on one of the three steps and not yet
    submitted, submitting only from the last step; or submitted, one past the
    last step, with nothing in flight.
   */
  predicate WellFormed(w: WizardState) {
    if w.isSubmitted then w.activeStep == LastStep + 1 && !w.isSubmitting
    else 0 <= w.activeStep <= LastStep && (w.isSubmitting ==> w.activeStep == LastStep)
  }

  /** What `renderStepContent` puts above the buttons. */
  datatype Content = FormOf(section: Section) | NoContent

  function StepContent(step: int): (c: Content)
    ensures c.FormOf? <==> 0 <= step <= LastStep
    ensures step == LastStep ==> c == FormOf(PostEvalSection)
  {
    if step == 0 then FormOf(DemographicsSection)
    else if step == 1 then FormOf(NasaTlxSection)
    else if step == 2 then FormOf(PostEvalSection)
    else NoContent
  }

  /** The step content and the two buttons are rendered only until the survey is submitted. */
  predicate ControlsShown(w: WizardState) {
    !w.isSubmitted
  }

  /** The form of section s is mounted, so it can emit changes. */
  predicate FormShown(w: WizardState, s: Section) {
    ControlsShown(w) && StepContent(w.activeStep) == FormOf(s)
  }

  predicate BackEnabled(w: WizardState) {
    ControlsShown(w) && !(w.activeStep == 0 || w.isSubmitting)
  }

  predicate PrimaryEnabled(w: WizardState) {
    ControlsShown(w) && !w.isSubmitting
  }

  datatype PrimaryAction = CallsNext | CallsSubmit

  /** The primary button's handler: submit on the last step, next elsewhere. */
  function PrimaryActionOf(w: WizardState): PrimaryAction {
    if w.activeStep == |Steps| - 1 then CallsSubmit else CallsNext
  }

  /** The primary button's text names the handler it calls, unless a request is in flight. */
  function PrimaryLabel(w: WizardState): (l: string)
    ensures l == "Submitting..." <==> w.isSubmitting
    ensures l == "Submit" <==> !w.isSubmitting && PrimaryActionOf(w) == CallsSubmit
    ensures l == "Next" <==> !w.isSubmitting && PrimaryActionOf(w) == CallsNext
  {
    if w.isSubmitting then "Submitting..." else if w.activeStep == |Steps| - 1 then "Submit" else "Next"
  }

  /**
    The events the wizard reacts to: a click on Next or Back, a section form
    emitting its record, a click on Submit (which starts the request, with the
    clock's reading as timestamp), and the request settling.
   */
  datatype Event =
    | NextClicked
    | BackClicked
    | SectionChanged(data: SectionData)
    | SubmitClicked(timestamp: string)
    | SubmitSettled(ok: bool)

  /**
    When the rendered page can deliver the event. A submitted page offers
    nothing; the three buttons are disabled while a request is in flight
    (the mounted form is not); Next is never offered on the last step, Submit
    only there, Back never on the first; a form emits only while its step is shown.
   */
  predicate Enabled(w: WizardState, e: Event): (b: bool)
    ensures w.isSubmitted && !w.isSubmitting ==> !b
    ensures b && (e.NextClicked? || e.BackClicked? || e.SubmitClicked?) ==> !w.isSubmitting && !w.isSubmitted
    ensures b && e.NextClicked? ==> w.activeStep != LastStep
    ensures b && e.SubmitClicked? ==> w.activeStep == LastStep
    ensures b && e.BackClicked? ==> w.activeStep != 0
    ensures b && e.SectionChanged? ==> StepContent(w.activeStep) == FormOf(SectionOf(e.data))
    ensures b && e.SubmitSettled? ==> w.isSubmitting
  {
    match e
    case NextClicked => PrimaryEnabled(w) && PrimaryActionOf(w) == CallsNext
    case BackClicked => BackEnabled(w)
    case SectionChanged(data) => FormShown(w, SectionOf(data))
    case SubmitClicked(_) => PrimaryEnabled(w) && PrimaryActionOf(w) == CallsSubmit
    case SubmitSettled(_) => w.isSubmitting
  }

  /**
    The handlers' effect; they carry no guards of their own. Field by field:
    the response object changes only on a section emission, by replacing that
    section; `isSubmitted` is set only by a successful settlement and never
    cleared; the step moves forward on Next and on success, back on Back, and
    stays otherwise; `isSubmitting` is set by Submit and cleared by any settlement.
   */
  function Apply(w: WizardState, e: Event): (w': WizardState)
    ensures w'.formData == if e.SectionChanged? then Replace(w.formData, e.data) else w.formData
    ensures w'.isSubmitted == (w.isSubmitted || e == SubmitSettled(true))
    ensures w'.activeStep == w.activeStep + (if e.NextClicked? || e == SubmitSettled(true) then 1 else if e.BackClicked? then -1 else 0)
    ensures w'.isSubmitting == if e.SubmitClicked? then true else if e.SubmitSettled? then false else w.isSubmitting
  {
    match e
    case NextClicked => w.(activeStep := w.activeStep + 1)
    case BackClicked => w.(activeStep := w.activeStep - 1)
    case SectionChanged(data) => w.(formData := Replace(w.formData, data))
    case SubmitClicked(_) => w.(isSubmitting := true)
    case SubmitSettled(ok) =>
      if ok then w.(isSubmitted := true, activeStep := w.activeStep + 1, isSubmitting := false)
      else w.(isSubmitting := false)
  }

  /** The request an event dispatches, if any. */
  function Dispatched(w: WizardState, e: Event): seq<SurveyResponse> {
    if e.SubmitClicked? then [Response(w.formData, e.timestamp)] else []
  }

  /** Every event of the sequence is enabled when it comes. */
  predicate EnabledRun(w: WizardState, es: seq<Event>)
    decreases |es|
  {
    es == [] || (Enabled(w, es[0]) && EnabledRun(Apply(w, es[0]), es[1..]))
  }

  function Run(w: WizardState, es: seq<Event>): WizardState
    decreases |es|
  {
    if es == [] then w else Run(Apply(w, es[0]), es[1..])
  }

  /** The requests dispatched along a run, in order. */
  function Requests(w: WizardState, es: seq<Event>): seq<SurveyResponse>
    decreases |es|
  {
    if es == [] then [] else Dispatched(w, es[0]) + Requests(Apply(w, es[0]), es[1..])
  }

  function SettledCount(es: seq<Event>): nat
    decreases |es|
  {
    if es == [] then 0 else (if es[0].SubmitSettled? then 1 else 0) + SettledCount(es[1..])
  }

  function SucceededCount(es: seq<Event>): nat
    decreases |es|
  {
    if es == [] then 0 else (if es[0] == SubmitSettled(true) then 1 else 0) + SucceededCount(es[1..])
  }

  function Flag(b: bool): nat {
    if b then 1 else 0
  }

  // ---------------------------------------------------------------------------
  // Properties of single events

  /** Every enabled event keeps the wizard well-formed. */
  lemma ApplyKeepsWellFormed(w: WizardState, e: Event)
    requires WellFormed(w) && Enabled(w, e)
    ensures WellFormed(Apply(w, e))
  {
  }

  /** Back is offered exactly from a later step while nothing is in flight, and goes back one step. */
  lemma BackGoesBackOne(w: WizardState)
    requires WellFormed(w)
    ensures Enabled(w, BackClicked) <==> !w.isSubmitted && !w.isSubmitting && 0 < w.activeStep <= LastStep
    ensures Enabled(w, BackClicked) ==>
      Apply(w, BackClicked).activeStep == w.activeStep - 1 >= 0 &&
      Apply(w, BackClicked) == w.(activeStep := w.activeStep - 1)
  {
  }

  /**
    On an idle, unsubmitted wizard the primary button advances on the first
    two steps and submits only on the last; while submitting it does neither.
   */
  lemma PrimaryButtonAction(w: WizardState, ts: string)
    requires WellFormed(w)
    ensures Enabled(w, NextClicked) <==> !w.isSubmitted && !w.isSubmitting && w.activeStep < LastStep
    ensures Enabled(w, SubmitClicked(ts)) <==> !w.isSubmitted && !w.isSubmitting && w.activeStep == LastStep
    ensures Enabled(w, NextClicked) ==> WellFormed(Apply(w, NextClicked)) && Apply(w, NextClicked).activeStep <= LastStep
  {
  }

  /** The button's label names the handler it calls, and reads 'Submitting...' exactly when it is disabled. */
  lemma LabelMatchesButton(w: WizardState, ts: string)
    requires WellFormed(w) && ControlsShown(w)
    ensures PrimaryLabel(w) == "Submitting..." <==> !PrimaryEnabled(w)
    ensures PrimaryLabel(w) == "Submit" <==> Enabled(w, SubmitClicked(ts))
    ensures PrimaryLabel(w) == "Next" <==> Enabled(w, NextClicked)
  {
  }

  /** While the wizard is not submitted exactly one section form is mounted, the one of its step. */
  lemma OneFormPerStep(w: WizardState, s: Section)
    requires WellFormed(w) && ControlsShown(w)
    ensures StepContent(w.activeStep).FormOf?
    ensures FormShown(w, s) <==> s == StepContent(w.activeStep).section
  {
  }

  /** A form's emission replaces its own section wholesale and touches nothing else. */
  lemma SectionChangeIsolated(w: WizardState, data: SectionData, s: Section)
    ensures var w' := Apply(w, SectionChanged(data));
      Read(w'.formData, SectionOf(data)) == data &&
      (s != SectionOf(data) ==> Read(w'.formData, s) == Read(w.formData, s)) &&
      w'.activeStep == w.activeStep && w'.isSubmitting == w.isSubmitting && w'.isSubmitted == w.isSubmitted
  {
  }

  /**
    A submission that succeeds ends submitted, one past the last step, idle,
    having sent the current sections and left them as they were.
   */
  lemma SubmitSucceeds(w: WizardState, ts: string)
    requires WellFormed(w) && Enabled(w, SubmitClicked(ts))
    ensures var w1 := Apply(w, SubmitClicked(ts));
      w1.isSubmitting && w1.formData == w.formData &&
      Dispatched(w, SubmitClicked(ts)) == [SurveyResponse(w.formData.demographics, w.formData.nasaTlx, w.formData.postEval, ts)] &&
      Enabled(w1, SubmitSettled(true)) &&
      Apply(w1, SubmitSettled(true)) == WizardState(LastStep + 1, false, true, w.formData)
  {
  }

  /** A submission that fails returns the wizard to exactly the state before it, where Submit is offered again. */
  lemma SubmitFails(w: WizardState, ts: string, ts': string)
    requires WellFormed(w) && Enabled(w, SubmitClicked(ts))
    ensures var w1 := Apply(w, SubmitClicked(ts));
      Enabled(w1, SubmitSettled(false)) && Apply(w1, SubmitSettled(false)) == w &&
      Enabled(w, SubmitClicked(ts'))
  {
  }

  /** Once submitted the wizard is terminal: no event is enabled. */
  lemma SubmittedIsTerminal(w: WizardState, e: Event)
    requires WellFormed(w) && w.isSubmitted
    ensures !Enabled(w, e)
  {
  }

  /** A form mounting emits the data it was given, which leaves the wizard as it was. */
  lemma MountEmissionIsNoOp(w: WizardState, s: Section)
    ensures Apply(w, SectionChanged(Read(w.formData, s))) == w
  {
    ReplaceWithOwnSection(w.formData, s);
  }

  // ---------------------------------------------------------------------------
  // Properties of runs

  lemma {:induction false} RunAppend(w: WizardState, a: seq<Event>, b: seq<Event>)
    ensures Run(w, a + b) == Run(Run(w, a), b)
    ensures EnabledRun(w, a + b) <==> EnabledRun(w, a) && EnabledRun(Run(w, a), b)
    ensures Requests(w, a + b) == Requests(w, a) + Requests(Run(w, a), b)
    decreases |a|
  {
    if a == [] {
      assert a + b == b;
    } else {
      assert (a + b)[0] == a[0] && (a + b)[1..] == a[1..] + b;
      RunAppend(Apply(w, a[0]), a[1..], b);
    }
  }

  /** Every run of enabled events keeps the wizard well-formed. */
  lemma {:induction false} RunKeepsWellFormed(w: WizardState, es: seq<Event>)
    requires WellFormed(w) && EnabledRun(w, es)
    ensures WellFormed(Run(w, es))
    decreases |es|
  {
    if es != [] {
      ApplyKeepsWellFormed(w, es[0]);
      RunKeepsWellFormed(Apply(w, es[0]), es[1..]);
    }
  }

  /** From the start, the step stays within the three steps until a successful submission moves it one past. */
  lemma StepBounds(es: seq<Event>)
    requires EnabledRun(Initial(), es)
    ensures var w := Run(Initial(), es);
      (!w.isSubmitted && 0 <= w.activeStep <= LastStep) || (w.isSubmitted && w.activeStep == LastStep + 1)
  {
    RunKeepsWellFormed(Initial(), es);
  }

  /** Nothing can happen after the survey is submitted. */
  lemma NothingAfterSubmission(w: WizardState, es: seq<Event>)
    requires WellFormed(w) && w.isSubmitted && EnabledRun(w, es)
    ensures es == []
  {
  }

  /**
    At most one request is ever in flight: every dispatch is matched by the
    settlement of the one before it, so clicking Submit twice while the first
    request is pending dispatches it once.
   */
  lemma {:induction false} OneRequestInFlight(w: WizardState, es: seq<Event>)
    requires WellFormed(w) && EnabledRun(w, es)
    ensures |Requests(w, es)| + Flag(w.isSubmitting) == SettledCount(es) + Flag(Run(w, es).isSubmitting)
    decreases |es|
  {
    if es != [] {
      ApplyKeepsWellFormed(w, es[0]);
      OneRequestInFlight(Apply(w, es[0]), es[1..]);
    }
  }

  /** A run from an unsubmitted wizard succeeds at most once, and exactly when it ends submitted. */
  lemma {:induction false} AtMostOneSuccess(w: WizardState, es: seq<Event>)
    requires WellFormed(w) && !w.isSubmitted && EnabledRun(w, es)
    ensures SucceededCount(es) == Flag(Run(w, es).isSubmitted)
    decreases |es|
  {
    if es != [] {
      var w1 := Apply(w, es[0]);
      ApplyKeepsWellFormed(w, es[0]);
      if w1.isSubmitted {
        NothingAfterSubmission(w1, es[1..]);
      } else {
        AtMostOneSuccess(w1, es[1..]);
      }
    }
  }

  // ---------------------------------------------------------------------------
  // Forms and wizard together

  /** The emissions of the mounted demographics form for a sequence of edits, newest state each time. */
  function DemographicsEmissions(d: Demographics.DemographicsData, es: seq<Demographics.Edit>): seq<Event>
    decreases |es|
  {
    if es == [] then []
    else
      var d' := Demographics.HandleChange(d, es[0].field, es[0].value);
      [SectionChanged(OfDemographics(d'))] + DemographicsEmissions(d', es[1..])
  }

  /** The emissions of the mounted workload form for a sequence of slider moves. */
  function NasaTlxEmissions(d: NasaTlx.NasaTlxData, cs: seq<NasaTlx.SliderChange>): seq<Event>
    decreases |cs|
  {
    if cs == [] then []
    else
      var d' := NasaTlx.HandleSliderChange(d, cs[0].technique, cs[0].metric, cs[0].value);
      [SectionChanged(OfNasaTlx(d'))] + NasaTlxEmissions(d', cs[1..])
  }

  /**
    While its form is mounted, the wizard's demographics section follows the
    form's local state edit by edit, and nothing else changes.
   */
  lemma {:induction false} DemographicsFollowForm(w: WizardState, es: seq<Demographics.Edit>)
    requires FormShown(w, DemographicsSection)
    ensures EnabledRun(w, DemographicsEmissions(w.formData.demographics, es))
    ensures Run(w, DemographicsEmissions(w.formData.demographics, es)) ==
      w.(formData := w.formData.(demographics := Demographics.ApplyEdits(w.formData.demographics, es)))
    ensures Requests(w, DemographicsEmissions(w.formData.demographics, es)) == []
    decreases |es|
  {
    if es != [] {
      var d' := Demographics.HandleChange(w.formData.demographics, es[0].field, es[0].value);
      var w1 := Apply(w, SectionChanged(OfDemographics(d')));
      var rest := DemographicsEmissions(d', es[1..]);
      assert DemographicsEmissions(w.formData.demographics, es) == [SectionChanged(OfDemographics(d'))] + rest;
      assert w1.formData.demographics == d';
      DemographicsFollowForm(w1, es[1..]);
      RunAppend(w, [SectionChanged(OfDemographics(d'))], rest);
    }
  }

  /**
    While its form is mounted, the wizard's workload section follows the
    form's local state move by move, and nothing else changes.
   */
  lemma {:induction false} NasaTlxFollowsForm(w: WizardState, cs: seq<NasaTlx.SliderChange>)
    requires FormShown(w, NasaTlxSection)
    ensures EnabledRun(w, NasaTlxEmissions(w.formData.nasaTlx, cs))
    ensures Run(w, NasaTlxEmissions(w.formData.nasaTlx, cs)) ==
      w.(formData := w.formData.(nasaTlx := NasaTlx.ApplyChanges(w.formData.nasaTlx, cs)))
    ensures Requests(w, NasaTlxEmissions(w.formData.nasaTlx, cs)) == []
    decreases |cs|
  {
    if cs != [] {
      var d' := NasaTlx.HandleSliderChange(w.formData.nasaTlx, cs[0].technique, cs[0].metric, cs[0].value);
      var w1 := Apply(w, SectionChanged(OfNasaTlx(d')));
      var rest := NasaTlxEmissions(d', cs[1..]);
      assert NasaTlxEmissions(w.formData.nasaTlx, cs) == [SectionChanged(OfNasaTlx(d'))] + rest;
      assert w1.formData.nasaTlx == d';
      NasaTlxFollowsForm(w1, cs[1..]);
      RunAppend(w, [SectionChanged(OfNasaTlx(d'))], rest);
    }
  }

  /**
    Setting freehand effort to 15 on the fresh workload page: that rating is
    15, the other seventeen stay 0, and the other sections are untouched.
   */
  lemma FreehandEffortScenario()
    ensures var es := [NextClicked, SectionChanged(OfNasaTlx(
              NasaTlx.HandleSliderChange(NasaTlx.AllZero(), NasaTlx.Freehand, NasaTlx.Effort, NasaTlx.Single(15))))];
      EnabledRun(Initial(), es) &&
      var w := Run(Initial(), es);
      w.activeStep == 1 &&
      NasaTlx.Rating(w.formData.nasaTlx, NasaTlx.Freehand, NasaTlx.Effort) == 15 &&
      (forall t, m :: (t, m) != (NasaTlx.Freehand, NasaTlx.Effort) ==> NasaTlx.Rating(w.formData.nasaTlx, t, m) == 0) &&
      w.formData.demographics == InitialDemographics() && w.formData.postEval == PostEval.Empty()
  {
    var es := [NextClicked, SectionChanged(OfNasaTlx(
      NasaTlx.HandleSliderChange(NasaTlx.AllZero(), NasaTlx.Freehand, NasaTlx.Effort, NasaTlx.Single(15))))];
    var w1 := Apply(Initial(), NextClicked);
    assert Run(Initial(), es) == Run(w1, es[1..]);
    assert Run(w1, es[1..]) == Apply(w1, es[1]);
  }

  /**
    The `initials` key the wizard creates survives any form edits, empty, and
    the radio keys stay valid; `participantId` is present exactly when some
    edit wrote it.
   */
  lemma InitialsSurviveForm(es: seq<Demographics.Edit>)
    requires forall i :: 0 <= i < |es| ==> Demographics.FormEdit(es[i])
    ensures var d := Demographics.ApplyEdits(InitialDemographics(), es);
      "initials" in d && d["initials"] == "" && Demographics.SelectionsValid(d) &&
      (Demographics.ParticipantId in d <==> exists i :: 0 <= i < |es| && es[i].field == Demographics.ParticipantId)
  {
    var d0 := InitialDemographics();
    Demographics.WrittenKeys(d0, es);
    Demographics.ForeignKeySurvivesForm(d0, es, "initials");
    Demographics.SelectionsStayValid(d0, es);
  }

  /** From the first page, Next, Next and Submit are enabled in turn and dispatch the current sections once. */
  lemma ThroughToSubmit(w: WizardState, ts: string)
    requires !w.isSubmitted && !w.isSubmitting && w.activeStep == 0
    ensures EnabledRun(w, [NextClicked, NextClicked, SubmitClicked(ts)])
    ensures Requests(w, [NextClicked, NextClicked, SubmitClicked(ts)]) == [Response(w.formData, ts)]
  {
    var tail := [NextClicked, NextClicked, SubmitClicked(ts)];
    var w1 := Apply(w, NextClicked);
    var w2 := Apply(w1, NextClicked);
    assert tail[1..] == [NextClicked, SubmitClicked(ts)] && tail[1..][1..] == [SubmitClicked(ts)];
    assert EnabledRun(w2, [SubmitClicked(ts)]);
    assert Requests(w2, [SubmitClicked(ts)]) == [Response(w2.formData, ts)];
    assert Requests(w1, tail[1..]) == Requests(w2, [SubmitClicked(ts)]);
  }

  /**
    Filling in the demographics page with any sequence of form edits, then
    going through the other two pages and submitting: exactly one request is
    dispatched, and its demographics are the form's final record, so a chosen
    `Other` and its free text arrive together and the `initials` key created
    by the wizard is still there, empty, next to `participantId` once some
    edit has written the ID.
   */
  lemma DemographicsReachPayload(es: seq<Demographics.Edit>, ts: string)
    requires forall i :: 0 <= i < |es| ==> Demographics.FormEdit(es[i])
    ensures var run := DemographicsEmissions(InitialDemographics(), es) + [NextClicked, NextClicked, SubmitClicked(ts)];
      var d := Demographics.ApplyEdits(InitialDemographics(), es);
      EnabledRun(Initial(), run) &&
      Requests(Initial(), run) == [SurveyResponse(d, NasaTlx.AllZero(), PostEval.Empty(), ts)] &&
      "initials" in d && d["initials"] == "" &&
      Demographics.SelectionsValid(d) &&
      (Demographics.ParticipantId in d <==> exists i :: 0 <= i < |es| && es[i].field == Demographics.ParticipantId)
  {
    var emissions := DemographicsEmissions(InitialDemographics(), es);
    var tail := [NextClicked, NextClicked, SubmitClicked(ts)];
    var d := Demographics.ApplyEdits(InitialDemographics(), es);
    var w0 := Initial();
    DemographicsFollowForm(w0, es);
    var w := Run(w0, emissions);
    assert w == w0.(formData := w0.formData.(demographics := d));
    assert !w.isSubmitted && !w.isSubmitting && w.activeStep == 0;
    ThroughToSubmit(w, ts);
    RunAppend(w0, emissions, tail);
    assert EnabledRun(w0, emissions + tail);
    assert Requests(w0, emissions + tail) == [Response(w.formData, ts)];
    InitialsSurviveForm(es);
  }

  // ---------------------------------------------------------------------------
  // The wizard component

  class Wizard {
    var activeStep: int
    var isSubmitting: bool
    var isSubmitted: bool
    var formData: FormData

    function State(): WizardState
      reads this
    {
      WizardState(activeStep, isSubmitting, isSubmitted, formData)
    }

    ghost predicate Valid()
      reads this
    {
      WellFormed(State())
    }

    constructor ()
      ensures State() == Initial() && Valid()
    {
      activeStep, isSubmitting, isSubmitted := 0, false, false;
      formData := InitialFormData();
    }

    /** `handleNext`, reached through the primary button on the first two steps. */
    method Next()
      requires Valid() && Enabled(State(), NextClicked)
      modifies this
      ensures activeStep == old(activeStep) + 1 <= LastStep
      ensures isSubmitting == old(isSubmitting) && isSubmitted == old(isSubmitted) && formData == old(formData)
      ensures State() == Apply(old(State()), NextClicked) && Valid()
    {
      activeStep := activeStep + 1;
    }

    /** `handleBack`. */
    method Back()
      requires Valid() && Enabled(State(), BackClicked)
      modifies this
      ensures 0 <= activeStep == old(activeStep) - 1
      ensures isSubmitting == old(isSubmitting) && isSubmitted == old(isSubmitted) && formData == old(formData)
      ensures State() == Apply(old(State()), BackClicked) && Valid()
    {
      activeStep := activeStep - 1;
    }

    /** `handleDataChange`, called by the mounted section's change callback. */
    method UpdateSection(data: SectionData)
      requires Valid() && Enabled(State(), SectionChanged(data))
      modifies this
      ensures Read(formData, SectionOf(data)) == data
      ensures forall s :: s != SectionOf(data) ==> Read(formData, s) == Read(old(formData), s)
      ensures activeStep == old(activeStep) && isSubmitting == old(isSubmitting) && isSubmitted == old(isSubmitted)
      ensures State() == Apply(old(State()), SectionChanged(data)) && Valid()
    {
      formData := Replace(formData, data);
    }

    /** The part of `handleSubmit` before the request settles: mark submitting and build the request. */
    method BeginSubmit(timestamp: string) returns (request: SurveyResponse)
      requires Valid() && Enabled(State(), SubmitClicked(timestamp))
      modifies this
      ensures request == Response(formData, timestamp)
      ensures request.demographics == formData.demographics && request.nasaTlx == formData.nasaTlx
      ensures request.postEval == formData.postEval && request.timestamp == timestamp
      ensures isSubmitting && activeStep == old(activeStep) == LastStep
      ensures isSubmitted == old(isSubmitted) && formData == old(formData)
      ensures [request] == Dispatched(old(State()), SubmitClicked(timestamp))
      ensures State() == Apply(old(State()), SubmitClicked(timestamp)) && Valid()
    {
      isSubmitting := true;
      request := Response(formData, timestamp);
    }

    /**
      The rest of `handleSubmit`: on success mark submitted and move past the
      last step; in any case clear the submitting flag.
     */
    method CompleteSubmit(ok: bool)
      requires Valid() && Enabled(State(), SubmitSettled(ok))
      modifies this
      ensures !isSubmitting && formData == old(formData)
      ensures ok ==> isSubmitted && activeStep == old(activeStep) + 1 == LastStep + 1
      ensures !ok ==> isSubmitted == old(isSubmitted) == false && activeStep == old(activeStep)
      ensures State() == Apply(old(State()), SubmitSettled(ok)) && Valid()
    {
      if ok {
        isSubmitted := true;
        activeStep := activeStep + 1;
      }
      isSubmitting := false;
    }
  }

  // ---------------------------------------------------------------------------
  // Wiring the section forms to the wizard

  /** Mount the workload form on its step; its first emission leaves the wizard as it was. */
  method MountNasaTlx(wizard: Wizard) returns (form: NasaTlx.Form)
    requires wizard.Valid() && FormShown(wizard.State(), NasaTlxSection)
    modifies wizard
    ensures fresh(form) && form.formData == wizard.formData.nasaTlx
    ensures wizard.State() == old(wizard.State())
  {
    form := new NasaTlx.Form(wizard.formData.nasaTlx);
    var emitted := form.Emit();
    MountEmissionIsNoOp(wizard.State(), NasaTlxSection);
    wizard.UpdateSection(OfNasaTlx(emitted));
  }

  /** A slider move on the mounted workload form, passed up to the wizard. */
  method MoveSlider(wizard: Wizard, form: NasaTlx.Form, t: NasaTlx.Technique, m: NasaTlx.Metric, v: NasaTlx.SliderValue)
    requires wizard.Valid() && FormShown(wizard.State(), NasaTlxSection)
    requires form.formData == wizard.formData.nasaTlx
    modifies wizard, form
    ensures wizard.Valid() && form.formData == wizard.formData.nasaTlx
    ensures form.formData == NasaTlx.HandleSliderChange(old(form.formData), t, m, v)
    ensures wizard.State() == Apply(old(wizard.State()), SectionChanged(OfNasaTlx(form.formData)))
  {
    var emitted := form.SliderMoved(t, m, v);
    wizard.UpdateSection(OfNasaTlx(emitted));
  }

  /** Mount the demographics form on its step; its first emission leaves the wizard as it was. */
  method MountDemographics(wizard: Wizard) returns (form: Demographics.Form)
    requires wizard.Valid() && FormShown(wizard.State(), DemographicsSection)
    modifies wizard
    ensures fresh(form) && form.formData == wizard.formData.demographics
    ensures wizard.State() == old(wizard.State())
  {
    form := new Demographics.Form(wizard.formData.demographics);
    var emitted := form.Emit();
    MountEmissionIsNoOp(wizard.State(), DemographicsSection);
    wizard.UpdateSection(OfDemographics(emitted));
  }

  /** An input change on the mounted demographics form, passed up to the wizard. */
  method EditDemographics(wizard: Wizard, form: Demographics.Form, field: string, value: string)
    requires wizard.Valid() && FormShown(wizard.State(), DemographicsSection)
    requires form.formData == wizard.formData.demographics
    modifies wizard, form
    ensures wizard.Valid() && form.formData == wizard.formData.demographics
    ensures form.formData == Demographics.HandleChange(old(form.formData), field, value)
    ensures wizard.State() == Apply(old(wizard.State()), SectionChanged(OfDemographics(form.formData)))
  {
    var emitted := form.Changed(field, value);
    wizard.UpdateSection(OfDemographics(emitted));
  }

  /** An input change on the post-session form, rebuilt from the section the wizard passed in. */
  method EditPostEval(wizard: Wizard, f: PostEval.Field, value: string)
    requires wizard.Valid() && FormShown(wizard.State(), PostEvalSection)
    modifies wizard
    ensures wizard.Valid()
    ensures wizard.formData.postEval == PostEval.HandleChange(old(wizard.formData.postEval), f, value)
    ensures wizard.State() == Apply(old(wizard.State()), SectionChanged(OfPostEval(wizard.formData.postEval)))
  {
    wizard.UpdateSection(OfPostEval(PostEval.HandleChange(wizard.formData.postEval, f, value)));
  }
}

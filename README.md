# Nephrostomy needle guidance survey: a Dafny model of the wizard and its section forms

The survey is a three-step web form. Step 0 collects demographics, step 1 the NASA-TLX
workload ratings (six metrics for each of the three needle-guidance techniques: freehand,
in-plane guide, out-of-plane guide), and step 2 the post-session evaluation. The wizard holds
the authoritative response object and the current step, plus two flags, `isSubmitting` and
`isSubmitted`. Each section form mirrors the wizard's copy of its own section and hands the
whole section record back up on every edit. The wizard replaces that section wholesale. On the
last step the primary button submits the three sections plus a timestamp. While the request is
in flight both navigation buttons are disabled. On success the wizard moves one step past the
last and replaces the form and buttons with a thank-you message; the title and the stepper stay.

The project has four modules, one per source file:

- `NasaTlx` (`nasa_tlx.dfy`) holds the 3×6 rating record and the slider updater. It also holds
  the six-row `scales` table, the 21 marks under each slider, the slider range 0..20 in steps
  of 1, and the page's eighteen sliders. Its form is a class with one `formData` field.
- `Demographics` (`demographics.dfy`) holds the demographics record, an open string-keyed map,
  and the spread-and-override updater. It also has the "Please specify" condition and the three
  fixed radio option lists. Its form is a class with one `formData` field.
- `PostEval` (`post_eval.dfy`) has the post-session record. Its form keeps no state, so it is
  modelled as values only: `HandleChange` rebuilds the emitted record from the data the wizard
  passed in.
- `Survey` (`survey.dfy`) is the wizard. It is written twice:
  - as a state machine on values: `WizardState`, `Apply` (what each handler does), `Enabled`
    (when the rendered buttons and forms let an event happen) and runs of events;
  - as the class `Wizard`, which has the four state fields `activeStep`, `isSubmitting`,
    `isSubmitted` and `formData`. Its methods `Next`, `Back`, `UpdateSection`, `BeginSubmit`
    and `CompleteSubmit(ok)` each require their enablement predicate. Each is proved to move
    the object's state to `Apply` of the old state.

  The module also has wiring methods that mount a form and pass each change up through
  `UpdateSection`.

Modelling decisions:

- **Demographics as a map.** The demographics section is a `map<string, string>`. This keeps
  the source's mismatch between the two halves as it is. The wizard creates the record with
  `initials` (src/components/Survey.tsx:25), but the form writes `participantId`
  (src/components/sections/Demographics.tsx:51) and keeps every key it was given. So a
  submitted record carries `initials: ''`, and next to it `participantId` once the ID has been
  typed. `Survey.DemographicsReachPayload` proves both. The record has no `participantId` key
  until the Participant ID input is edited.
- **No timestamp in the response object.** Submission does not write a timestamp into the
  response object. The timestamp exists only in the request payload
  (src/components/Survey.tsx:96-101), and `formData` is never modified by a submission, whether
  it succeeds or fails. `handleSubmit` never writes the timestamp into `formData`; it exists only
  in the request.
- **`handleDataChange` through its three callers.** `handleDataChange(section, data: unknown)`
  is modelled through its only three callers, `handleDemographicsChange`, `handleNasaTlxChange`
  and `handlePostEvalChange` (src/components/Survey.tsx:81-91). The emitted `SectionData`
  therefore names its own section.
- **Timestamp as a parameter.** The clock reading `new Date().toISOString()` is a parameter of
  `BeginSubmit`, passed as an opaque string.
- **Submission outcome as a boolean.** The outcome of the network call is the `ok` parameter
  of `CompleteSubmit`. `ok` is true when `submitToGoogleSheets` returns and false when it
  throws.

## Model

| member | source | states |
|---|---|---|
| `NasaTlx.Set` | src/components/sections/NasaTLX.tsx:52-55 | overriding one metric of a technique's ratings sets that metric and keeps the other five |
| `NasaTlx.SetBlock` | src/components/sections/NasaTLX.tsx:50-56 | overriding one technique's block sets that block and keeps the other two |
| `NasaTlx.NewRating` | src/components/sections/NasaTLX.tsx:54 | the stored value is the reported number, or the first entry of a reported array; a slider reporting grid positions yields a rating on the grid |
| `NasaTlx.HandleSliderChange` | src/components/sections/NasaTLX.tsx:48-57 | a slider change for (t, m) stores the reported value at (t, m) (the first element when an array is reported) and leaves the other 17 ratings unchanged |
| `NasaTlx.AllZero` | src/components/Survey.tsx:30-55 | the initial workload section has all eighteen ratings equal to 0 |
| `NasaTlx.ChangesStayOnScale` | src/components/sections/NasaTLX.tsx:156-166 | if every rating starts on the slider grid (integers 0..20, step 1) and every slider reports grid values, every rating stays on the grid through any sequence of slider moves |
| `NasaTlx.UntouchedRatingKept` | src/components/sections/NasaTLX.tsx:48-57 | a sequence of slider moves that never touches (t, m) leaves that rating as it was |
| `NasaTlx.ScaleIndex` | src/components/sections/NasaTLX.tsx:59-108 | the `scales` table has six rows and each of the six metrics heads exactly one of them |
| `NasaTlx.Marks` | src/components/sections/NasaTLX.tsx:161-164 | a slider has 21 marks with values 0..20 in order; mark 0 carries the scale's min label, mark 20 its max label, the others none |
| `NasaTlx.MarksAreSliderPositions` | src/components/sections/NasaTLX.tsx:160-166 | a value is a mark exactly when it is a position the slider can take (min 0, max 20, step 1) |
| `NasaTlx.MarkLabelsAtEnds` | src/components/sections/NasaTLX.tsx:161-166 | a mark is labelled exactly at the slider's min and max, with the min label at min and the max label at max |
| `NasaTlx.ScaleSliders` | src/components/sections/NasaTLX.tsx:156-242 | each scale drives three sliders, for freehand, in-plane guide and out-of-plane guide, all on the scale's metric |
| `NasaTlx.SliderIndex` | src/components/sections/NasaTLX.tsx:119-278 | the page lays out 18 sliders and each of the 18 ratings is driven by exactly one of them |
| `NasaTlx.Form.constructor` | src/components/sections/NasaTLX.tsx:42 | the form's local state starts equal to the data passed in |
| `NasaTlx.Form.Emit` | src/components/sections/NasaTLX.tsx:44-46 | the effect hands the whole current three-technique object upward |
| `NasaTlx.Form.SliderMoved` | src/components/sections/NasaTLX.tsx:44-57 | a slider move updates the local state by the slider updater and emits the whole new object |
| `Demographics.OptionLists` | src/components/sections/Demographics.tsx:66-136 | the radio groups offer 13 training levels, 5 ultrasound brackets and 5 needle-placement brackets, none repeated, and `Other` is a training level |
| `Demographics.HandleChange` | src/components/sections/Demographics.tsx:34-39 | a change to field f sets f to the value, adds f if absent and keeps every other key with its value |
| `Demographics.ShowsOtherInput` | src/components/sections/Demographics.tsx:90 | the "Please specify" input is rendered exactly when the training level holds `Other`, the last of the thirteen options |
| `Demographics.OtherShown` | src/components/sections/Demographics.tsx:94 | the input shows the stored `otherTrainingLevel` when the key is present, and shows empty text otherwise |
| `Demographics.OtherInputEchoes` | src/components/sections/Demographics.tsx:94-95 | typing into the free-text input shows exactly what was typed and does not change whether the input is shown |
| `Demographics.TrainingLevelChoiceShowsOther` | src/components/sections/Demographics.tsx:90-99 | after choosing a training level, the "Please specify" input is shown if and only if the choice is `Other` |
| `Demographics.OtherInputVisibilityStable` | src/components/sections/Demographics.tsx:90 | editing any key other than `trainingLevel` does not change whether the free-text input is shown |
| `Demographics.OtherTextSurvivesLevelChange` | src/components/sections/Demographics.tsx:34-39 | moving the training level away from `Other` hides the input but does not clear `otherTrainingLevel` |
| `Demographics.UneditedKeysSurvive` | src/components/sections/Demographics.tsx:35-37 | a sequence of edits never drops a key, and a key no edit names keeps its value |
| `Demographics.WrittenKeys` | src/components/sections/Demographics.tsx:35-37 | after a sequence of edits the record's keys are exactly its initial keys plus the keys some edit wrote |
| `Demographics.ForeignKeySurvivesForm` | src/components/sections/Demographics.tsx:35-37 | a key the form never writes (such as `initials`) survives every sequence of form edits unchanged |
| `Demographics.SelectionsStayValid` | src/components/sections/Demographics.tsx:61-136 | form edits keep each radio key either empty or one of its group's options |
| `Demographics.Form.constructor` | src/components/sections/Demographics.tsx:28 | the form's local state starts equal to the data passed in |
| `Demographics.Form.Emit` | src/components/sections/Demographics.tsx:30-32 | the effect hands the whole current record upward |
| `Demographics.Form.Changed` | src/components/sections/Demographics.tsx:30-39 | an input change updates the local state by the spread-and-override rule and emits the whole record |
| `PostEval.Empty` | src/components/Survey.tsx:56-63 | the initial post-session record has all six answers empty |
| `PostEval.ReasonFor` | src/components/sections/PostEval.tsx:48-64 | each technique question has a free-text reason field that is not itself a question |
| `PostEval.QuestionsPairWithReasons` | src/components/sections/PostEval.tsx:44-113 | the six fields split into three technique questions and their three reasons, paired one to one |
| `PostEval.ChoicesAreTechniques` | src/components/sections/PostEval.tsx:44-105 | each of the three technique questions offers three options, whose values, one per technique in order, are exactly the keys of the three rated techniques (`freehand`, `inPlaneGuide`, `outOfPlaneGuide`) |
| `PostEval.HandleChange` | src/components/sections/PostEval.tsx:28-35 | the emitted record has field f set to the value, which may be any string, and every other field as in the data passed in |
| `PostEval.FieldsDetermineRecord` | src/components/sections/PostEval.tsx:13-20 | the six fields are the whole record: records agreeing on all six are equal |
| `PostEval.SameValueEmitsSame` | src/components/sections/PostEval.tsx:31-34 | re-entering a field's current value emits a record equal to the data passed in |
| `PostEval.ChangeIsUnique` | src/components/sections/PostEval.tsx:28-35 | the emitted record is the only record with the new value in f that agrees with the passed-in data elsewhere |
| `PostEval.StaleSecondEditLosesFirst` | src/components/sections/PostEval.tsx:28-35 | two edits to different fields built against the same stale data: the second emission holds the stale value of the first field, so the first edit is lost |
| `PostEval.FreshEditsCommute` | src/components/sections/PostEval.tsx:28-35 | edits to different fields, each built from the previous emission, commute |
| `Survey.Read` | src/components/Survey.tsx:116-128 | each form is passed the section of its own kind |
| `Survey.Replace` | src/components/Survey.tsx:74-79 | updating a section replaces it with exactly the given data, with nothing merged, and leaves the other two sections unchanged |
| `Survey.SectionsDetermineFormData` | src/components/Survey.tsx:23-64 | the three sections are the whole response object |
| `Survey.ReplaceWithOwnSection` | src/components/Survey.tsx:74-79 | writing back a section's current value leaves the response object equal to what it was |
| `Survey.ReplaceLastWins` | src/components/Survey.tsx:74-79 | of two updates to the same section the later one wins, with nothing merged |
| `Survey.ReplacementsCommute` | src/components/Survey.tsx:74-79 | updates to different sections commute |
| `Survey.InitialDemographics` | src/components/Survey.tsx:24-29 | the initial demographics record has exactly the keys `initials`, `trainingLevel`, `ultrasoundExperience` and `needlePlacements`, all empty; `initials` is not a key the form writes, `participantId` and `otherTrainingLevel` are absent, and the free-text input is hidden |
| `Survey.InitialFormData` | src/components/Survey.tsx:23-64 | the initial response object has that demographics record, all eighteen ratings 0 and all six post-session answers empty |
| `Survey.Initial` | src/components/Survey.tsx:20-64 | the wizard starts well-formed on step 0, idle and unsubmitted, with the initial response object, showing the demographics form, Back disabled and the primary button calling Next |
| `Survey.Response` | src/components/Survey.tsx:96-101 | the request carries the three current sections, each whole, and the timestamp; the response object is recovered from it unchanged |
| `Survey.StepContent` | src/components/Survey.tsx:113-133 | a section form is rendered exactly on steps 0..2, the post-session form on the last step, and nothing past it |
| `Survey.Enabled` | src/components/Survey.tsx:157-176 | a submitted page offers nothing; Next, Back and Submit are disabled while a request is in flight; Next is never offered on the last step, Submit only there, Back never on step 0; a form emits only while its step is shown; only a pending request settles |
| `Survey.PrimaryLabel` | src/components/Survey.tsx:179 | the label reads 'Submitting...' exactly while a request is in flight, and otherwise 'Submit' or 'Next' exactly as the button calls `handleSubmit` or `handleNext` |
| `Survey.Apply` | src/components/Survey.tsx:66-110 | field by field: `formData` changes only on a section emission, by replacing that section; `isSubmitted` is set only by a successful settlement and never cleared; the step goes up by one on Next and on success, down by one on Back, and stays otherwise; `isSubmitting` is set by Submit and cleared by either settlement |
| `Survey.ApplyKeepsWellFormed` | src/components/Survey.tsx:66-111 | every enabled event keeps the step in 0..2 while unsubmitted, submitting only on step 2, and step 3 with nothing in flight once submitted |
| `Survey.BackGoesBackOne` | src/components/Survey.tsx:167-170 | Back is enabled exactly on steps 1..2 while not submitting and not submitted, and it decrements the step by one, changing nothing else |
| `Survey.PrimaryButtonAction` | src/components/Survey.tsx:173-176 | on an idle, unsubmitted wizard the primary button calls Next exactly on steps 0 and 1 and Submit exactly on step 2; while submitting it is disabled; Next never passes step 2 |
| `Survey.LabelMatchesButton` | src/components/Survey.tsx:175-179 | the label reads 'Submitting...' exactly when the button is disabled, 'Submit' exactly when it submits, and 'Next' exactly when it advances |
| `Survey.OneFormPerStep` | src/components/Survey.tsx:113-133 | while unsubmitted, exactly one section form is mounted, the one of the current step |
| `Survey.SectionChangeIsolated` | src/components/Survey.tsx:74-91 | a form's emission replaces its own section wholesale and changes neither the other sections nor the step or flags |
| `Survey.SubmitSucceeds` | src/components/Survey.tsx:93-110 | submit sets `isSubmitting`, dispatches the three current sections plus the timestamp, and on success ends at step 3, submitted and not submitting, with `formData` unchanged |
| `Survey.SubmitFails` | src/components/Survey.tsx:93-110 | a failed submit returns the wizard to exactly its prior state (same step, not submitted, not submitting, same `formData`), where Submit is enabled again |
| `Survey.SubmittedIsTerminal` | src/components/Survey.tsx:157-163 | once submitted no control is rendered, so no event is enabled |
| `Survey.MountEmissionIsNoOp` | src/components/sections/NasaTLX.tsx:42-46 | a form's mount-time emission of the data it was given leaves the wizard unchanged |
| `Survey.RunAppend` | src/components/Survey.tsx:66-111 | running two event sequences one after the other is running their concatenation, with the same requests |
| `Survey.RunKeepsWellFormed` | src/components/Survey.tsx:66-111 | the wizard stays well-formed over any sequence of enabled events |
| `Survey.StepBounds` | src/components/Survey.tsx:66-110 | from the start, over any sequence of enabled events, the step stays in 0..2 until a successful submit, which puts it at 3 |
| `Survey.NothingAfterSubmission` | src/components/Survey.tsx:157-163 | from a submitted wizard the only enabled run is the empty one |
| `Survey.OneRequestInFlight` | src/components/Survey.tsx:93-111 | over any enabled run, requests dispatched plus one for a request in flight at the start equal settlements plus one for a request in flight at the end, so a second Submit click while a request is pending dispatches nothing |
| `Survey.AtMostOneSuccess` | src/components/Survey.tsx:102-103 | from an unsubmitted wizard, a run has at most one successful settlement, and exactly one when it ends submitted |
| `Survey.DemographicsFollowForm` | src/components/sections/Demographics.tsx:28-39 | while the demographics form is mounted, its emissions are enabled, the wizard's section equals the form's local state after every edit, and nothing else changes or is dispatched |
| `Survey.NasaTlxFollowsForm` | src/components/sections/NasaTLX.tsx:42-57 | while the workload form is mounted, its emissions are enabled, the wizard's section equals the form's local state after every move, and nothing else changes or is dispatched |
| `Survey.FreehandEffortScenario` | src/components/sections/NasaTLX.tsx:48-57 | from the start, going to the workload page and setting freehand effort to 15 leaves the other 17 ratings at 0 and the other sections as created |
| `Survey.InitialsSurviveForm` | src/components/Survey.tsx:24-29 | the wizard-created `initials` key survives any demographics form edits, still empty, the radio keys stay within their options, and `participantId` is present exactly when some edit wrote it |
| `Survey.ThroughToSubmit` | src/components/Survey.tsx:173-176 | from step 0, Next, Next and Submit are enabled in turn and dispatch the current sections once |
| `Survey.DemographicsReachPayload` | src/components/Survey.tsx:93-101 | after any demographics edits, Next, Next and Submit dispatch exactly one request whose demographics are the form's final record, so `Other` and its free text arrive together, `initials` is still there, and `participantId` is there exactly when some edit wrote it |
| `Survey.Wizard.constructor` | src/components/Survey.tsx:20-64 | the wizard object starts in the initial state |
| `Survey.Wizard.Next` | src/components/Survey.tsx:66-68 | `handleNext` increments the step by one, to at most 2, and changes nothing else |
| `Survey.Wizard.Back` | src/components/Survey.tsx:70-72 | `handleBack` decrements the step by one, to at least 0, and changes nothing else |
| `Survey.Wizard.UpdateSection` | src/components/Survey.tsx:74-79 | `handleDataChange` replaces the named section with the data and keeps the other sections, the step and the flags |
| `Survey.Wizard.BeginSubmit` | src/components/Survey.tsx:95-101 | starting a submit sets `isSubmitting` on step 2 and returns the request, which holds the three current sections plus the timestamp; `formData` is not modified |
| `Survey.Wizard.CompleteSubmit` | src/components/Survey.tsx:102-110 | on success: submitted, step 2 to 3; on failure: step and `isSubmitted` unchanged; either way `isSubmitting` is cleared and `formData` unchanged |
| `Survey.MountNasaTlx` | src/components/Survey.tsx:120-124 | mounting the workload form gives it the wizard's section, and its first emission leaves the wizard as it was |
| `Survey.MoveSlider` | src/components/Survey.tsx:85-87 | a slider move updates the form and the wizard receives the form's whole new object, keeping the two equal |
| `Survey.MountDemographics` | src/components/Survey.tsx:115-119 | mounting the demographics form gives it the wizard's section, and its first emission leaves the wizard as it was |
| `Survey.EditDemographics` | src/components/Survey.tsx:81-83 | a demographics edit updates the form and the wizard receives the form's whole new record, keeping the two equal |
| `Survey.EditPostEval` | src/components/Survey.tsx:89-91 | a post-session edit is rebuilt from the section the wizard passed in and replaces that section |

## Left out

- The submission client's HTTP POST in `no-cors` mode, the URL, the JSON serialisation and the logging (src/services/googleSheets.ts) are not modelled. Only the success or failure the client reports is, as the `ok` argument of `CompleteSubmit`.
- `alert` and `console.*` calls are user notification and logging only.
- `new Date().toISOString()` is a clock reading. It enters as an opaque `timestamp` string, and its ISO-8601 format is not checked.
- JSX rendering, MUI components, `sx` styling, the stepper's display and the question and helper texts of the forms are presentation only. The scales keep their name and their min and max labels.
- React hook mechanics are not modelled: `useEffect` re-runs, `useCallback` identity, and unmounting a form when the step changes. An emission is a form method returning its whole object, which the wiring passes to `Wizard.UpdateSection`. A mount is a fresh form object plus its first emission.
- async timing is not modelled. Two events handled before a re-render appear only as `PostEval.StaleSecondEditLosesFirst`. Every other event sees the wizard's current state.
- `handleDataChange` with an arbitrary section string is not modelled. Only its three callers pass a section, and each passes its own.
- NasaTlx.NewRating: an array reported by the slider is modelled as non-empty. An empty array would store `undefined` in the source, and `undefined` is not representable in the model.
- NasaTlx.Ratings: ratings are unbounded integers. JavaScript numbers are floating point, but the sliders report whole numbers (step 1), so non-integer ratings are not modelled.
- The Participant ID input reads `participantId`, which the wizard's record lacks until the first edit. In the source that input therefore starts uncontrolled. The model says nothing about what React shows there.

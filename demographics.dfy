/**
  The demographics section. Its data is an open, string-keyed record: the
  wizard creates it with the keys `initials`, `trainingLevel`,
  `ultrasoundExperience` and `needlePlacements`, while the form writes
  `participantId`, `trainingLevel`, `otherTrainingLevel`,
  `ultrasoundExperience` and `needlePlacements` by spreading the previous
  record and overriding one key. Keys the form never writes are kept as
  they are, and a key the form writes is added if it was absent.
 */
module Demographics {

  type DemographicsData = map<string, string>

  const ParticipantId: string := "participantId"
  const TrainingLevel: string := "trainingLevel"
  const OtherTrainingLevel: string := "otherTrainingLevel"
  const UltrasoundExperience: string := "ultrasoundExperience"
  const NeedlePlacements: string := "needlePlacements"

  /** The keys some input of the form writes. */
  const FormFields: set<string> :=
    {ParticipantId, TrainingLevel, OtherTrainingLevel, UltrasoundExperience, NeedlePlacements}

  /** The training level radio group. */
  const TrainingLevels: seq<string> := [
    "MS1", "MS2", "MS3", "MS4",
    "PGY-1", "PGY-2", "PGY-3", "PGY-4",
    "Fellowship-1", "Fellowship-2",
    "Attending Surgeon", "MD, research/industry role",
    "Other"
  ]

  /** Years of experience with ultrasound. */
  const UltrasoundBrackets: seq<string> := ["None", "<1 year", "1–2 years", "3–5 years", ">5 years"]

  /** Estimated number of ultrasound-guided needle placements. */
  const NeedlePlacementBrackets: seq<string> := ["None", "1–10", "11–50", "51–100", ">100"]

  /** The three radio groups, by the key each one writes. */
  const RadioOptions: map<string, seq<string>> := map[
    TrainingLevel := TrainingLevels,
    UltrasoundExperience := UltrasoundBrackets,
    NeedlePlacements := NeedlePlacementBrackets
  ]

  /** The option lists have 13, 5 and 5 entries, none repeated. */
  lemma OptionLists()
    ensures |TrainingLevels| == 13 && |UltrasoundBrackets| == 5 && |NeedlePlacementBrackets| == 5
    ensures forall i, j :: 0 <= i < j < |TrainingLevels| ==> TrainingLevels[i] != TrainingLevels[j]
    ensures forall i, j :: 0 <= i < j < |UltrasoundBrackets| ==> UltrasoundBrackets[i] != UltrasoundBrackets[j]
    ensures forall i, j :: 0 <= i < j < |NeedlePlacementBrackets| ==> NeedlePlacementBrackets[i] != NeedlePlacementBrackets[j]
    ensures RadioOptions.Keys <= FormFields && "Other" in TrainingLevels
  {
  }

  /** `{ ...prev, [field]: value }`: the updater of the form's change handler. */
  function HandleChange(prev: DemographicsData, field: string, value: string): (d: DemographicsData)
    ensures d.Keys == prev.Keys + {field}
    ensures d[field] == value
    ensures forall k :: k in prev && k != field ==> d[k] == prev[k]
  {
    prev[field := value]
  }

  /**
    The "Please specify" input is rendered exactly when the training level is
    `Other`, the last of the thirteen options.
   */
  predicate ShowsOtherInput(d: DemographicsData): (b: bool)
    ensures b <==> TrainingLevel in d && d[TrainingLevel] == TrainingLevels[|TrainingLevels| - 1]
    ensures b ==> d[TrainingLevel] in RadioOptions[TrainingLevel]
  {
    TrainingLevel in d && d[TrainingLevel] == "Other"
  }

  /**
    The value shown in the "Please specify" input, `otherTrainingLevel || ''`:
    the stored text when there is one, and empty when the key is absent (an
    empty stored text shows as empty too).
   */
  function OtherShown(d: DemographicsData): (r: string)
    ensures OtherTrainingLevel in d ==> r == d[OtherTrainingLevel]
    ensures r != "" ==> OtherTrainingLevel in d
  {
    if OtherTrainingLevel in d then d[OtherTrainingLevel] else ""
  }

  /** Typing into the free-text input shows exactly what was typed, and keeps its visibility. */
  lemma OtherInputEchoes(d: DemographicsData, v: string)
    ensures OtherShown(HandleChange(d, OtherTrainingLevel, v)) == v
    ensures ShowsOtherInput(HandleChange(d, OtherTrainingLevel, v)) <==> ShowsOtherInput(d)
  {
  }

  /** Choosing a training level shows the free-text input iff the choice is `Other`. */
  lemma TrainingLevelChoiceShowsOther(d: DemographicsData, v: string)
    ensures ShowsOtherInput(HandleChange(d, TrainingLevel, v)) <==> v == "Other"
  {
  }

  /** Editing any other key leaves the visibility of the free-text input as it was. */
  lemma OtherInputVisibilityStable(d: DemographicsData, field: string, v: string)
    requires field != TrainingLevel
    ensures ShowsOtherInput(HandleChange(d, field, v)) <==> ShowsOtherInput(d)
  {
  }

  /** Moving the training level away from `Other` does not clear the free text. */
  lemma OtherTextSurvivesLevelChange(d: DemographicsData, v: string)
    requires ShowsOtherInput(d) && v != "Other"
    ensures !ShowsOtherInput(HandleChange(d, TrainingLevel, v))
    ensures OtherShown(HandleChange(d, TrainingLevel, v)) == OtherShown(d)
  {
  }

  /** One user edit as the form delivers it. */
  datatype Edit = Edit(field: string, value: string)

  /** An edit some input of the form can produce: a radio group yields only its own options. */
  predicate FormEdit(e: Edit) {
    e.field in FormFields && (e.field in RadioOptions ==> e.value in RadioOptions[e.field])
  }

  /** The local state after a sequence of edits. */
  function ApplyEdits(d: DemographicsData, es: seq<Edit>): DemographicsData
    decreases |es|
  {
    if es == [] then d else ApplyEdits(HandleChange(d, es[0].field, es[0].value), es[1..])
  }

  /** No key is ever dropped, and a key no edit names keeps its value. */
  lemma {:induction false} UneditedKeysSurvive(d: DemographicsData, es: seq<Edit>, k: string)
    requires forall i :: 0 <= i < |es| ==> es[i].field != k
    ensures d.Keys <= ApplyEdits(d, es).Keys
    ensures k in d ==> k in ApplyEdits(d, es) && ApplyEdits(d, es)[k] == d[k]
    decreases |es|
  {
    if es != [] {
      assert forall i :: 0 <= i < |es[1..]| ==> es[1..][i] == es[i + 1];
      UneditedKeysSurvive(HandleChange(d, es[0].field, es[0].value), es[1..], k);
    }
  }

  /** The final record's keys are the initial keys plus the keys some edit wrote. */
  lemma {:induction false} WrittenKeys(d: DemographicsData, es: seq<Edit>)
    ensures ApplyEdits(d, es).Keys == d.Keys + (set i | 0 <= i < |es| :: es[i].field)
    decreases |es|
  {
    if es != [] {
      var d' := HandleChange(d, es[0].field, es[0].value);
      WrittenKeys(d', es[1..]);
      var all := set i | 0 <= i < |es| :: es[i].field;
      var rest := set i | 0 <= i < |es[1..]| :: es[1..][i].field;
      forall x ensures x in all <==> x == es[0].field || x in rest {
        if x in all {
          var i :| 0 <= i < |es| && es[i].field == x;
          if i > 0 { assert es[1..][i - 1].field == x; }
        }
        if x in rest {
          var i :| 0 <= i < |es[1..]| && es[1..][i].field == x;
          assert es[i + 1].field == x;
        }
      }
    }
  }

  /** A key outside the five the form writes survives every sequence of form edits unchanged. */
  lemma ForeignKeySurvivesForm(d: DemographicsData, es: seq<Edit>, k: string)
    requires forall i :: 0 <= i < |es| ==> FormEdit(es[i])
    requires k in d && k !in FormFields
    ensures k in ApplyEdits(d, es) && ApplyEdits(d, es)[k] == d[k]
  {
    UneditedKeysSurvive(d, es, k);
  }

  /** Every radio key present holds either nothing yet or one of its group's options. */
  predicate SelectionsValid(d: DemographicsData) {
    forall f :: f in RadioOptions && f in d ==> d[f] == "" || d[f] in RadioOptions[f]
  }

  /** Form edits keep the radio keys within their option lists. */
  lemma {:induction false} SelectionsStayValid(d: DemographicsData, es: seq<Edit>)
    requires SelectionsValid(d)
    requires forall i :: 0 <= i < |es| ==> FormEdit(es[i])
    ensures SelectionsValid(ApplyEdits(d, es))
    decreases |es|
  {
    if es != [] {
      var d' := HandleChange(d, es[0].field, es[0].value);
      assert FormEdit(es[0]);
      assert SelectionsValid(d');
      assert forall i :: 0 <= i < |es[1..]| ==> es[1..][i] == es[i + 1];
      SelectionsStayValid(d', es[1..]);
    }
  }

  /**
    The mounted demographics form. Its local state starts as the parent's
    section; each edit updates it and is emitted as the whole record.
   */
  class Form {
    var formData: DemographicsData

    constructor (initialData: DemographicsData)
      ensures formData == initialData
    {
      formData := initialData;
    }

    /** The effect that hands the current local state to the parent. */
    method Emit() returns (emitted: DemographicsData)
      ensures emitted == formData
    {
      emitted := formData;
    }

    /** An input changed: update the local state and emit it. */
    method Changed(field: string, value: string) returns (emitted: DemographicsData)
      modifies this
      ensures formData == HandleChange(old(formData), field, value)
      ensures emitted == formData
    {
      formData := HandleChange(formData, field, value);
      emitted := Emit();
    }
  }
}

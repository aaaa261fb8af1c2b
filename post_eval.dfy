/**
  The post-session evaluation section. The form keeps no state of its own:
  every displayed value is read from the data the wizard passes in, and a
  change rebuilds the emitted record from that data with one field replaced.
 */
module PostEval {
  import NasaTlx

  datatype PostEvalData = PostEvalData(
    preferredTechnique: string,
    preferredTechniqueReason: string,
    mostAccurateTechnique: string,
    mostAccurateReason: string,
    clinicalChoice: string,
    clinicalChoiceReason: string)

  /** The six keys of the record. */
  datatype Field =
    | PreferredTechnique | PreferredTechniqueReason
    | MostAccurateTechnique | MostAccurateReason
    | ClinicalChoice | ClinicalChoiceReason

  /** The record with every answer empty, as the wizard creates it. */
  function Empty(): (d: PostEvalData)
    ensures forall f :: Get(d, f) == ""
  {
    PostEvalData("", "", "", "", "", "")
  }

  /** The value bound to the input for field f, read straight from the passed-in data. */
  function Get(d: PostEvalData, f: Field): string {
    match f
    case PreferredTechnique => d.preferredTechnique
    case PreferredTechniqueReason => d.preferredTechniqueReason
    case MostAccurateTechnique => d.mostAccurateTechnique
    case MostAccurateReason => d.mostAccurateReason
    case ClinicalChoice => d.clinicalChoice
    case ClinicalChoiceReason => d.clinicalChoiceReason
  }

  /** The three radio questions (the other three fields are their free-text reasons). */
  predicate IsTechniqueQuestion(f: Field) {
    f == PreferredTechnique || f == MostAccurateTechnique || f == ClinicalChoice
  }

  /** The reason field under each technique question. */
  function ReasonFor(f: Field): (g: Field)
    requires IsTechniqueQuestion(f)
    ensures !IsTechniqueQuestion(g)
  {
    match f
    case PreferredTechnique => PreferredTechniqueReason
    case MostAccurateTechnique => MostAccurateReason
    case ClinicalChoice => ClinicalChoiceReason
  }

  /** Each of the six fields is exactly one question or exactly one question's reason. */
  lemma QuestionsPairWithReasons(g: Field)
    ensures !IsTechniqueQuestion(g) <==> exists f :: IsTechniqueQuestion(f) && ReasonFor(f) == g
    ensures forall f, f' :: IsTechniqueQuestion(f) && IsTechniqueQuestion(f') && ReasonFor(f) == ReasonFor(f') ==> f == f'
  {
    if g == PreferredTechniqueReason { assert ReasonFor(PreferredTechnique) == g; }
    if g == MostAccurateReason { assert ReasonFor(MostAccurateTechnique) == g; }
    if g == ClinicalChoiceReason { assert ReasonFor(ClinicalChoice) == g; }
  }

  /** One radio option: the value stored in the record and the text shown beside it. */
  datatype Choice = Choice(value: string, shown: string)

  /** The radio options of each technique question, as each group lists them. */
  function Choices(f: Field): seq<Choice>
    requires IsTechniqueQuestion(f)
  {
    match f
    case PreferredTechnique => [
      Choice("freehand", "Freehand"),
      Choice("inPlaneGuide", "In-plane needle guide"),
      Choice("outOfPlaneGuide", "Out-of-plane needle guide")]
    case MostAccurateTechnique => [
      Choice("freehand", "Freehand"),
      Choice("inPlaneGuide", "In-plane needle guide"),
      Choice("outOfPlaneGuide", "Out-of-plane needle Guide")]
    case ClinicalChoice => [
      Choice("freehand", "Freehand"),
      Choice("inPlaneGuide", "In-plane needle guide"),
      Choice("outOfPlaneGuide", "Out-of-plane needle guide")]
  }

  /**
    Every technique question offers three options, and the values it can store
    are exactly the keys of the three techniques that were rated, one option each.
   */
  lemma ChoicesAreTechniques(f: Field, s: string)
    requires IsTechniqueQuestion(f)
    ensures |Choices(f)| == 3
    ensures forall t :: Choices(f)[NasaTlx.TechniqueIndex(t)].value == NasaTlx.TechniqueKey(t)
    ensures (exists i :: 0 <= i < |Choices(f)| && Choices(f)[i].value == s) <==> exists t :: NasaTlx.TechniqueKey(t) == s
  {
    var cs := Choices(f);
    if exists i :: 0 <= i < |cs| && cs[i].value == s {
      var i :| 0 <= i < |cs| && cs[i].value == s;
      if i == 0 { assert NasaTlx.TechniqueKey(NasaTlx.Freehand) == s; }
      else if i == 1 { assert NasaTlx.TechniqueKey(NasaTlx.InPlaneGuide) == s; }
      else { assert NasaTlx.TechniqueKey(NasaTlx.OutOfPlaneGuide) == s; }
    }
    if exists t :: NasaTlx.TechniqueKey(t) == s {
      var t :| NasaTlx.TechniqueKey(t) == s;
      assert cs[NasaTlx.TechniqueIndex(t)].value == s;
    }
  }

  /**
    `{ ...initialData, [field]: value }`: the object the change handler emits.
    It depends only on the passed-in data, the field and the value; any string
    is accepted, with no validation.
   */
  function HandleChange(initialData: PostEvalData, f: Field, value: string): (d: PostEvalData)
    ensures Get(d, f) == value
    ensures forall g :: g != f ==> Get(d, g) == Get(initialData, g)
  {
    match f
    case PreferredTechnique => initialData.(preferredTechnique := value)
    case PreferredTechniqueReason => initialData.(preferredTechniqueReason := value)
    case MostAccurateTechnique => initialData.(mostAccurateTechnique := value)
    case MostAccurateReason => initialData.(mostAccurateReason := value)
    case ClinicalChoice => initialData.(clinicalChoice := value)
    case ClinicalChoiceReason => initialData.(clinicalChoiceReason := value)
  }

  /** Two records that agree on every field are equal. */
  lemma FieldsDetermineRecord(a: PostEvalData, b: PostEvalData)
    requires forall f :: Get(a, f) == Get(b, f)
    ensures a == b
  {
    assert Get(a, PreferredTechnique) == Get(b, PreferredTechnique);
    assert Get(a, PreferredTechniqueReason) == Get(b, PreferredTechniqueReason);
    assert Get(a, MostAccurateTechnique) == Get(b, MostAccurateTechnique);
    assert Get(a, MostAccurateReason) == Get(b, MostAccurateReason);
    assert Get(a, ClinicalChoice) == Get(b, ClinicalChoice);
    assert Get(a, ClinicalChoiceReason) == Get(b, ClinicalChoiceReason);
  }

  /** Re-entering a field's current value emits the passed-in data unchanged. */
  lemma SameValueEmitsSame(d: PostEvalData, f: Field)
    ensures HandleChange(d, f, Get(d, f)) == d
  {
    FieldsDetermineRecord(HandleChange(d, f, Get(d, f)), d);
  }

  /**
    The emitted record is the only one that carries the new value in f and
    agrees with the passed-in data elsewhere.
   */
  lemma ChangeIsUnique(d: PostEvalData, f: Field, value: string, e: PostEvalData)
    requires Get(e, f) == value
    requires forall g :: g != f ==> Get(e, g) == Get(d, g)
    ensures e == HandleChange(d, f, value)
  {
    FieldsDetermineRecord(e, HandleChange(d, f, value));
  }

  /**
    Two edits built against the same stale data: the second emission carries
    the stale value of the first edit's field, so the first edit is lost.
   */
  lemma StaleSecondEditLosesFirst(d: PostEvalData, f: Field, v: string, g: Field, w: string)
    requires f != g && v != Get(d, f)
    ensures var first := HandleChange(d, f, v);
            var second := HandleChange(d, g, w);
            Get(first, f) == v && Get(second, f) == Get(d, f) && second != HandleChange(first, g, w)
  {
    var first := HandleChange(d, f, v);
    var second := HandleChange(d, g, w);
    assert Get(HandleChange(first, g, w), f) == v;
  }

  /** Two edits to different fields, each built from the previous emission, commute. */
  lemma FreshEditsCommute(d: PostEvalData, f: Field, v: string, g: Field, w: string)
    requires f != g
    ensures HandleChange(HandleChange(d, f, v), g, w) == HandleChange(HandleChange(d, g, w), f, v)
  {
    FieldsDetermineRecord(HandleChange(HandleChange(d, f, v), g, w), HandleChange(HandleChange(d, g, w), f, v));
  }
}

/** The client-side questionnaire: its validation schema, its question list
    with conditional visibility, the step navigation, the filter applied on
    mount and the payload it submits to the questionnaire route. */
module QuestionnairePage {
  import opened Wrappers
  import opened Json
  import QuestionnaireApi

  /** Show a question only when `field` currently holds `value`. */
  datatype Condition = Condition(field: string, value: string)

  datatype Question = Question(id: string, required: bool, conditional: Option<Condition>)

  /** The `questions` list, in display order (titles, icons and input types
      are presentation and left out). */
  const Questions: seq<Question> := [
    Question("phone", true, None),
    Question("businessName", true, None),
    Question("programLink", true, None),
    Question("needIntakeForm", true, None),
    Question("intakeFormLink", false, Some(Condition("needIntakeForm", "no"))),
    Question("faqDocument", true, None),
    Question("emailTone", true, None),
    Question("upcomingEvents", false, None),
    Question("emailSignature", true, None),
    Question("questionHandling", true, None),
    Question("otherHandling", false, Some(Condition("questionHandling", "other"))),
    Question("customResource", false, None)]

  /** Every question asks for a distinct field of the schema, and together
      they ask for every schema field except the two the landing page
      collects. */
  lemma QuestionIds()
    ensures forall i, j | 0 <= i < j < |Questions| :: Questions[i].id != Questions[j].id
    ensures forall i | 0 <= i < |Questions| :: Questions[i].id in SchemaFields && KeptOnMount(Questions[i])
    ensures |Questions| == |SchemaFields| - 2
  {
  }

  /** Only the intake-form link and the custom handling text are conditional. */
  lemma OnlyTwoConditional()
    ensures forall i | 0 <= i < |Questions| ::
      Questions[i].conditional.Some? <==> Questions[i].id == "intakeFormLink" || Questions[i].id == "otherHandling"
    ensures forall i | 0 <= i < |Questions| && Questions[i].id == "intakeFormLink" ::
      Questions[i].conditional == Some(Condition("needIntakeForm", "no"))
    ensures forall i | 0 <= i < |Questions| && Questions[i].id == "otherHandling" ::
      Questions[i].conditional == Some(Condition("questionHandling", "other"))
  {
  }

  /** The zod format checks, left abstract. */
  datatype Formats = Formats(isEmail: string -> bool, isUrl: string -> bool)

  /** The form's current values (`watch()`); an absent key is undefined. */
  type FormValues = map<string, Value>

  /** JavaScript's `s.length`: UTF-16 code units, so a character outside
      the Basic Multilingual Plane counts twice. */
  function Utf16Length(s: string): (r: nat)
    ensures |s| <= r <= 2 * |s|
  {
    if s == [] then 0
    else (if s[0] as int > 0xFFFF then 2 else 1) + Utf16Length(s[1..])
  }

  /** zod's `.min(n)` on a string field. */
  predicate MinLength(values: FormValues, key: string, n: nat) {
    key in values && values[key].Str? && Utf16Length(values[key].s) >= n
  }

  predicate OneOf(values: FormValues, key: string, options: set<string>) {
    key in values && values[key].Str? && values[key].s in options
  }

  predicate OptionalString(values: FormValues, key: string) {
    key !in values || values[key].Str?
  }

  /** The keys of `questionnaireSchema`, in declaration order. */
  const SchemaFields: seq<string> := [
    "fullName", "businessName", "email", "phone", "programLink", "intakeFormLink",
    "needIntakeForm", "faqDocument", "customResource", "emailTone", "upcomingEvents",
    "emailSignature", "questionHandling", "otherHandling"]

  /** The schema's rule for one field (what `trigger(id)` checks). */
  function FieldValid(id: string, values: FormValues, fmt: Formats): (r: bool)
    ensures id !in SchemaFields ==> r
    ensures r && id in SchemaFields && id in values ==> values[id].Str?
  {
    if id == "fullName" then MinLength(values, id, 2)
    else if id == "businessName" then MinLength(values, id, 2)
    else if id == "email" then id in values && values[id].Str? && fmt.isEmail(values[id].s)
    else if id == "phone" then MinLength(values, id, 10)
    else if id == "programLink" then MinLength(values, id, 1)
    else if id == "intakeFormLink" then
      id !in values || (values[id].Str? && (values[id].s == "" || fmt.isUrl(values[id].s)))
    else if id == "needIntakeForm" then OneOf(values, id, {"yes", "no"})
    else if id == "faqDocument" then MinLength(values, id, 1)
    else if id == "customResource" then OptionalString(values, id)
    else if id == "emailTone" then OneOf(values, id, {"professional", "friendly", "motivational"})
    else if id == "upcomingEvents" then OptionalString(values, id)
    else if id == "emailSignature" then MinLength(values, id, 1)
    else if id == "questionHandling" then OneOf(values, id, {"forward", "flag", "other"})
    else if id == "otherHandling" then OptionalString(values, id)
    else true
  }

  /** The whole schema accepts the form. */
  function SchemaValid(values: FormValues, fmt: Formats): (r: bool)
    ensures r ==> forall i | 0 <= i < |SchemaFields| && SchemaFields[i] in values ::
      values[SchemaFields[i]].Str?
  {
    forall i | 0 <= i < |SchemaFields| :: FieldValid(SchemaFields[i], values, fmt)
  }

  /** What an accepted form guarantees about each constrained field. */
  lemma SchemaValidMeans(values: FormValues, fmt: Formats)
    requires SchemaValid(values, fmt)
    ensures MinLength(values, "fullName", 2) && MinLength(values, "businessName", 2)
    ensures "email" in values && values["email"].Str? && fmt.isEmail(values["email"].s)
    ensures MinLength(values, "phone", 10)
    ensures MinLength(values, "programLink", 1) && MinLength(values, "faqDocument", 1)
    ensures MinLength(values, "emailSignature", 1)
    ensures OneOf(values, "needIntakeForm", {"yes", "no"})
    ensures OneOf(values, "emailTone", {"professional", "friendly", "motivational"})
    ensures OneOf(values, "questionHandling", {"forward", "flag", "other"})
    ensures "intakeFormLink" in values ==>
      values["intakeFormLink"].Str? && (values["intakeFormLink"].s == "" || fmt.isUrl(values["intakeFormLink"].s))
  {
    assert FieldValid(SchemaFields[0], values, fmt) && FieldValid(SchemaFields[1], values, fmt);
    assert FieldValid(SchemaFields[2], values, fmt) && FieldValid(SchemaFields[3], values, fmt);
    assert FieldValid(SchemaFields[4], values, fmt) && FieldValid(SchemaFields[5], values, fmt);
    assert FieldValid(SchemaFields[6], values, fmt) && FieldValid(SchemaFields[7], values, fmt);
    assert FieldValid(SchemaFields[9], values, fmt) && FieldValid(SchemaFields[11], values, fmt);
    assert FieldValid(SchemaFields[12], values, fmt);
  }

  /** `shouldShowQuestion`. */
  function ShouldShow(q: Question, watched: FormValues): (r: bool)
    ensures q.conditional.None? ==> r
    ensures q.conditional.Some? && q.conditional.value.field !in watched ==> !r
    ensures q.conditional.Some? ==>
      (r <==> Get(Obj(watched), q.conditional.value.field) == Some(Str(q.conditional.value.value)))
  {
    q.conditional.None? ||
    (q.conditional.value.field in watched && watched[q.conditional.value.field] == Str(q.conditional.value.value))
  }

  /** Over the fixed list: every question is shown except the intake-form
      link when needIntakeForm is not "no" and the handling text when
      questionHandling is not "other". */
  lemma ShownQuestions(watched: FormValues, i: nat)
    requires i < |Questions|
    ensures ShouldShow(Questions[i], watched) <==>
      && (Questions[i].id == "intakeFormLink" ==>
            "needIntakeForm" in watched && watched["needIntakeForm"] == Str("no"))
      && (Questions[i].id == "otherHandling" ==>
            "questionHandling" in watched && watched["questionHandling"] == Str("other"))
  {
    OnlyTwoConditional();
  }

  /** `getNextValidStep`: the first shown question after `step`, or the
      number of questions when there is none. */
  method NextValidStep(qs: seq<Question>, watched: FormValues, step: nat) returns (r: nat)
    ensures r <= |qs|
    ensures r < |qs| ==> step < r && ShouldShow(qs[r], watched)
    ensures forall i | step < i < r :: !ShouldShow(qs[i], watched)
    ensures r == |qs| || step < r
  {
    var i := step + 1;
    while i < |qs|
      invariant step < i
      invariant forall j | step < j < i && j < |qs| :: !ShouldShow(qs[j], watched)
    {
      if ShouldShow(qs[i], watched) {
        return i;
      }
      i := i + 1;
    }
    return |qs|;
  }

  /** `getPrevValidStep`: the last shown question before `step`, or 0 when
      there is none. */
  method PrevValidStep(qs: seq<Question>, watched: FormValues, step: nat) returns (r: nat)
    requires step <= |qs|
    ensures 0 < step ==> r < step
    ensures step == 0 ==> r == 0
    ensures 0 < r ==> ShouldShow(qs[r], watched)
    ensures forall i | r < i < step :: !ShouldShow(qs[i], watched)
  {
    var i: int := step - 1;
    while i >= 0
      invariant -1 <= i < step
      invariant forall j | i < j < step :: !ShouldShow(qs[j], watched)
    {
      if ShouldShow(qs[i], watched) {
        return i;
      }
      i := i - 1;
    }
    return 0;
  }

  /** The mount filter's test: drop the questions collected on the landing
      page. */
  predicate KeptOnMount(q: Question) {
    q.id != "fullName" && q.id != "email"
  }

  /** `questions.filter(...)`. */
  function Filter(qs: seq<Question>): (r: seq<Question>)
    ensures |r| <= |qs|
    ensures forall q :: q in r <==> q in qs && KeptOnMount(q)
  {
    if qs == [] then []
    else (if KeptOnMount(qs[0]) then [qs[0]] else []) + Filter(qs[1..])
  }

  /** The filter keeps the relative order of what it keeps. */
  lemma {:induction false} FilterAppend(a: seq<Question>, b: seq<Question>)
    ensures Filter(a + b) == Filter(a) + Filter(b)
  {
    if a == [] {
      assert a + b == b;
    } else {
      assert (a + b)[1..] == a[1..] + b;
      FilterAppend(a[1..], b);
    }
  }

  /** A list with nothing to drop comes back unchanged. */
  lemma {:induction false} FilterKeepsAll(qs: seq<Question>)
    requires AllKept(qs)
    ensures Filter(qs) == qs
  {
    if qs != [] {
      FilterKeepsAll(qs[1..]);
    }
  }

  /** The list shown after mount: filtered when the landing page stored
      data, the full list otherwise. */
  function MountFilter(qs: seq<Question>, hasStored: bool): (r: seq<Question>)
    ensures !hasStored ==> r == qs
    ensures forall q :: q in r <==> q in qs && (hasStored ==> KeptOnMount(q))
  {
    if hasStored then Filter(qs) else qs
  }

  /** No question has id fullName or email, so the filter is the identity. */
  lemma MountLeavesQuestions(hasStored: bool)
    ensures MountFilter(Questions, hasStored) == Questions
  {
    NoLandingPageQuestion();
    FilterKeepsAll(Questions);
  }

  lemma NoLandingPageQuestion()
    ensures AllKept(Questions)
  {
  }

  /** Nothing in the list is one of the landing-page questions. */
  predicate AllKept(qs: seq<Question>) {
    forall i | 0 <= i < |qs| :: KeptOnMount(qs[i])
  }

  /** `{ ...initialData, ...data }`: form values win on shared keys and keys
      only in the stored data are kept. */
  function Merge(initial: Object, data: Object): (r: Object)
    ensures r.Keys == initial.Keys + data.Keys
    ensures forall k | k in data :: r[k] == data[k]
    ensures forall k | k in initial && k !in data :: r[k] == initial[k]
  {
    initial + data
  }

  /** What zod's parse hands to `onSubmit`: the schema's keys only. */
  function SchemaOutput(values: FormValues): (r: Object)
    ensures forall k | k in r :: k in values && k in SchemaFields && r[k] == values[k]
    ensures forall k | k in values && k in SchemaFields :: k in r
  {
    map k | k in values && k in SchemaFields :: values[k]
  }

  /** The form values pre-filled on mount from the stored landing-page data. */
  function Prefill(stored: Option<Object>): (r: FormValues)
    ensures r.Keys <= {"fullName", "email"}
    ensures "fullName" in r <==> stored.Some? && Holds(Get(Obj(stored.value), "name"))
    ensures "email" in r <==> stored.Some? && Holds(Get(Obj(stored.value), "email"))
    ensures "fullName" in r ==> Some(r["fullName"]) == Get(Obj(stored.value), "name")
    ensures "email" in r ==> Some(r["email"]) == Get(Obj(stored.value), "email")
  {
    if stored.None? then map[]
    else
      var data := Obj(stored.value);
      var withName := if Holds(Get(data, "name")) then map["fullName" := Get(data, "name").value] else map[];
      if Holds(Get(data, "email")) then withName["email" := Get(data, "email").value] else withName
  }

  /** The body `onSubmit` posts, or None when the schema rejects the form
      and `onSubmit` is not called. */
  function SubmissionBody(stored: Option<Object>, values: FormValues, fmt: Formats): (r: Option<Value>)
    ensures r.Some? <==> SchemaValid(values, fmt)
    ensures r.Some? ==> r.value.Obj?
    ensures r.Some? ==> forall k | k in values && k in SchemaFields ::
      k in r.value.fields && r.value.fields[k] == values[k]
    ensures r.Some? && stored.Some? ==> forall k | k in stored.value && !(k in values && k in SchemaFields) ::
      k in r.value.fields && r.value.fields[k] == stored.value[k]
    ensures r.Some? ==> forall k | k in r.value.fields ::
      (k in values && k in SchemaFields) || (stored.Some? && k in stored.value)
  {
    if SchemaValid(values, fmt) then
      Some(Obj(Merge(if stored.Some? then stored.value else map[], SchemaOutput(values))))
    else None
  }

  /** Without a name the schema never accepts the form. */
  lemma NoNameNeverAccepted(values: FormValues, fmt: Formats)
    requires "fullName" !in values
    ensures !SchemaValid(values, fmt)
  {
    assert !FieldValid(SchemaFields[0], values, fmt);
  }

  /** Every field the route requires is a non-empty string in a form the
      schema accepts. */
  lemma AcceptedRequiredNonEmpty(values: FormValues, fmt: Formats, f: string)
    requires SchemaValid(values, fmt) && !fmt.isEmail("")
    requires f in QuestionnaireApi.RequiredFields
    ensures f in values && values[f].Str? && values[f].s != ""
  {
    SchemaValidMeans(values, fmt);
  }

  /** A form the schema accepts passes the route's required-field check,
      whatever the stored landing-page data holds (given that the empty
      string is not a valid email address). */
  lemma AcceptedFormPassesRoute(stored: Option<Object>, values: FormValues, fmt: Formats)
    requires SchemaValid(values, fmt) && !fmt.isEmail("")
    ensures QuestionnaireApi.MissingField(SubmissionBody(stored, values, fmt).value) == None
  {
    var body := SubmissionBody(stored, values, fmt).value;
    var required := QuestionnaireApi.RequiredFields;
    forall i | 0 <= i < |required| ensures QuestionnaireApi.Present(body, required[i]) {
      var f := required[i];
      AcceptedRequiredNonEmpty(values, fmt, f);
      assert f in SchemaFields;
      assert Get(body, f) == Some(values[f]);
    }
  }

  /** The questionnaire page's state: the question list after mount, the
      current step and the form values. */
  class Wizard {
    var questions: seq<Question>
    var currentStep: nat
    var values: FormValues

    ghost predicate Valid()
      reads this
    {
      && currentStep < |questions|
      && AllKept(questions)
    }

    /** The page after its mount effect ran with the stored landing-page
        data (None when there is none). */
    constructor (stored: Option<Object>)
      ensures Valid() && currentStep == 0
      ensures questions == MountFilter(Questions, stored.Some?) && questions == Questions
      ensures values == Prefill(stored)
    {
      var qs := MountFilter(Questions, stored.Some?);
      MountLeavesQuestions(stored.Some?);
      NoLandingPageQuestion();
      questions := qs;
      currentStep := 0;
      values := Prefill(stored);
    }

    /** The user answers the current question. No question sets the
        landing-page fields, so whether a name and an email are in the form
        stays as the mount left it. */
    method Answer(v: Value)
      requires Valid()
      modifies this`values
      ensures Valid()
      ensures values == old(values)[questions[currentStep].id := v]
      ensures ("fullName" in values) == ("fullName" in old(values))
      ensures ("email" in values) == ("email" in old(values))
    {
      values := values[questions[currentStep].id := v];
    }

    /** `handleNext`: when the current field validates, move to the next
        shown question, or ask for submission when there is none. */
    method HandleNext(fmt: Formats) returns (submit: bool)
      requires Valid()
      modifies this`currentStep
      ensures Valid()
      ensures !FieldValid(questions[old(currentStep)].id, values, fmt) ==>
        currentStep == old(currentStep) && !submit
      ensures FieldValid(questions[old(currentStep)].id, values, fmt) ==>
        (submit <==> forall i | old(currentStep) < i < |questions| :: !ShouldShow(questions[i], values))
      ensures submit ==> currentStep == old(currentStep)
      ensures currentStep == old(currentStep) <==>
        !FieldValid(questions[old(currentStep)].id, values, fmt) || submit
      ensures currentStep != old(currentStep) ==>
        && old(currentStep) < currentStep
        && ShouldShow(questions[currentStep], values)
        && forall i | old(currentStep) < i < currentStep :: !ShouldShow(questions[i], values)
    {
      submit := false;
      if FieldValid(questions[currentStep].id, values, fmt) {
        var next := NextValidStep(questions, values, currentStep);
        if next < |questions| {
          currentStep := next;
        } else {
          submit := true;
        }
      }
    }

    /** `handlePrev`: move to the previous shown question, or to 0. */
    method HandlePrev()
      requires Valid()
      modifies this`currentStep
      ensures Valid()
      ensures currentStep <= old(currentStep)
      ensures 0 < old(currentStep) ==> currentStep < old(currentStep)
      ensures 0 < currentStep ==> ShouldShow(questions[currentStep], values)
      ensures forall i | currentStep < i < old(currentStep) :: !ShouldShow(questions[i], values)
    {
      currentStep := PrevValidStep(questions, values, currentStep);
    }
  }
}

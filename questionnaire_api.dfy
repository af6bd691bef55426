/** The questionnaire route: POST validates and stores an intake, GET reads
    one back by id. */
module QuestionnaireApi {
  import opened Wrappers
  import opened Json
  import opened Http
  import opened Store

  /** The required fields, in the order they are checked. */
  const RequiredFields: seq<string> := [
    "fullName", "businessName", "email", "phone", "programLink",
    "needIntakeForm", "faqDocument", "emailTone", "emailSignature", "questionHandling"]

  /** A field passes the check `!body[field] && body[field] !== false` when
      it is truthy or exactly `false`. */
  predicate Present(body: Value, field: string) {
    var v := Get(body, field);
    v.Some? && (Truthy(v.value) || v.value == Bool(false))
  }

  /** Absent, null, "" and 0 are the missing values; everything else,
      `false` included, is present. */
  lemma PresentExactly(body: Value, field: string)
    ensures Present(body, field) <==>
      && Get(body, field).Some?
      && Get(body, field).value !in {Null, Str(""), Num(0)}
  {
  }

  predicate AllPresent(body: Value, fields: seq<string>) {
    forall i | 0 <= i < |fields| :: Present(body, fields[i])
  }

  /** `fields[k]` is the first field of the list that is missing. */
  predicate FirstMissingAt(body: Value, fields: seq<string>, k: int) {
    && 0 <= k < |fields|
    && !Present(body, fields[k])
    && forall j | 0 <= j < k :: Present(body, fields[j])
  }

  /** The position of the first missing field of `fields`, if any. */
  function MissingIndex(body: Value, fields: seq<string>): (r: Option<nat>)
    ensures r.None? <==> AllPresent(body, fields)
    ensures r.Some? ==> FirstMissingAt(body, fields, r.value)
  {
    if fields == [] then None
    else if !Present(body, fields[0]) then Some(0)
    else match MissingIndex(body, fields[1..])
      case None => None
      case Some(k) => Some(k + 1)
  }

  /** The required field the 400 response names, if any. */
  function MissingField(body: Value): (r: Option<string>)
    ensures r.None? <==> AllPresent(body, RequiredFields)
    ensures r.Some? ==> exists k :: FirstMissingAt(body, RequiredFields, k) && RequiredFields[k] == r.value
  {
    match MissingIndex(body, RequiredFields)
    case None => None
    case Some(k) => Some(RequiredFields[k])
  }

  /** The required-field loop with its early return. */
  method FirstMissing(body: Value) returns (missing: Option<string>)
    ensures missing.None? <==> AllPresent(body, RequiredFields)
    ensures missing.Some? ==> exists k :: FirstMissingAt(body, RequiredFields, k) && RequiredFields[k] == missing.value
    ensures missing == MissingField(body)
  {
    for i := 0 to |RequiredFields|
      invariant forall j | 0 <= j < i :: Present(body, RequiredFields[j])
    {
      var v := Get(body, RequiredFields[i]);
      if !Holds(v) && v != Some(Bool(false)) {
        assert FirstMissingAt(body, RequiredFields, i);
        return Some(RequiredFields[i]);
      }
    }
    return None;
  }

  /** The `intakeData` object: required fields copied under their
      snake_case names, optional ones as `value || null`, needIntakeForm
      compared with "yes", and status forced to submitted. */
  function ToRecord(body: Value): (r: IntakeInsert)
    requires AllPresent(body, RequiredFields)
    ensures Some(r.fullName) == Get(body, "fullName")
    ensures Some(r.businessName) == Get(body, "businessName")
    ensures Some(r.email) == Get(body, "email")
    ensures Some(r.phone) == Get(body, "phone")
    ensures Some(r.programLink) == Get(body, "programLink")
    ensures Some(r.faqDocument) == Get(body, "faqDocument")
    ensures Some(r.emailTone) == Get(body, "emailTone")
    ensures Some(r.emailSignature) == Get(body, "emailSignature")
    ensures Some(r.questionHandling) == Get(body, "questionHandling")
    ensures r.needIntakeForm <==> Get(body, "needIntakeForm") == Some(Str("yes"))
    ensures StoredOptional(r.intakeFormUrl, Get(body, "intakeFormLink"))
    ensures StoredOptional(r.customResource, Get(body, "customResource"))
    ensures StoredOptional(r.upcomingEvents, Get(body, "upcomingEvents"))
    ensures StoredOptional(r.otherHandling, Get(body, "otherHandling"))
    ensures r.status == Submitted
  {
    RequiredPresent(body);
    IntakeInsert(
      Get(body, "fullName").value,
      Get(body, "businessName").value,
      Get(body, "email").value,
      Get(body, "phone").value,
      Get(body, "programLink").value,
      OrNull(Get(body, "intakeFormLink")),
      Get(body, "needIntakeForm") == Some(Str("yes")),
      Get(body, "faqDocument").value,
      OrNull(Get(body, "customResource")),
      Get(body, "emailTone").value,
      OrNull(Get(body, "upcomingEvents")),
      Get(body, "emailSignature").value,
      Get(body, "questionHandling").value,
      OrNull(Get(body, "otherHandling")),
      Submitted)
  }

  /** An optional column holds null when the input is falsy (never "" or
      false) and the input itself otherwise. */
  predicate StoredOptional(column: Value, input: Option<Value>) {
    && (column == Null <==> !Holds(input))
    && (Holds(input) ==> column == input.value)
    && column != Str("")
  }

  lemma RequiredPresent(body: Value)
    requires AllPresent(body, RequiredFields)
    ensures Present(body, "fullName") && Present(body, "businessName") && Present(body, "email")
    ensures Present(body, "phone") && Present(body, "programLink") && Present(body, "needIntakeForm")
    ensures Present(body, "faqDocument") && Present(body, "emailTone") && Present(body, "emailSignature")
    ensures Present(body, "questionHandling")
  {
    assert RequiredFields[0] == "fullName" && RequiredFields[1] == "businessName";
    assert RequiredFields[2] == "email" && RequiredFields[3] == "phone";
    assert RequiredFields[4] == "programLink" && RequiredFields[5] == "needIntakeForm";
    assert RequiredFields[6] == "faqDocument" && RequiredFields[7] == "emailTone";
    assert RequiredFields[8] == "emailSignature" && RequiredFields[9] == "questionHandling";
  }

  /** For a body that passes validation, the database accepts the record
      exactly when emailTone and questionHandling are among their listed
      literals: the route itself never checks them. */
  lemma InsertAcceptedIff(body: Value, id: string)
    requires AllPresent(body, RequiredFields)
    ensures RowOf(id, ToRecord(body)).Some? <==>
      && Get(body, "emailTone").value in {Str("professional"), Str("friendly"), Str("motivational")}
      && Get(body, "questionHandling").value in {Str("forward"), Str("flag"), Str("other")}
  {
    RequiredPresent(body);
    var ins := ToRecord(body);
    assert NotNullColumnsSet(ins);
    assert ToneOf(ins.emailTone).Some? <==> ins.emailTone in {Str("professional"), Str("friendly"), Str("motivational")};
    assert HandlingOf(ins.questionHandling).Some? <==> ins.questionHandling in {Str("forward"), Str("flag"), Str("other")};
  }

  /** The questionnaire_submitted log payload, read from the stored row. */
  function SubmittedPayload(row: IntakeRow): (r: Object)
    ensures r.Keys == {"intake_id", "coach_email", "business_name"}
    ensures r["intake_id"] == Str(row.id)
    ensures r["coach_email"] == row.email && r["business_name"] == row.businessName
  {
    map["intake_id" := Str(row.id), "coach_email" := row.email, "business_name" := row.businessName]
  }

  /** The success response. */
  function SubmittedReply(id: string): (r: Object)
    ensures r.Keys == {"success", "intake_id", "message"}
    ensures r["success"] == Bool(true) && r["intake_id"] == Str(id)
  {
    map[
      "success" := Bool(true),
      "intake_id" := Str(id),
      "message" := Str("Questionnaire submitted successfully")]
  }

  /** POST /api/questionnaire. `newId` is the primary key the database
      would generate for the row and `fault` a transport failure of the
      insert. */
  method Submit(db: Db, body: Body, newId: string, fault: bool) returns (resp: Response)
    requires db.Valid()
    modifies db
    ensures db.Valid() && db.payments == old(db.payments)
    ensures body.Malformed? || body == Parsed(Null) ==>
      resp == Error(500, "Internal server error") && db.intakes == old(db.intakes) && db.log == old(db.log)
    ensures body.Parsed? && body.value != Null && MissingField(body.value).Some? ==>
      && resp == Error(400, "Missing required field: " + MissingField(body.value).value)
      && db.intakes == old(db.intakes) && db.log == old(db.log)
    ensures body.Parsed? && body.value != Null && MissingField(body.value).None? ==>
      var row := RowOf(newId, ToRecord(body.value));
      var saved := !fault && newId !in old(db.intakes) && row.Some?;
      && (!saved ==>
            resp == Error(500, "Failed to save questionnaire")
            && db.intakes == old(db.intakes) && db.log == old(db.log))
      && (saved ==>
            && db.intakes == old(db.intakes)[newId := row.value]
            && db.log == old(db.log) + [LogEntry("questionnaire_submitted", SubmittedPayload(row.value))]
            && resp == Ok(SubmittedReply(newId)))
  {
    if body.Malformed? || body.value == Null {
      return Error(500, "Internal server error");
    }
    var missing := FirstMissing(body.value);
    if missing.Some? {
      return Error(400, "Missing required field: " + missing.value);
    }
    var record := ToRecord(body.value);
    var row := db.InsertIntake(newId, record, fault);
    if row.None? {
      return Error(500, "Failed to save questionnaire");
    }
    assert row.value.id == newId;
    db.LogEvent("questionnaire_submitted", SubmittedPayload(row.value));
    resp := Ok(SubmittedReply(row.value.id));
  }

  /** GET /api/questionnaire?id=...; `id` is the query parameter (None when
      absent) and `fault` a failure of the select itself. Any select error,
      the unknown id included, is answered with 404. */
  method Fetch(db: Db, id: Option<string>, fault: bool) returns (resp: Response)
    ensures id == None || id == Some("") ==> resp == Error(400, "Missing intake ID")
    ensures id.Some? && id.value != "" && (fault || id.value !in db.intakes) ==>
      resp == Error(404, "Questionnaire not found")
    ensures id.Some? && id.value != "" && !fault && id.value in db.intakes ==>
      resp == Ok(map["data" := Obj(RowJson(db.intakes[id.value]))])
  {
    if id == None || id == Some("") {
      return Error(400, "Missing intake ID");
    }
    if fault || id.value !in db.intakes {
      return Error(404, "Questionnaire not found");
    }
    resp := Ok(map["data" := Obj(RowJson(db.intakes[id.value]))]);
  }
}

/** The three tables the handlers write (coach_payments, coach_intake and
    event_logs), their row types, and the constraints the database enforces
    on an insert. The hosted database is modelled as one in-memory object. */
module Store {
  import opened Wrappers
  import opened Json

  datatype PaymentStatus = Pending | Succeeded | Failed | Cancelled
  datatype IntakeStatus = Draft | Submitted | Processed
  datatype EmailTone = Professional | Friendly | Motivational
  datatype QuestionHandling = Forward | Flag | Other

  function IntakeStatusName(s: IntakeStatus): string {
    match s
    case Draft => "draft"
    case Submitted => "submitted"
    case Processed => "processed"
  }

  function ToneName(t: EmailTone): string {
    match t
    case Professional => "professional"
    case Friendly => "friendly"
    case Motivational => "motivational"
  }

  function HandlingName(h: QuestionHandling): string {
    match h
    case Forward => "forward"
    case Flag => "flag"
    case Other => "other"
  }

  /** The CHECK constraint on coach_intake.email_tone: the value must be one
      of the three literals. */
  function ToneOf(v: Value): (r: Option<EmailTone>)
    ensures r.Some? ==> v == Str(ToneName(r.value))
    ensures r.None? ==> forall t: EmailTone :: v != Str(ToneName(t))
  {
    if v == Str("professional") then Some(Professional)
    else if v == Str("friendly") then Some(Friendly)
    else if v == Str("motivational") then Some(Motivational)
    else None
  }

  /** The CHECK constraint on coach_intake.question_handling. */
  function HandlingOf(v: Value): (r: Option<QuestionHandling>)
    ensures r.Some? ==> v == Str(HandlingName(r.value))
    ensures r.None? ==> forall h: QuestionHandling :: v != Str(HandlingName(h))
  {
    if v == Str("forward") then Some(Forward)
    else if v == Str("flag") then Some(Flag)
    else if v == Str("other") then Some(Other)
    else None
  }

  /** A coach_payments row (CoachPayment). Text columns hold the JSON value
      the handler sent; created_at is not modelled. */
  datatype PaymentRow = PaymentRow(
    id: string,
    email: Value,
    name: Value,
    stripeSessionId: string,
    status: PaymentStatus)

  /** The object a handler passes to `.insert()` on coach_intake: enum
      columns are still raw JSON values, checked by the database. */
  datatype IntakeInsert = IntakeInsert(
    fullName: Value,
    businessName: Value,
    email: Value,
    phone: Value,
    programLink: Value,
    intakeFormUrl: Value,
    needIntakeForm: bool,
    faqDocument: Value,
    customResource: Value,
    emailTone: Value,
    upcomingEvents: Value,
    emailSignature: Value,
    questionHandling: Value,
    otherHandling: Value,
    status: IntakeStatus)

  /** A coach_intake row (CoachIntake); timestamps are not modelled. */
  datatype IntakeRow = IntakeRow(
    id: string,
    coachPaymentId: Option<string>,
    fullName: Value,
    businessName: Value,
    email: Value,
    phone: Value,
    programLink: Value,
    intakeFormUrl: Value,
    needIntakeForm: bool,
    faqDocument: Value,
    customResource: Value,
    emailTone: EmailTone,
    upcomingEvents: Value,
    emailSignature: Value,
    questionHandling: QuestionHandling,
    otherHandling: Value,
    status: IntakeStatus)

  /** An event_logs row written by the log_event procedure. */
  datatype LogEntry = LogEntry(eventType: string, payload: Object)

  /** The NOT NULL columns of coach_intake that an insert supplies. */
  predicate NotNullColumnsSet(ins: IntakeInsert) {
    && ins.fullName != Null
    && ins.businessName != Null
    && ins.email != Null
    && ins.programLink != Null
    && ins.faqDocument != Null
    && ins.emailSignature != Null
  }

  /** The row a stored intake reads back as, with its enums as strings. */
  function InsertOf(row: IntakeRow): IntakeInsert {
    IntakeInsert(
      row.fullName, row.businessName, row.email, row.phone, row.programLink,
      row.intakeFormUrl, row.needIntakeForm, row.faqDocument, row.customResource,
      Str(ToneName(row.emailTone)), row.upcomingEvents, row.emailSignature,
      Str(HandlingName(row.questionHandling)), row.otherHandling, row.status)
  }

  /** The row the database stores for an insert under primary key `id`, or
      None when a NOT NULL or CHECK constraint rejects it. The route never
      sets coach_payment_id, so it is null. */
  function RowOf(id: string, ins: IntakeInsert): (r: Option<IntakeRow>)
    ensures r.Some? <==>
      NotNullColumnsSet(ins) && ToneOf(ins.emailTone).Some? && HandlingOf(ins.questionHandling).Some?
    ensures r.Some? ==> r.value.id == id && r.value.coachPaymentId == None && InsertOf(r.value) == ins
  {
    var tone := ToneOf(ins.emailTone);
    var handling := HandlingOf(ins.questionHandling);
    if NotNullColumnsSet(ins) && tone.Some? && handling.Some? then
      Some(IntakeRow(
        id, None, ins.fullName, ins.businessName, ins.email, ins.phone, ins.programLink,
        ins.intakeFormUrl, ins.needIntakeForm, ins.faqDocument, ins.customResource,
        tone.value, ins.upcomingEvents, ins.emailSignature, handling.value,
        ins.otherHandling, ins.status))
    else None
  }

  /** Reading a stored row back and inserting it again gives the same row. */
  lemma RowOfInsertOf(row: IntakeRow)
    requires row.coachPaymentId == None && NotNullColumnsSet(InsertOf(row))
    ensures RowOf(row.id, InsertOf(row)) == Some(row)
  {
    var ins := InsertOf(row);
    var r := RowOf(row.id, ins);
    assert ToneOf(ins.emailTone).Some?;
    assert HandlingOf(ins.questionHandling).Some?;
    ToneNameInjective(ToneOf(ins.emailTone).value, row.emailTone);
    HandlingNameInjective(HandlingOf(ins.questionHandling).value, row.questionHandling);
  }

  lemma ToneNameInjective(a: EmailTone, b: EmailTone)
    requires ToneName(a) == ToneName(b)
    ensures a == b
  {
  }

  lemma HandlingNameInjective(a: QuestionHandling, b: QuestionHandling)
    requires HandlingName(a) == HandlingName(b)
    ensures a == b
  {
  }

  /** The JSON object a stored intake is returned as (`select('*')`). */
  function RowJson(row: IntakeRow): (r: Object)
    ensures "id" in r && r["id"] == Str(row.id)
    ensures "coach_payment_id" in r && (r["coach_payment_id"] == Null <==> row.coachPaymentId.None?)
    ensures "need_intake_form" in r && r["need_intake_form"] == Bool(row.needIntakeForm)
    ensures "email_tone" in r && ToneOf(r["email_tone"]) == Some(row.emailTone)
    ensures "question_handling" in r && HandlingOf(r["question_handling"]) == Some(row.questionHandling)
  {
    map[
      "id" := Str(row.id),
      "coach_payment_id" := if row.coachPaymentId.Some? then Str(row.coachPaymentId.value) else Null,
      "full_name" := row.fullName,
      "business_name" := row.businessName,
      "email" := row.email,
      "phone" := row.phone,
      "program_link" := row.programLink,
      "intake_form_url" := row.intakeFormUrl,
      "need_intake_form" := Bool(row.needIntakeForm),
      "faq_document" := row.faqDocument,
      "custom_resource" := row.customResource,
      "email_tone" := Str(ToneName(row.emailTone)),
      "upcoming_events" := row.upcomingEvents,
      "email_signature" := row.emailSignature,
      "question_handling" := Str(HandlingName(row.questionHandling)),
      "other_handling" := row.otherHandling,
      "status" := Str(IntakeStatusName(row.status))]
  }

  /** The columns of coach_intake. */
  const IntakeColumns: set<string> := {
    "id", "coach_payment_id", "full_name", "business_name", "email", "phone",
    "program_link", "intake_form_url", "need_intake_form", "faq_document",
    "custom_resource", "email_tone", "upcoming_events", "email_signature",
    "question_handling", "other_handling", "status"}

  /** The CHECK constraint on coach_intake.status. */
  function IntakeStatusOf(v: Value): (r: Option<IntakeStatus>)
    ensures r.Some? ==> v == Str(IntakeStatusName(r.value))
    ensures r.None? ==> forall t: IntakeStatus :: v != Str(IntakeStatusName(t))
  {
    if v == Str("draft") then Some(Draft)
    else if v == Str("submitted") then Some(Submitted)
    else if v == Str("processed") then Some(Processed)
    else None
  }

  /** Reads a returned coach_intake object back as a row: every column is
      there, the id is a string, the payment reference null or a string,
      the flag a boolean and the enum columns pass their CHECKs. */
  function DecodeRow(o: Object): (r: Option<IntakeRow>)
    ensures r.Some? ==> IntakeColumns <= o.Keys && o["id"] == Str(r.value.id)
  {
    if !(IntakeColumns <= o.Keys) then None
    else if !o["id"].Str? || !o["need_intake_form"].Bool? then None
    else if !(o["coach_payment_id"] == Null || o["coach_payment_id"].Str?) then None
    else
      var tone := ToneOf(o["email_tone"]);
      var handling := HandlingOf(o["question_handling"]);
      var status := IntakeStatusOf(o["status"]);
      if tone.None? || handling.None? || status.None? then None
      else
        Some(IntakeRow(
          o["id"].s,
          if o["coach_payment_id"] == Null then None else Some(o["coach_payment_id"].s),
          o["full_name"], o["business_name"], o["email"], o["phone"],
          o["program_link"], o["intake_form_url"], o["need_intake_form"].b,
          o["faq_document"], o["custom_resource"], tone.value, o["upcoming_events"],
          o["email_signature"], handling.value, o["other_handling"], status.value))
  }


  /** The text columns of the returned object hold the stored values. */
  lemma RowJsonPeople(row: IntakeRow)
    ensures var o := RowJson(row);
      && o["full_name"] == row.fullName && o["business_name"] == row.businessName
      && o["email"] == row.email && o["phone"] == row.phone
  {
  }

  lemma RowJsonLinks(row: IntakeRow)
    ensures var o := RowJson(row);
      && o["program_link"] == row.programLink && o["intake_form_url"] == row.intakeFormUrl
      && o["faq_document"] == row.faqDocument && o["custom_resource"] == row.customResource
  {
  }

  lemma RowJsonSettings(row: IntakeRow)
    ensures var o := RowJson(row);
      && o["upcoming_events"] == row.upcomingEvents && o["email_signature"] == row.emailSignature
      && o["other_handling"] == row.otherHandling && o["status"] == Str(IntakeStatusName(row.status))
  {
  }

  lemma RowJsonColumns(row: IntakeRow)
    ensures IntakeColumns <= RowJson(row).Keys
  {
  }

  /** Any object holding a row's values in its columns decodes to that row. */
  lemma DecodeRowOf(o: Object, row: IntakeRow)
    requires IntakeColumns <= o.Keys
    requires o["id"] == Str(row.id)
    requires o["coach_payment_id"] == if row.coachPaymentId.Some? then Str(row.coachPaymentId.value) else Null
    requires o["full_name"] == row.fullName && o["business_name"] == row.businessName
    requires o["email"] == row.email && o["phone"] == row.phone
    requires o["program_link"] == row.programLink && o["intake_form_url"] == row.intakeFormUrl
    requires o["need_intake_form"] == Bool(row.needIntakeForm)
    requires o["faq_document"] == row.faqDocument && o["custom_resource"] == row.customResource
    requires o["email_tone"] == Str(ToneName(row.emailTone))
    requires o["upcoming_events"] == row.upcomingEvents && o["email_signature"] == row.emailSignature
    requires o["question_handling"] == Str(HandlingName(row.questionHandling))
    requires o["other_handling"] == row.otherHandling
    requires o["status"] == Str(IntakeStatusName(row.status))
    ensures DecodeRow(o) == Some(row)
  {
    ToneNameInjective(ToneOf(o["email_tone"]).value, row.emailTone);
    HandlingNameInjective(HandlingOf(o["question_handling"]).value, row.questionHandling);
    match row.status {
      case Draft =>
      case Submitted =>
      case Processed =>
    }
  }

  /** The object `select('*')` returns is the stored row, column for column. */
  lemma RowJsonRoundTrip(row: IntakeRow)
    ensures DecodeRow(RowJson(row)) == Some(row)
  {
    RowJsonColumns(row);
    RowJsonCore(row);
    RowJsonPeople(row);
    RowJsonLinks(row);
    RowJsonSettings(row);
    DecodeRowOf(RowJson(row), row);
  }

  /** The id, payment reference, flag and enum columns. */
  lemma RowJsonCore(row: IntakeRow)
    ensures var o := RowJson(row);
      && o["coach_payment_id"] == (if row.coachPaymentId.Some? then Str(row.coachPaymentId.value) else Null)
      && o["email_tone"] == Str(ToneName(row.emailTone))
      && o["question_handling"] == Str(HandlingName(row.questionHandling))
  {
  }

  /** coach_payments is keyed by its UNIQUE stripe_session_id column. */
  ghost predicate Keyed(payments: map<string, PaymentRow>) {
    forall sid | sid in payments :: payments[sid].stripeSessionId == sid
  }

  /** `.update({ status }).eq('stripe_session_id', sid)`: every row whose
      stripe_session_id equals `sid` gets the new status, whatever its old
      one; no row is added or removed. */
  function SetStatus(payments: map<string, PaymentRow>, sid: string, status: PaymentStatus)
    : (r: map<string, PaymentRow>)
    ensures r.Keys == payments.Keys
  {
    map k | k in payments ::
      if payments[k].stripeSessionId == sid then payments[k].(status := status) else payments[k]
  }

  /** On a keyed table the update touches the one row stored under `sid`,
      if any, and changes nothing but its status. */
  lemma SetStatusKeyed(payments: map<string, PaymentRow>, sid: string, status: PaymentStatus)
    requires Keyed(payments)
    ensures Keyed(SetStatus(payments, sid, status))
    ensures SetStatus(payments, sid, status) ==
      if sid in payments then payments[sid := payments[sid].(status := status)] else payments
  {
    var r := SetStatus(payments, sid, status);
    var e := if sid in payments then payments[sid := payments[sid].(status := status)] else payments;
    assert r.Keys == e.Keys;
    forall k | k in r ensures r[k] == e[k] {
      if k == sid { assert payments[k].stripeSessionId == sid; }
    }
  }

  /** Delivering the same update twice leaves the table as one delivery does. */
  lemma SetStatusIdempotent(payments: map<string, PaymentRow>, sid: string, status: PaymentStatus)
    ensures SetStatus(SetStatus(payments, sid, status), sid, status) == SetStatus(payments, sid, status)
  {
    var once := SetStatus(payments, sid, status);
    var twice := SetStatus(once, sid, status);
    forall k | k in twice ensures twice[k] == once[k] {
    }
  }

  /** There is no monotonic guard: a later status for the same session
      replaces an earlier one, whichever it was. */
  lemma SetStatusLastWins(payments: map<string, PaymentRow>, sid: string, first: PaymentStatus, second: PaymentStatus)
    ensures SetStatus(SetStatus(payments, sid, first), sid, second) == SetStatus(payments, sid, second)
  {
    var one := SetStatus(payments, sid, first);
    var both := SetStatus(one, sid, second);
    var direct := SetStatus(payments, sid, second);
    forall k | k in both ensures both[k] == direct[k] {
    }
  }

  /** The database: coach_payments keyed by stripe_session_id, coach_intake
      keyed by id, and the append-only event_logs. */
  class Db {
    var payments: map<string, PaymentRow>
    var intakes: map<string, IntakeRow>
    var log: seq<LogEntry>

    ghost predicate Valid()
      reads this
    {
      && Keyed(payments)
      && (forall id | id in intakes :: intakes[id].id == id)
    }

    constructor ()
      ensures Valid() && payments == map[] && intakes == map[] && log == []
    {
      payments := map[];
      intakes := map[];
      log := [];
    }

    /** Whether some coach_payments row already has primary key `id`. */
    predicate PaymentIdInUse(id: string)
      reads this
    {
      exists sid | sid in payments :: payments[sid].id == id
    }

    /** `.from('coach_payments').insert([row])`. It fails on a transport
        `fault`, on the UNIQUE stripe_session_id, on the primary key, and on
        a null email or name (NOT NULL); status always passes its CHECK. */
    method InsertPayment(row: PaymentRow, fault: bool) returns (ok: bool)
      requires Valid()
      modifies this`payments
      ensures Valid()
      ensures ok <==>
        && !fault
        && row.stripeSessionId !in old(payments)
        && !old(PaymentIdInUse(row.id))
        && row.email != Null && row.name != Null
      ensures payments == if ok then old(payments)[row.stripeSessionId := row] else old(payments)
    {
      ok := !fault && row.stripeSessionId !in payments && !PaymentIdInUse(row.id)
        && row.email != Null && row.name != Null;
      if ok {
        payments := payments[row.stripeSessionId := row];
      }
    }

    /** `.from('coach_payments').update({ status }).eq('stripe_session_id', sid)`. */
    method UpdatePaymentStatus(sid: string, status: PaymentStatus)
      requires Valid()
      modifies this`payments
      ensures Valid()
      ensures payments == SetStatus(old(payments), sid, status)
      ensures sid in old(payments) ==> payments == old(payments)[sid := old(payments)[sid].(status := status)]
      ensures sid !in old(payments) ==> payments == old(payments)
    {
      SetStatusKeyed(payments, sid, status);
      payments := SetStatus(payments, sid, status);
    }

    /** `.from('coach_intake').insert([ins]).select().single()` with the new
        primary key `id`. It fails on a transport `fault`, on a primary-key
        collision, and on a NOT NULL or CHECK violation. */
    method InsertIntake(id: string, ins: IntakeInsert, fault: bool) returns (row: Option<IntakeRow>)
      requires Valid()
      modifies this`intakes
      ensures Valid()
      ensures row.Some? <==> !fault && id !in old(intakes) && RowOf(id, ins).Some?
      ensures row.Some? ==> row == RowOf(id, ins) && intakes == old(intakes)[id := row.value]
      ensures row.None? ==> intakes == old(intakes)
    {
      var r := RowOf(id, ins);
      if !fault && id !in intakes && r.Some? {
        row := r;
        intakes := intakes[id := r.value];
      } else {
        row := None;
      }
    }

    /** `rpc('log_event', { event_type_param, payload_param })`. */
    method LogEvent(eventType: string, payload: Object)
      modifies this`log
      ensures log == old(log) + [LogEntry(eventType, payload)]
    {
      log := log + [LogEntry(eventType, payload)];
    }
  }
}

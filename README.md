# Onboarding funnel: checkout, questionnaire and payment webhook

A Dafny model of the server-side core of a coaching-onboarding funnel:

- the **checkout initiator** (`POST /api/checkout`, `GET /api/checkout`), which
  asks the payment provider for a hosted checkout session, records a
  `pending` payment row keyed by that session and logs the initiation;
- the **questionnaire recorder** (`POST /api/questionnaire`,
  `GET /api/questionnaire`), which checks ten required fields in a fixed
  order, maps the camelCase body to the snake_case `coach_intake` record,
  inserts it with status `submitted` and logs the submission;
- the **payment webhook reconciler** (`POST /api/webhooks/stripe`), which
  rejects unsigned or unverifiable deliveries and moves the matching
  `coach_payments` row to `succeeded`, `cancelled` or `failed`;
- the **questionnaire page**'s logic: the zod schema, the question list and
  its two conditional questions, the next/previous visible-step searches,
  the step handlers, the mount filter and the merged submission payload.

The hosted database is the class `Store.Db` with three fields:
`payments: map<string, PaymentRow>` (coach_payments, keyed by its UNIQUE
`stripe_session_id`), `intakes: map<string, IntakeRow>` (coach_intake, keyed
by id) and the append-only `log: seq<LogEntry>` (event_logs). Its methods
model the insert, update and `log_event` calls, including the table
constraints that can make an insert fail. The payment provider is the
datatype `Stripe.Provider`, a bundle of oracles: event construction with
signature verification, session creation, session retrieval and session
listing by payment intent. Generated row ids, transport faults of an insert or
of the intake select, and the `NEXT_PUBLIC_APP_URL` setting are method parameters.

Files: `wrappers.dfy` (Option, Result), `json.dfy` (JSON values and
JavaScript truthiness), `http.dfy` (responses), `store.dfy` (row types,
constraints, `Db`), `stripe.dfy` (provider objects, configuration constants,
oracles), `checkout.dfy`, `questionnaire_api.dfy`, `webhook.dfy`,
`questionnaire_page.dfy`.

Behaviour of the code worth noting:
- The checkout check rejects a *falsy* email or name, not only an absent one.
- After a verified signature the webhook does not always acknowledge: when
  `checkout.sessions.list` throws, the handler answers 500 "Webhook handler
  failed" (`StripeWebhook.Handle`).
- Nothing in the questionnaire route validates enum values before the intake
  insert; the page's schema checks them, but for a request that did not
  come from the page only the table's CHECK constraints do (`QuestionnaireApi.InsertAcceptedIff`).
- Without landing-page data the questionnaire can never be submitted: no
  question asks for fullName, and the schema requires it
  (`QuestionnairePage.NoNameNeverAccepted`, `QuestionnairePage.Wizard.Answer`).
- zod's `.min(n)` counts UTF-16 code units, so one emoji satisfies `.min(2)`
  (`QuestionnairePage.Utf16Length`).

## Model

| member | source | states |
|---|---|---|
| `Store.ToneOf` | setup-database.js:48 | email_tone is accepted exactly when it is one of "professional", "friendly", "motivational" |
| `Store.HandlingOf` | setup-database.js:51 | question_handling is accepted exactly when it is one of "forward", "flag", "other" |
| `Store.RowOf` | setup-database.js:36-56 | an intake insert is accepted iff its NOT NULL columns are set and both enum CHECKs pass; the stored row has the given id, a null coach_payment_id, and reads back as the inserted record |
| `Store.RowOfInsertOf` | src/lib/supabase.ts:18-47 | re-inserting a stored row's values gives back the same row |
| `Store.RowJson` | src/app/api/questionnaire/route.ts:113-126 | a stored intake is returned with its id, a null coach_payment_id exactly when it has no payment, its need_intake_form flag, and enum columns that pass the CHECK constraints and decode back to the stored values |
| `Store.RowJsonRoundTrip` | src/app/api/questionnaire/route.ts:113-126 | the object `select('*')` returns decodes back to exactly the stored row: every column of coach_intake (setup-database.js:36-56) is there with the row's value |
| `Store.SetStatus` | src/app/api/webhooks/stripe/route.ts:41-47 | the status update never adds or removes a row |
| `Store.SetStatusKeyed` | src/app/api/webhooks/stripe/route.ts:41-47 | on a table keyed by session id, the update changes only the status of the row with that session id; with no such row the table is unchanged |
| `Store.SetStatusIdempotent` | src/app/api/webhooks/stripe/route.ts:41-47 | applying the same status update twice gives the table one application gives |
| `Store.SetStatusLastWins` | src/app/api/webhooks/stripe/route.ts:75-81 | there is no monotonic guard: a second update for the same session overwrites the first |
| `Store.Db.InsertPayment` | src/app/api/checkout/route.ts:59-70 | the row is added under its session id exactly when there is no transport fault, the session id and row id are unused, and email and name are non-null; otherwise the table is unchanged |
| `Store.Db.UpdatePaymentStatus` | src/app/api/webhooks/stripe/route.ts:41-47 | the new table is the status update of the old one: only the row with that session id changes |
| `Store.Db.InsertIntake` | src/app/api/questionnaire/route.ts:59-63 | the row is added under the new id exactly when there is no fault, the id is unused and the constraints pass; otherwise the table is unchanged |
| `Store.Db.LogEvent` | setup-database.js:67-78 | exactly one entry with the given tag and payload is appended; earlier entries are untouched |
| `Json.OrNull` | src/app/api/questionnaire/route.ts:41-53 | an optional value defaulted to null is null exactly when it is falsy or undefined, is the value otherwise, and is never "", false or 0 |
| `QuestionnaireApi.PresentExactly` | src/app/api/questionnaire/route.ts:23 | a field is present iff it is defined and not null, "" or 0 (so `false` is present) |
| `QuestionnaireApi.MissingIndex` | src/app/api/questionnaire/route.ts:22-29 | returns None iff every field of the list is present, else the index of the first missing field, all earlier ones being present |
| `QuestionnaireApi.MissingField` | src/app/api/questionnaire/route.ts:9-29 | None iff all ten required fields are present, else the name of the first missing one in the fixed order |
| `QuestionnaireApi.FirstMissing` | src/app/api/questionnaire/route.ts:22-29 | the loop with early return reports the first missing required field, and nothing when all are present |
| `QuestionnaireApi.ToRecord` | src/app/api/questionnaire/route.ts:32-56 | nine fields are copied unchanged to their snake_case columns; need_intake_form is true exactly for the string "yes"; each optional column is null when its input is falsy, its input otherwise, never ""; status is submitted |
| `QuestionnaireApi.InsertAcceptedIff` | src/app/api/questionnaire/route.ts:59-71 | for a validated body the insert is accepted iff emailTone and questionHandling are among their listed literals |
| `QuestionnaireApi.SubmittedPayload` | src/app/api/questionnaire/route.ts:74-81 | the questionnaire_submitted payload carries the stored row's id, email and business name and nothing else |
| `QuestionnaireApi.SubmittedReply` | src/app/api/questionnaire/route.ts:86-90 | the success response carries success = true and intake_id = the new row's id |
| `QuestionnaireApi.Submit` | src/app/api/questionnaire/route.ts:4-99 | unparseable or null body gives 500; a missing field gives 400 naming the first missing one; a failed insert gives 500; in those cases neither the intake table nor the log changes; on success exactly the new row is added, one questionnaire_submitted entry is appended and intake_id is the row's id; the payments table never changes |
| `QuestionnaireApi.Fetch` | src/app/api/questionnaire/route.ts:101-135 | a missing or empty id gives 400; a select error, whether the id is unknown or the select itself fails, gives 404 "Questionnaire not found"; otherwise the stored row is returned; the store is unchanged |
| `Checkout.ReadCustomer` | src/app/api/checkout/route.ts:9-17 | the input is accepted iff email and name are both truthy, and then carries exactly those values and businessName |
| `Checkout.SessionRequestFor` | src/app/api/checkout/route.ts:20-56 | one line item of quantity 1 at the configured amount (49700) and currency ("usd"), customer_email = email, promotion codes allowed, metadata {customer_name, business_name defaulting to "", product_type}, the configured redirect pair |
| `Checkout.InitiatedPayload` | src/app/api/checkout/route.ts:78-87 | the checkout_initiated payload carries the session id, email, name and amount 49700, and business_name exactly when businessName was given |
| `Checkout.CheckoutReply` | src/app/api/checkout/route.ts:89-92 | the response carries session_id = the session's id and the session's url, nothing else |
| `Checkout.Initiate` | src/app/api/checkout/route.ts:5-109 | malformed or null body gives 500 and a falsy email or name 400, both before any provider call or write; a failed session creation gives 500 with no row and no log entry; otherwise a pending row {email, name, session id} is inserted when the table accepts it, one checkout_initiated entry is appended, and the response does not depend on whether the insert succeeded |
| `Checkout.SessionView` | src/app/api/checkout/route.ts:127-134 | the view holds the session's id, payment_status, customer_details and metadata as they are, and no other key |
| `Checkout.Retrieve` | src/app/api/checkout/route.ts:112-143 | a missing or empty session_id gives 400, a failed retrieval 500, otherwise exactly {session: view of the retrieved session} |
| `StripeWebhook.SucceededPayload` | src/app/api/webhooks/stripe/route.ts:54-62 | the payment_succeeded payload holds the session id, and customer_email, amount_total and currency exactly when the session defines them, with those values; no other key |
| `StripeWebhook.ExpiredPayload` | src/app/api/webhooks/stripe/route.ts:84-90 | the checkout_expired payload holds the session id, and customer_email exactly when the session defines it; no other key |
| `StripeWebhook.FailedPayload` | src/app/api/webhooks/stripe/route.ts:114-121 | the payment_failed payload holds the intent id and the listed session's id, and last_payment_error exactly when the intent defines it; no other key |
| `StripeWebhook.Signed` | src/app/api/webhooks/stripe/route.ts:10-17 | a delivery counts as signed exactly when the stripe-signature header is truthy: present and not empty |
| `StripeWebhook.Plan` | src/app/api/webhooks/stripe/route.ts:36-129 | completed sets the event's session to succeeded and logs payment_succeeded with SucceededPayload; expired sets it to cancelled and logs checkout_expired with ExpiredPayload; payment_failed sets the first listed session to failed and logs payment_failed with FailedPayload, does nothing when the list is empty and fails when the listing throws; any other type does nothing; no event sets pending |
| `StripeWebhook.Handle` | src/app/api/webhooks/stripe/route.ts:6-140 | a missing or empty signature gives 400 and an unverifiable one 400, both with the tables and log unchanged; a handled event applies exactly its status update and appends exactly its one entry; an unhandled one changes nothing; every verified path that does not throw answers {received: true}; the intake table never changes |
| `StripeWebhook.Redeliver` | src/app/api/webhooks/stripe/route.ts:36-131 | delivering the same verified event twice is acknowledged both times, leaves the payments table as after one delivery, appends the event's log entry twice and leaves the intake table unchanged |
| `StripeWebhook.ExpiredAfterCompletedDowngrades` | src/app/api/webhooks/stripe/route.ts:71-81 | an expired event processed after a completed one for the same session leaves the row cancelled |
| `QuestionnairePage.OnlyTwoConditional` | src/app/questionnaire/page.tsx:51-173 | only intakeFormLink (needIntakeForm = "no") and otherHandling (questionHandling = "other") carry a condition |
| `QuestionnairePage.QuestionIds` | src/app/questionnaire/page.tsx:51-173 | the twelve questions ask for distinct schema fields, none of them fullName or email, so they cover every schema field but those two |
| `QuestionnairePage.Utf16Length` | src/app/questionnaire/page.tsx:33-44 | the length zod's `.min` compares is at least the number of characters and at most twice it (a character outside the Basic Multilingual Plane counts two units) |
| `QuestionnairePage.FieldValid` | src/app/questionnaire/page.tsx:32-47 | an id outside the schema always validates; a schema field that validates and has a value holds a string |
| `QuestionnairePage.SchemaValid` | src/app/questionnaire/page.tsx:32-47 | an accepted form holds strings in every schema field it has |
| `QuestionnairePage.SchemaValidMeans` | src/app/questionnaire/page.tsx:32-47 | an accepted form has fullName and businessName of at least 2 UTF-16 units, phone of at least 10, programLink, faqDocument and emailSignature of at least 1, a valid email, the three enum fields at a listed literal, and an intakeFormLink that is empty or a URL |
| `QuestionnairePage.NoNameNeverAccepted` | src/app/questionnaire/page.tsx:33 | a form without fullName is never accepted |
| `QuestionnairePage.AcceptedRequiredNonEmpty` | src/app/questionnaire/page.tsx:32-47 | in an accepted form every field the route requires is a non-empty string, provided "" is not a valid email |
| `QuestionnairePage.ShouldShow` | src/app/questionnaire/page.tsx:225-229 | an unconditional question is always shown; a conditional one is shown exactly when its field's watched value is the condition's string, and hidden when that field is unanswered |
| `QuestionnairePage.ShownQuestions` | src/app/questionnaire/page.tsx:225-229 | a question of the list is shown iff it is unconditional or the watched value of its condition field equals the condition value |
| `QuestionnairePage.NextValidStep` | src/app/questionnaire/page.tsx:231-236 | returns the least shown index after step, or the list length when there is none; every index in between is hidden |
| `QuestionnairePage.PrevValidStep` | src/app/questionnaire/page.tsx:238-243 | returns the greatest shown index before step, or 0 when there is none; every index in between is hidden |
| `QuestionnairePage.NoLandingPageQuestion` | src/app/questionnaire/page.tsx:51-173 | no question has id fullName or email |
| `QuestionnairePage.Filter` | src/app/questionnaire/page.tsx:205-211 | keeps exactly the questions whose id is neither fullName nor email |
| `QuestionnairePage.FilterAppend` | src/app/questionnaire/page.tsx:205-211 | the filter preserves order: filtering a concatenation concatenates the filtered parts |
| `QuestionnairePage.FilterKeepsAll` | src/app/questionnaire/page.tsx:205-211 | a list with nothing to remove is returned unchanged |
| `QuestionnairePage.MountFilter` | src/app/questionnaire/page.tsx:194-217 | without stored data the list is kept; with it, exactly the questions other than fullName and email |
| `QuestionnairePage.MountLeavesQuestions` | src/app/questionnaire/page.tsx:204-213 | applied to the question list, the mount filter returns it unchanged |
| `QuestionnairePage.Prefill` | src/app/questionnaire/page.tsx:195-202 | fullName and email are prefilled exactly when the stored name and email are truthy, with those values |
| `QuestionnairePage.Merge` | src/app/questionnaire/page.tsx:274 | form values win on shared keys, keys only in the stored data are kept, and no other key appears |
| `QuestionnairePage.SchemaOutput` | src/app/questionnaire/page.tsx:188-191 | the parsed form holds exactly the schema's keys that have values, unchanged |
| `QuestionnairePage.SubmissionBody` | src/app/questionnaire/page.tsx:263-281 | a payload is posted iff the schema accepts the form; it is an object holding every schema field the form has with the form's value, every other stored key with its stored value, and no other key |
| `QuestionnairePage.AcceptedFormPassesRoute` | src/app/questionnaire/page.tsx:273-281 | provided "" is not a valid email, a payload built from a form the schema accepts passes the route's required-field check |
| `QuestionnairePage.Wizard.constructor` | src/app/questionnaire/page.tsx:176-218 | after mount the step is 0, the list is the full question list and the form is prefilled from the stored data |
| `QuestionnairePage.Wizard.Answer` | src/app/questionnaire/page.tsx:343-372 | answering sets the current question's field (a select calling setValue, or a registered input) and leaves the others; since no question asks for fullName or email, whether they are in the form stays as the mount left it |
| `QuestionnairePage.Wizard.HandleNext` | src/app/questionnaire/page.tsx:245-256 | the step stays put exactly when the current field fails validation or submission is asked for; otherwise it moves to the next shown question; submission is asked for exactly when the field validates and no later question is shown; the step stays in [0, n) |
| `QuestionnairePage.Wizard.HandlePrev` | src/app/questionnaire/page.tsx:258-261 | the step moves back to the previous shown question, or to 0; it stays in [0, n) |

## Left out

- Rendering, animation, styling and the pages and components that only
  present: the JSX of the questionnaire page, the progress percentage and
  the `setTimeout` that skips a hidden current question.
- `localStorage`, `fetch` and `window.location`: the stored landing-page
  data is a constructor parameter (assumed to be a JSON object, not any
  other JSON value), and the page's POST is the payload `SubmissionBody`
  builds, not the transport.
- The provider's API internals: signature verification (HMAC over the raw
  body with the webhook secret), session creation, retrieval and listing
  are oracles in `Stripe.Provider`; so tampered-body rejection is not
  modelled beyond "constructEvent returns no event".
- Environment variables and start-up failures: the webhook secret lives
  inside the `constructEvent` oracle, the app URL is a parameter, and the
  `getStripe` client is the provider value passed in.
- Timestamps (`created_at`, `updated_at`). The webhook also writes an
  `updated_at` value that the coach_payments table created by
  setup-database.js has no column for; the model assumes the status update
  is applied.
- Transport failures of the status update and of the `log_event` RPC: the
  handlers ignore their errors, and the model treats both as succeeding.
- PostgreSQL's coercion of non-string JSON into text columns: text columns
  hold the JSON value the handler sent.
- Generated ids: the new row's uuid is a parameter, and a collision fails
  the insert as the primary key would.
- JavaScript numbers are integers here (no fractions, NaN or -0).
- The 500 body for a null checkout body carries V8's TypeError text, which
  the runtime, not the repository, defines.
- zod's email and URL checks are the abstract predicates of
  `QuestionnairePage.Formats`.
- Concurrent deliveries and races between handlers: every request is
  processed sequentially.
- setup-database.js and create-promo-code.js beyond their table
  constraints: one-off provisioning scripts.

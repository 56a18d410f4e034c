# Junior recruitment form: submission path

This project models, in Dafny, the path a junior applicant's answers take
from the recruitment form to the Google Sheet:

- the **form component** (`components/junior-form.tsx`): the validation schema
  (minimum lengths, the Indian phone-number pattern, the team enum, the
  20–500 character motivation, the portfolio refinement for the Tech,
  Multimedia and Design teams), the `showPortfolio` switch, the body the form
  posts, and the `isLoading` / `isSuccess` lifecycle of `onSubmit` with the
  alert shown on failure;
- the **relay route** (`app/api/submit/route.ts`): `POST` forwards the body to
  the Apps Script once and turns the script's answer into
  `{success, message}` with HTTP status 200 or 500;
- the **storage script** (`UPDATED-GOOGLE-APPS-SCRIPT.js`): `doPost` joins the
  `teams` array with `", "`, builds the ten-cell row (timestamp, name,
  enrollment, course, phone, residency, team choices, why, portfolio,
  experience), appends it, and answers with a success or an error object.

Modules: `JsValues` (the JavaScript value semantics the three files rely on:
parsed JSON values, property access on `null`, truthiness, `String()`,
`Array.prototype.join`, `trim` and the whitespace class), `JuniorForm`,
`SubmitRoute`, `AppsScript`, and `Pipeline`, which composes the three and
proves end-to-end facts. The state that the source updates in place is kept in
classes: `JuniorForm.FormState` (the form's values, the two flags and the
alerts shown) and `AppsScript.Sheet` (the sheet's rows).

The phone rule is modelled twice: as the language of the regular expression
(an existential over the split points of its optional groups) and as a
deterministic recogniser, and the two are proved equal. URL parsing
(`new URL(p)`) is a parameter `parsesAsUrl` of the schema.

Behaviour of the code worth knowing:

- The phone pattern's leading mobile digit is one of 7, 8 or 9; 6 is
  rejected (`PhoneRejectedExamples`).
- The form posts a single `team` string and has no residency field, while the
  storage script reads `teams` (an array) and `residency`. Every row built
  from the form's own payload therefore has an empty team-choices cell and an
  undefined residency cell (`Pipeline.FormRowLosesTeamAndResidency`). The
  script's own test data, which does send `teams`, gives
  `"Tech, Design, PR"` (`AppsScript.TeamsStringExample`).
- The relay never looks at the Apps Script's HTTP status; only the `status`
  field of the parsed answer decides (`SubmitRoute.UpstreamStatusIgnored`).
- A failed submission has no separate error state: the form clears
  `isLoading`, shows an alert and is editable again with its values kept.

## Model

| member | source | states |
|---|---|---|
| JsValues.Truthy | UPDATED-GOOGLE-APPS-SCRIPT.js:27 | definition of JavaScript truthiness for the `?:` and `\|\|` tests; its use is stated by MessageOr and TeamsString |
| JsValues.ToText | app/api/submit/route.ts:31 | definition of `String()` as `new Error(x)` applies it; the string case is stated by MessageOr |
| JsValues.ArrayJoin | UPDATED-GOOGLE-APPS-SCRIPT.js:27 | definition of `Array.prototype.join` (null elements give the empty string); see ArrayJoinOfStrings and TeamsStringOfNames |
| JsValues.Trim | components/junior-form.tsx:71 | definition of `String.prototype.trim` as TrimEnd after TrimStart; see TrimStart, TrimEnd and TrimEmptyIffBlank |
| JuniorForm.MatchesPhonePattern | components/junior-form.tsx:33-35 | definition of the language of `phoneRegex`: some split into optional `+91` with separator, optional `0`, optional `91` and a ten-digit number starting 7-9; see PhoneRecogniserMatchesPattern and AcceptedPhoneShape |
| JuniorForm.IsValidPhone | components/junior-form.tsx:48-50 | definition of the phone field's `.regex` test as a deterministic recogniser; see PhoneRecogniserMatchesPattern |
| JuniorForm.NeedsPortfolio | components/junior-form.tsx:70 | definition of `portfolioTeams.includes(team)`; see ShowPortfolio and RequiredPortfolio |
| JuniorForm.PortfolioRefinement | components/junior-form.tsx:69-81 | definition of the `.refine` callback; see RequiredPortfolio and RefinementIgnoresPortfolio |
| JuniorForm.FieldFails | components/junior-form.tsx:38-68 | definition of each field's rule; see SchemaRules |
| JuniorForm.FieldMessage | components/junior-form.tsx:38-85 | definition of each field's message, with zod's invalid-enum text for a team outside the choices (ZodEnumMessage); see SchemaRules and WhyLengthEdges |
| JuniorForm.FieldErrors | components/junior-form.tsx:38-85 | definition of the schema's verdict as a map from failing field to message; see SchemaRules |
| JuniorForm.Accepted | components/junior-form.tsx:38-85 | definition of the schema accepting the values; see SchemaRules and HandleSubmit |
| JuniorForm.SubmitSucceeds | components/junior-form.tsx:139 | definition of `response.ok` for a fetch that resolved; see OnSubmit and Pipeline.FormSees |
| JuniorForm.FailureMessage | components/junior-form.tsx:139-150 | definition of the alerted message (error body's `message \|\|` fallback, or the thrown error's message); see FailureMessageOfReply and OnSubmit |
| SubmitRoute.ReportsSuccess | app/api/submit/route.ts:24 | definition of `result.status === 'success'`; see Translate and Post |
| JsValues.IsJsSpace | components/junior-form.tsx:34 | definition of the JavaScript WhiteSpace and LineTerminator set that `\s` and `trim` use; see TrimEmptyIffBlank and PhoneAcceptedExamples |
| JuniorForm.ZodEnumMessage | components/junior-form.tsx:51-61 | definition of zod's message for a team outside the enum: the seven options quoted and separated by ` \| `, then the value received; stated per field by SchemaRules |
| AppsScript.CellOf | UPDATED-GOOGLE-APPS-SCRIPT.js:33-41 | definition of a cell read from the request: the value, or `undefined` for a missing property; see NewRow and FormRowLosesTeamAndResidency |
| SubmitRoute.FailureReply | app/api/submit/route.ts:34-39 | definition of the catch block's reply: `success: false`, status 500 and the error's message; see Translate and Post |
| SubmitRoute.ReplyBody | app/api/submit/route.ts:25-37 | definition of the `{success, message}` body given to `NextResponse.json`; see Pipeline.FormSees and RelayReplyReachesUser |
| JsValues.GetProperty | UPDATED-GOOGLE-APPS-SCRIPT.js:27-41 | reading a property throws exactly on `null`, gives `undefined` for a missing key or a primitive, and the stored value otherwise |
| JsValues.MessageOr | app/api/submit/route.ts:31 | `x \|\| fallback` as an error message: a falsy value gives the fallback, a non-empty string is kept |
| JsValues.ArrayJoinOfStrings | UPDATED-GOOGLE-APPS-SCRIPT.js:27 | `join` on an array of strings is the strings with the separator between neighbours |
| JsValues.TrimStart | components/junior-form.tsx:71 | the result is a suffix, what was removed is all whitespace, and the result does not start with whitespace |
| JsValues.TrimEnd | components/junior-form.tsx:71 | the result is a prefix, what was removed is all whitespace, and the result does not end with whitespace |
| JsValues.TrimEmptyIffBlank | components/junior-form.tsx:71 | `s.trim() === ""` exactly when every character of `s` is whitespace |
| JuniorForm.PhoneRecogniserMatchesPattern | components/junior-form.tsx:33-35 | the deterministic phone recogniser accepts exactly the strings in the regular expression's language |
| JuniorForm.PhoneSplitIsRecognised | components/junior-form.tsx:33-35 | every way of matching the pattern's optional groups is found by the recogniser |
| JuniorForm.AcceptedPhoneShape | components/junior-form.tsx:33-35 | an accepted number is 10 to 17 characters long and ends in ten digits whose first is 7, 8 or 9 |
| JuniorForm.PhoneAcceptedExamples | components/junior-form.tsx:33-35 | bare, trunk-zero, `91`, `+91`, `+91 ` and `+91-0` forms of a mobile number match |
| JuniorForm.PhoneRejectedExamples | components/junior-form.tsx:33-35 | too short, a leading 5 or 6, and a foreign country code do not match |
| JuniorForm.SchemaRules | components/junior-form.tsx:38-85 | each field is rejected exactly when its own rule fails, with that rule's message, and the values are accepted exactly when all rules hold |
| JuniorForm.WhyLengthEdges | components/junior-form.tsx:62-66 | 19 characters gives the too-short message, 501 the too-long message, 20 and 500 pass |
| JuniorForm.RefinementIgnoresPortfolio | components/junior-form.tsx:69-81 | for any values whose team is outside Tech, Multimedia and Design the refinement holds and the portfolio field has no error, whatever the portfolio (absent or empty included) |
| JuniorForm.RequiredPortfolio | components/junior-form.tsx:69-81 | for Tech, Multimedia and Design the refinement holds exactly for a present, non-blank portfolio that parses as a URL |
| JuniorForm.BlankPortfolioRejected | components/junior-form.tsx:69-85 | an absent or whitespace-only portfolio for those teams is rejected with the portfolio message on the portfolio field |
| JuniorForm.PortfolioErrorIsLocal | components/junior-form.tsx:82-85 | changing the portfolio changes the verdict on no field but the portfolio field |
| JuniorForm.ShowPortfolio | components/junior-form.tsx:118-119 | the portfolio field is shown exactly for Tech, Multimedia and Design |
| JuniorForm.ShowPortfolioIsRefinementTrigger | components/junior-form.tsx:118-119 | the field is shown exactly for the teams whose refinement rejects a missing portfolio; for the others every portfolio passes |
| JuniorForm.FormPayload | components/junior-form.tsx:136 | the posted body has exactly the form's keys (absent optional fields omitted), each carrying the field's value |
| JuniorForm.FailureMessageOfReply | components/junior-form.tsx:139-141 | a non-ok reply with a non-empty message shows that message; a missing or falsy message shows the fallback text |
| JuniorForm.FormState.constructor | components/junior-form.tsx:100-116 | a new form is editable, not loading, not succeeded, with the default values and no alerts |
| JuniorForm.FormState.CurrentPhase | components/junior-form.tsx:100-101 | the phase is Submitted exactly when `isSuccess` and Submitting exactly when `isLoading` |
| JuniorForm.FormState.SubmitDisabled | components/junior-form.tsx:358 | the submit button is disabled exactly while a submission is in flight |
| JuniorForm.FormState.ChangeValues | components/junior-form.tsx:105-116 | a field edit replaces the values and leaves the flags and alerts alone |
| JuniorForm.FormState.BeginSubmit | components/junior-form.tsx:128 | editing becomes submitting; values and alerts are kept |
| JuniorForm.FormState.Succeed | components/junior-form.tsx:144-145 | submitting becomes submitted; values and alerts are kept |
| JuniorForm.FormState.Fail | components/junior-form.tsx:147-151 | submitting returns to editing with the message appended to the alerts; values kept |
| JuniorForm.FormState.OnSubmit | components/junior-form.tsx:127-152 | the body posted is `JSON.stringify(values)` of the current values; loading ends in every case; success is set exactly for an ok response; otherwise exactly one alert with the failure message is shown |
| JuniorForm.FormState.HandleSubmit | components/junior-form.tsx:186 | the request is made exactly when the schema accepts the values, and then it carries `FormPayload` of those values; a rejected form posts nothing and stays editable with no alert |
| AppsScript.TeamsString | UPDATED-GOOGLE-APPS-SCRIPT.js:27 | a null request throws, a falsy `teams` gives `""`, a truthy `teams` that is not an array throws "data.teams.join is not a function", and a non-empty result comes only from a `teams` array |
| AppsScript.TeamsStringOfNames | UPDATED-GOOGLE-APPS-SCRIPT.js:25-27 | an array of names gives the names joined with `", "`; an absent or null `teams` gives `""` |
| AppsScript.TeamsStringExample | UPDATED-GOOGLE-APPS-SCRIPT.js:81 | the test data's `["Tech", "Design", "PR"]` becomes `"Tech, Design, PR"` |
| AppsScript.TeamsColumnRoundTrip | UPDATED-GOOGLE-APPS-SCRIPT.js:25-27 | splitting the team-choices cell at `", "` gives back the list of comma-free team names |
| AppsScript.NewRow | UPDATED-GOOGLE-APPS-SCRIPT.js:31-42 | the row has ten cells: the timestamp, the teams string in column G, and every other column copied unchanged from the request's property |
| AppsScript.PrepareRow | UPDATED-GOOGLE-APPS-SCRIPT.js:16-42 | the first step that throws decides the error; otherwise the row is built from the parsed request and its teams string |
| AppsScript.ReplyJson | UPDATED-GOOGLE-APPS-SCRIPT.js:51-67 | the answer's `status` is `"success"` exactly for a success reply, and an error reply carries its message |
| AppsScript.Sheet.constructor | UPDATED-GOOGLE-APPS-SCRIPT.js:17 | the sheet starts with the given rows |
| AppsScript.Sheet.DoPost | UPDATED-GOOGLE-APPS-SCRIPT.js:15-69 | success exactly when every step and the append succeed, and then exactly the built row is appended; on any error the sheet is unchanged and the error's message is returned |
| AppsScript.SuccessReplyMatchesRow | UPDATED-GOOGLE-APPS-SCRIPT.js:31-57 | the success reply's `teams` is the string written to column G, column A is the timestamp and column F the request's residency |
| SubmitRoute.Translate | app/api/submit/route.ts:21-32 | success exactly when the parsed answer's status is `"success"`, then status 200 and the fixed message; any other non-null answer gives 500 with its `message \|\| "Google Apps Script error"` (the fallback for an array, string, number or boolean answer); a null answer gives 500 with the TypeError of reading `status` |
| SubmitRoute.Post | app/api/submit/route.ts:6-40 | the body is forwarded exactly once when it parses and not at all otherwise; the status is 200 exactly on success and 500 otherwise; fetch and parse errors pass their message on |
| SubmitRoute.UpstreamStatusIgnored | app/api/submit/route.ts:21-24 | the reply does not depend on the Apps Script's HTTP status |
| SubmitRoute.UpstreamErrorMessage | app/api/submit/route.ts:29-31 | a non-success answer with a non-empty message passes it on; an absent or empty message gives the fallback text |
| Pipeline.FormSees | components/junior-form.tsx:131-141 | the form's `response.ok` holds exactly when the route reported success |
| Pipeline.RelayReplyReachesUser | app/api/submit/route.ts:24-39 | for every request and upstream outcome the form succeeds exactly when the route reports success, and a failure with a non-empty message is alerted with exactly that message |
| Pipeline.ScriptErrorReachesUser | app/api/submit/route.ts:29-39 | a script error with a message reaches the form as a failure whose alert is that message |
| Pipeline.EmptyScriptErrorReachesUser | app/api/submit/route.ts:31 | a script error without a message reaches the user as the route's fallback, never the form's own |
| Pipeline.ScriptSuccessReachesUser | app/api/submit/route.ts:24-28 | a script success reaches the form as an ok response |
| Pipeline.FormPayloadIsPrepared | UPDATED-GOOGLE-APPS-SCRIPT.js:27-42 | the form's payload passes every step before the append, with an empty teams string |
| Pipeline.FormRowLosesTeamAndResidency | UPDATED-GOOGLE-APPS-SCRIPT.js:27-42 | the row built from what the form sends has an empty team-choices cell and an undefined residency cell, while name, phone and why carry the form's values |
| Pipeline.SuccessfulSubmission | components/junior-form.tsx:127-145 | with a working script and sheet, the form posts its payload and the sheet gains a row exactly when the schema accepts the values; then the form succeeds with no alert and the one new row is built from the posted body, otherwise nothing is posted and nothing changes |
| Pipeline.AppendFails | UPDATED-GOOGLE-APPS-SCRIPT.js:48-67 | the form posts its payload; when the append throws, the user sees that message, the form keeps its values and is editable, and the sheet is unchanged |
| Pipeline.BlankPortfolioBlocked | components/junior-form.tsx:186 | a portfolio team with a blank portfolio posts nothing and leaves the form editable with no alert |

## Left out

- Markup, styling, the confetti, the window-size effect, images and the other page components: presentation only.
- `fetch`, `request.json()`, `response.json()`, `SpreadsheetApp`, `new Date()` and `appendRow` are given as their outcomes (parameters); `console.error` and `Logger.log` have no effect on the data and are left out; `alert` is recorded as the list of messages shown.
- `new URL(p)`: URL parsing is the parameter `parsesAsUrl`.
- zod and react-hook-form internals: the model gives one verdict and one message per field (all failing fields at once). The refinement's result is the same whether or not zod runs it after a field error, because it can only fail for a team that is a valid enum value. The invalid-enum message for the team follows zod's built-in wording, which the form's select never lets a user reach.
- String lengths count characters; JavaScript counts UTF-16 code units, which differ for characters outside the Basic Multilingual Plane.
- JSON numbers are integers; floating point, `NaN` and number formatting beyond integers are not modelled.
- `JSON.stringify`/`JSON.parse` are not modelled as text: the relay forwards the parsed value, and the `data` field of the script's success answer (the request re-serialised) is not in `AppsScript.ReplyJson`.
- Asynchronous scheduling: each await is a step of the methods; a second submission while one is in flight is excluded by the disabled button, which `SubmitDisabled` states.
- Error texts thrown by the engine (property of `null`, `join` not a function) use V8's wording; reads of `e.postData.contents` are folded into the `parsed` outcome of `Sheet.DoPost`.
- `appendRow` either appends the whole row or throws without appending.
- Only own properties of parsed objects are read; inherited properties and built-ins such as `length` are not.
- The hard-coded sheet id and script URL are not modelled; `testDoPost` appears only as `AppsScript.TeamsStringExample`.
- AppsScript.Sheet.DoPost: the row's timestamp is an integer number of milliseconds, not a `Date` object.

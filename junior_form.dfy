/** The applicant form (components/junior-form.tsx): its validation schema, the
    portfolio visibility toggle and the submit lifecycle of the component. */
module JuniorForm {
  import opened JsValues

  // ---------------------------------------------------------------------------
  // The phone pattern  ^(\+91[\-\s]?)?[0]?(91)?[789]\d{9}$
  // ---------------------------------------------------------------------------

  /** `\d` without the `u` flag. */
  predicate IsAsciiDigit(c: char) {
    '0' <= c <= '9'
  }

  /** `[\-\s]` */
  predicate IsSeparator(c: char) {
    c == '-' || IsJsSpace(c)
  }

  /** `[789]\d{9}` */
  predicate IsMobileNumber(m: string) {
    |m| == 10 && (m[0] == '7' || m[0] == '8' || m[0] == '9')
    && forall i :: 1 <= i < 10 ==> IsAsciiDigit(m[i])
  }

  /** `(\+91[\-\s]?)?` */
  predicate IsCountryCode(p: string) {
    p == "" || p == "+91" || (|p| == 4 && p[..3] == "+91" && IsSeparator(p[3]))
  }

  /** `[0]?` */
  predicate IsTrunkZero(z: string) {
    z == "" || z == "0"
  }

  /** `(91)?` */
  predicate IsNinetyOne(n: string) {
    n == "" || n == "91"
  }

  /** Cutting `s` at i <= j <= k gives the four pieces of the pattern in order. */
  predicate PhoneSplit(s: string, i: int, j: int, k: int) {
    0 <= i <= j <= k <= |s|
    && IsCountryCode(s[..i]) && IsTrunkZero(s[i..j]) && IsNinetyOne(s[j..k]) && IsMobileNumber(s[k..])
  }

  /** The language of the anchored phone pattern. */
  ghost predicate MatchesPhonePattern(s: string) {
    exists i, j, k :: PhoneSplit(s, i, j, k)
  }

  /** Where each optional piece before the mobile number ends: the pieces begin
      with different characters ('+', '0', '9'), so each is taken exactly when
      its first character is next. */
  function CountryCodeEnd(p: string): (i: nat)
    ensures i <= |p| && IsCountryCode(p[..i])
  {
    if |p| >= 3 && p[..3] == "+91" then
      (if |p| >= 4 && IsSeparator(p[3]) then 4 else 3)
    else 0
  }

  function TrunkZeroEnd(p: string, i: nat): (j: nat)
    requires i <= |p|
    ensures i <= j <= |p| && IsTrunkZero(p[i..j])
  {
    if i < |p| && p[i] == '0' then i + 1 else i
  }

  /** What may stand before the mobile number, read left to right. */
  predicate IsPhonePrefix(p: string) {
    IsNinetyOne(p[TrunkZeroEnd(p, CountryCodeEnd(p))..])
  }

  /** `phoneRegex.test(s)`: the last ten characters are the mobile number and
      what comes before them is an allowed prefix. */
  predicate IsValidPhone(s: string) {
    |s| >= 10 && IsPhonePrefix(s[..|s| - 10]) && IsMobileNumber(s[|s| - 10..])
  }

  /** The left-to-right recogniser accepts exactly the language of the pattern. */
  lemma PhoneRecogniserMatchesPattern(s: string)
    ensures IsValidPhone(s) <==> MatchesPhonePattern(s)
  {
    if IsValidPhone(s) {
      var k := |s| - 10;
      var p := s[..k];
      var i := CountryCodeEnd(p);
      var j := TrunkZeroEnd(p, i);
      assert s[..i] == p[..i] && s[i..j] == p[i..j] && s[j..k] == p[j..];
      assert PhoneSplit(s, i, j, k);
    }
    if MatchesPhonePattern(s) {
      var i, j, k :| PhoneSplit(s, i, j, k);
      PhoneSplitIsRecognised(s, i, j, k);
    }
  }

  lemma PhoneSplitIsRecognised(s: string, i: int, j: int, k: int)
    requires PhoneSplit(s, i, j, k)
    ensures IsValidPhone(s)
  {
    assert k == |s| - 10;
    var p := s[..k];
    assert p[..i] == s[..i];
    assert p[i..j] == s[i..j];
    assert p[j..] == s[j..k];
    assert CountryCodeEnd(p) == i by {
      if i == 0 {
        assert s[i..j] == "" || s[i..j] == "0";
        assert s[j..k] == "" || s[j..k] == "91";
        if |p| >= 3 {
          assert p[0] != '+';
        }
      } else if i == 3 {
        assert p[..3] == "+91";
        if |p| >= 4 {
          assert !IsSeparator(p[3]);
        }
      }
    }
    assert TrunkZeroEnd(p, i) == j by {
      if i == j && i < |p| {
        assert p[i] == '9';
      }
    }
  }

  /** An accepted phone number ends in a ten-digit mobile number that starts
      with 7, 8 or 9, after at most seven prefix characters ("+91-091"). */
  lemma AcceptedPhoneShape(s: string)
    requires MatchesPhonePattern(s)
    ensures 10 <= |s| <= 17
    ensures s[|s| - 10] in {'7', '8', '9'}
    ensures forall n :: |s| - 10 <= n < |s| ==> IsAsciiDigit(s[n])
  {
    PhoneRecogniserMatchesPattern(s);
    var p := s[..|s| - 10];
    var c := CountryCodeEnd(p);
    var z := TrunkZeroEnd(p, c);
    assert |p[z..]| <= 2;
    assert |p| <= 7;
    var m := s[|s| - 10..];
    assert m[0] == s[|s| - 10];
    forall n | |s| - 10 <= n < |s| ensures IsAsciiDigit(s[n]) {
      assert m[n - (|s| - 10)] == s[n];
    }
  }

  /** The form's placeholder number and its prefixed variants are accepted. */
  lemma PhoneAcceptedExamples()
    ensures MatchesPhonePattern("9876543210")
    ensures MatchesPhonePattern("09876543210")
    ensures MatchesPhonePattern("919876543210")
    ensures MatchesPhonePattern("+919876543210")
    ensures MatchesPhonePattern("+91 9876543210")
    ensures MatchesPhonePattern("+91-0919876543210")
  {
    assert PhoneSplit("9876543210", 0, 0, 0);
    assert PhoneSplit("09876543210", 0, 1, 1);
    assert PhoneSplit("919876543210", 0, 0, 2);
    assert PhoneSplit("+919876543210", 3, 3, 3);
    assert PhoneSplit("+91 9876543210", 4, 4, 4);
    assert PhoneSplit("+91-0919876543210", 4, 5, 7);
  }

  /** Too short, a leading 5 or 6, and a foreign country code are rejected. */
  lemma PhoneRejectedExamples()
    ensures !MatchesPhonePattern("12345")
    ensures !MatchesPhonePattern("5555555555")
    ensures !MatchesPhonePattern("6876543210")
    ensures !MatchesPhonePattern("+92 9876543210")
  {
    PhoneRecogniserMatchesPattern("12345");
    PhoneRecogniserMatchesPattern("5555555555");
    PhoneRecogniserMatchesPattern("6876543210");
    var foreign := "+92 9876543210";
    PhoneRecogniserMatchesPattern(foreign);
    assert foreign[..4][..3][2] == '2';
  }

  // ---------------------------------------------------------------------------
  // The schema
  // ---------------------------------------------------------------------------

  const PortfolioTeams: seq<string> := ["Tech", "Multimedia", "Design"]
  const TeamChoices: seq<string> :=
    ["Tech", "Multimedia", "Research", "Management", "PR", "Sponsorship", "Design"]

  /** The form's values; `team` is unset until a team is chosen, and the two
      optional fields may be absent. */
  datatype FormValues = FormValues(
    name: string,
    enrollment: string,
    course: string,
    phone: string,
    team: Option<string>,
    why: string,
    portfolio: Option<string>,
    experience: Option<string>)

  /** The values the form starts from. */
  const DefaultValues: FormValues :=
    FormValues("", "", "", "", None, "", Some(""), Some(""))

  datatype FieldPath =
    | NamePath | EnrollmentPath | CoursePath | PhonePath | TeamPath | WhyPath | PortfolioPath | ExperiencePath

  const AllPaths: set<FieldPath> :=
    {NamePath, EnrollmentPath, CoursePath, PhonePath, TeamPath, WhyPath, PortfolioPath, ExperiencePath}

  const NameMessage := "Name must be at least 2 characters."
  const EnrollmentMessage := "Please enter a valid Enrollment No. or Year."
  const CourseMessage := "Please enter your course."
  const PhoneMessage := "Please enter a valid 10-digit Indian phone number."
  const TeamRequiredMessage := "Please select a team."

  /** zod's message for a value outside an enum: the options quoted and
      separated by " | ", then the value received. */
  function ZodEnumMessage(received: string): string {
    "Invalid enum value. Expected " + Join(Quoted(TeamChoices), " | ") + ", received '" + received + "'"
  }

  function Quoted(options: seq<string>): (r: seq<string>)
    ensures |r| == |options|
    ensures forall i :: 0 <= i < |options| ==> r[i] == "'" + options[i] + "'"
  {
    if options == [] then [] else ["'" + options[0] + "'"] + Quoted(options[1..])
  }
  const WhyShortMessage := "Please tell us a bit more (min. 20 characters)."
  const WhyLongMessage := "Response must be under 500 characters."
  const PortfolioMessage := "A valid portfolio URL is required for this team."

  /** `portfolioTeams.includes(team)`; an unset team is not included. */
  predicate NeedsPortfolio(team: Option<string>) {
    team.Some? && team.value in PortfolioTeams
  }

  /** The `.refine` callback; `parsesAsUrl(p)` says whether `new URL(p)`
      returns instead of throwing. */
  predicate PortfolioRefinement(team: Option<string>, portfolio: Option<string>, parsesAsUrl: string -> bool) {
    if NeedsPortfolio(team) then
      portfolio.Some? && portfolio.value != "" && Trim(portfolio.value) != "" && parsesAsUrl(portfolio.value)
    else
      true
  }

  /** Whether the rule attached to `path` rejects `v`. */
  predicate FieldFails(v: FormValues, parsesAsUrl: string -> bool, path: FieldPath) {
    match path
    case NamePath => |v.name| < 2
    case EnrollmentPath => |v.enrollment| < 4
    case CoursePath => |v.course| < 2
    case PhonePath => !IsValidPhone(v.phone)
    case TeamPath => v.team.None? || v.team.value !in TeamChoices
    case WhyPath => |v.why| < 20 || |v.why| > 500
    case PortfolioPath => !PortfolioRefinement(v.team, v.portfolio, parsesAsUrl)
    case ExperiencePath => false
  }

  /** The message shown under the field at `path`. */
  function FieldMessage(v: FormValues, path: FieldPath): string {
    match path
    case NamePath => NameMessage
    case EnrollmentPath => EnrollmentMessage
    case CoursePath => CourseMessage
    case PhonePath => PhoneMessage
    case TeamPath => if v.team.None? then TeamRequiredMessage else ZodEnumMessage(v.team.value)
    case WhyPath => if |v.why| < 20 then WhyShortMessage else WhyLongMessage
    case PortfolioPath => PortfolioMessage
    case ExperiencePath => ""
  }

  /** The schema's verdict: each failing field with its message; the values
      are accepted when the map is empty. */
  function FieldErrors(v: FormValues, parsesAsUrl: string -> bool): map<FieldPath, string> {
    map path | path in AllPaths && FieldFails(v, parsesAsUrl, path) :: FieldMessage(v, path)
  }

  predicate Accepted(v: FormValues, parsesAsUrl: string -> bool) {
    FieldErrors(v, parsesAsUrl) == map[]
  }

  /** Each field is rejected exactly when its own rule fails, with that rule's
      message, and the values are accepted exactly when every rule holds. */
  lemma SchemaRules(v: FormValues, parsesAsUrl: string -> bool)
    ensures var errors := FieldErrors(v, parsesAsUrl);
      && (NamePath in errors <==> |v.name| < 2)
      && (EnrollmentPath in errors <==> |v.enrollment| < 4)
      && (CoursePath in errors <==> |v.course| < 2)
      && (PhonePath in errors <==> !MatchesPhonePattern(v.phone))
      && (TeamPath in errors <==> !(v.team.Some? && v.team.value in TeamChoices))
      && (WhyPath in errors <==> !(20 <= |v.why| <= 500))
      && (PortfolioPath in errors <==> !PortfolioRefinement(v.team, v.portfolio, parsesAsUrl))
      && ExperiencePath !in errors
      && (NamePath in errors ==> errors[NamePath] == NameMessage)
      && (EnrollmentPath in errors ==> errors[EnrollmentPath] == EnrollmentMessage)
      && (CoursePath in errors ==> errors[CoursePath] == CourseMessage)
      && (PhonePath in errors ==> errors[PhonePath] == PhoneMessage)
      && (TeamPath in errors ==>
            errors[TeamPath] == if v.team.None? then TeamRequiredMessage else ZodEnumMessage(v.team.value))
      && (WhyPath in errors ==> errors[WhyPath] == if |v.why| < 20 then WhyShortMessage else WhyLongMessage)
      && (PortfolioPath in errors ==> errors[PortfolioPath] == PortfolioMessage)
    ensures Accepted(v, parsesAsUrl) <==>
      |v.name| >= 2 && |v.enrollment| >= 4 && |v.course| >= 2 && MatchesPhonePattern(v.phone)
      && v.team.Some? && v.team.value in TeamChoices && 20 <= |v.why| <= 500
      && PortfolioRefinement(v.team, v.portfolio, parsesAsUrl)
  {
    PhoneRecogniserMatchesPattern(v.phone);
    var errors := FieldErrors(v, parsesAsUrl);
    if Accepted(v, parsesAsUrl) {
      forall path | path in AllPaths ensures !FieldFails(v, parsesAsUrl, path) {
        assert path !in errors;
      }
    } else {
      var path :| path in errors;
    }
  }

  /** The length bounds of `why` at their edges. */
  lemma WhyLengthEdges(v: FormValues, parsesAsUrl: string -> bool)
    ensures |v.why| == 19 ==> FieldErrors(v, parsesAsUrl)[WhyPath] == WhyShortMessage
    ensures |v.why| == 501 ==> FieldErrors(v, parsesAsUrl)[WhyPath] == WhyLongMessage
    ensures |v.why| == 20 || |v.why| == 500 ==> WhyPath !in FieldErrors(v, parsesAsUrl)
  {
    SchemaRules(v, parsesAsUrl);
  }

  /** For a team outside Tech, Multimedia and Design the refinement holds
      whatever the portfolio is, absent and empty included. */
  lemma RefinementIgnoresPortfolio(v: FormValues, parsesAsUrl: string -> bool)
    requires !NeedsPortfolio(v.team)
    ensures PortfolioRefinement(v.team, v.portfolio, parsesAsUrl)
    ensures PortfolioPath !in FieldErrors(v, parsesAsUrl)
  {
  }

  /** For Tech, Multimedia and Design the refinement holds exactly for a
      present, non-blank portfolio that parses as a URL. */
  lemma RequiredPortfolio(team: Option<string>, portfolio: Option<string>, parsesAsUrl: string -> bool)
    requires NeedsPortfolio(team)
    ensures PortfolioRefinement(team, portfolio, parsesAsUrl) <==>
      portfolio.Some? && !IsBlank(portfolio.value) && parsesAsUrl(portfolio.value)
  {
    if portfolio.Some? {
      TrimEmptyIffBlank(portfolio.value);
      if portfolio.value == "" {
        assert IsBlank(portfolio.value);
      }
    }
  }

  /** An absent, empty or whitespace-only portfolio for a portfolio team is
      rejected, and the error is attached to the portfolio field. */
  lemma BlankPortfolioRejected(v: FormValues, parsesAsUrl: string -> bool)
    requires NeedsPortfolio(v.team)
    requires v.portfolio.None? || IsBlank(v.portfolio.value)
    ensures FieldErrors(v, parsesAsUrl)[PortfolioPath] == PortfolioMessage
    ensures !Accepted(v, parsesAsUrl)
  {
    RequiredPortfolio(v.team, v.portfolio, parsesAsUrl);
    assert PortfolioPath in FieldErrors(v, parsesAsUrl);
  }

  /** Changing the portfolio changes the verdict on the portfolio field only. */
  lemma PortfolioErrorIsLocal(v: FormValues, portfolio: Option<string>, parsesAsUrl: string -> bool)
    ensures forall path :: path != PortfolioPath ==>
      (path in FieldErrors(v, parsesAsUrl) <==> path in FieldErrors(v.(portfolio := portfolio), parsesAsUrl))
      && (path in FieldErrors(v, parsesAsUrl) ==>
            FieldErrors(v, parsesAsUrl)[path] == FieldErrors(v.(portfolio := portfolio), parsesAsUrl)[path])
  {
  }

  /** `showPortfolio`: the portfolio field is displayed for the watched team. */
  function ShowPortfolio(watchedTeam: Option<string>): (shown: bool)
    ensures shown <==> watchedTeam == Some("Tech") || watchedTeam == Some("Multimedia") || watchedTeam == Some("Design")
  {
    NeedsPortfolio(watchedTeam)
  }

  /** The field is shown exactly for the teams whose refinement looks at the
      portfolio: there an absent portfolio fails, elsewhere any portfolio passes. */
  lemma ShowPortfolioIsRefinementTrigger(team: Option<string>, parsesAsUrl: string -> bool)
    ensures ShowPortfolio(team) <==> !PortfolioRefinement(team, None, parsesAsUrl)
    ensures !ShowPortfolio(team) ==> forall p :: PortfolioRefinement(team, p, parsesAsUrl)
  {
  }

  /** The keys of the posted body are pairwise different, and differ from
      the `teams` and `residency` keys the storage script reads. */
  lemma PayloadKeysDistinct()
    ensures var keys := ["name", "enrollment", "course", "phone", "why", "team", "portfolio", "experience",
                         "teams", "residency"];
      forall a, b :: 0 <= a < b < |keys| ==> keys[a] != keys[b]
  {
    var keys := ["name", "enrollment", "course", "phone", "why", "team", "portfolio", "experience",
                 "teams", "residency"];
    forall a, b | 0 <= a < b < |keys| ensures keys[a] != keys[b] {
      if |keys[a]| == |keys[b]| {
        assert keys[a][0] != keys[b][0] || keys[a][1] != keys[b][1];
      }
    }
  }

  /** `JSON.stringify(values)`: the body the form posts; absent optional
      fields are omitted. */
  function FormPayload(v: FormValues): (body: Json)
    ensures body.JObj?
    ensures body.fields.Keys == {"name", "enrollment", "course", "phone", "why"}
      + (if v.team.Some? then {"team"} else {})
      + (if v.portfolio.Some? then {"portfolio"} else {})
      + (if v.experience.Some? then {"experience"} else {})
    ensures v.team.Some? ==> body.fields["team"] == JStr(v.team.value)
    ensures v.portfolio.Some? ==> body.fields["portfolio"] == JStr(v.portfolio.value)
    ensures v.experience.Some? ==> body.fields["experience"] == JStr(v.experience.value)
    ensures body.fields["name"] == JStr(v.name) && body.fields["enrollment"] == JStr(v.enrollment)
      && body.fields["course"] == JStr(v.course) && body.fields["phone"] == JStr(v.phone)
      && body.fields["why"] == JStr(v.why)
  {
    PayloadKeysDistinct();
    var optional := WithOptional(WithOptional(WithOptional(map[], "team", v.team), "portfolio", v.portfolio),
                                 "experience", v.experience);
    JObj(optional["name" := JStr(v.name)]["enrollment" := JStr(v.enrollment)]["course" := JStr(v.course)]
                 ["phone" := JStr(v.phone)]["why" := JStr(v.why)])
  }

  /** `fields` with `key` added when `value` is present. */
  function WithOptional(fields: map<string, Json>, key: string, value: Option<string>): (m: map<string, Json>)
    ensures m.Keys == fields.Keys + (if value.Some? then {key} else {})
    ensures forall k :: k in fields && k != key ==> m[k] == fields[k]
    ensures value.Some? ==> m[key] == JStr(value.value)
  {
    if value.Some? then fields[key := JStr(value.value)] else fields
  }

  // ---------------------------------------------------------------------------
  // The submit lifecycle
  // ---------------------------------------------------------------------------

  /** What `fetch('/api/submit', ...)` yields: a response with its HTTP status
      and the outcome of reading its body as JSON, or a rejected fetch. */
  datatype ApiResponse =
    | Response(status: int, body: Result<Json>)
    | NetworkFailure(message: string)

  /** `response.ok` */
  predicate IsOkStatus(status: int) {
    200 <= status <= 299
  }

  predicate SubmitSucceeds(r: ApiResponse) {
    r.Response? && IsOkStatus(r.status)
  }

  const SubmitFallback := "Something went wrong. Please try again."

  /** The message handed to `alert` when a submission fails. */
  function FailureMessage(r: ApiResponse): string
    requires !SubmitSucceeds(r)
  {
    match r
    case NetworkFailure(m) => m
    case Response(_, Thrown(m)) => m
    case Response(_, Ok(errorData)) =>
      match GetProperty(errorData, "message")
      case Thrown(m) => m
      case Ok(message) => MessageOr(message, SubmitFallback)
  }

  /** A non-ok reply carrying a non-empty message shows it; one whose message
      is missing, empty or otherwise falsy shows the fallback text. */
  lemma FailureMessageOfReply(status: int, fields: map<string, Json>)
    requires !IsOkStatus(status)
    ensures "message" in fields && fields["message"].JStr? && fields["message"].s != "" ==>
      FailureMessage(Response(status, Ok(JObj(fields)))) == fields["message"].s
    ensures !Truthy(if "message" in fields then Some(fields["message"]) else None) ==>
      FailureMessage(Response(status, Ok(JObj(fields)))) == SubmitFallback
  {
  }

  datatype Phase = Editing | Submitting | Submitted

  /** The state of the form component: the values react-hook-form holds, the
      two state flags and the alerts shown so far. */
  class FormState {
    var values: FormValues
    var isLoading: bool
    var isSuccess: bool
    var alerts: seq<string>

    /** The flags never both hold: loading ends before success is set. */
    ghost predicate Valid()
      reads this
    {
      !(isLoading && isSuccess)
    }

    function CurrentPhase(): (p: Phase)
      reads this
      requires Valid()
      ensures p == Submitted <==> isSuccess
      ensures p == Submitting <==> isLoading
    {
      if isSuccess then Submitted else if isLoading then Submitting else Editing
    }

    /** The submit button's `disabled` attribute. */
    function SubmitDisabled(): (disabled: bool)
      reads this
      requires Valid()
      ensures disabled <==> CurrentPhase() == Submitting
    {
      isLoading
    }

    constructor ()
      ensures Valid() && CurrentPhase() == Editing
      ensures values == DefaultValues && alerts == []
    {
      values := DefaultValues;
      isLoading := false;
      isSuccess := false;
      alerts := [];
    }

    /** A field edit while the form is shown. */
    method ChangeValues(v: FormValues)
      requires Valid() && !isSuccess
      modifies this
      ensures Valid() && values == v
      ensures isLoading == old(isLoading) && isSuccess == old(isSuccess) && alerts == old(alerts)
    {
      values := v;
    }

    /** `setIsLoading(true)` */
    method BeginSubmit()
      requires Valid() && CurrentPhase() == Editing
      modifies this
      ensures Valid() && CurrentPhase() == Submitting
      ensures values == old(values) && alerts == old(alerts)
    {
      isLoading := true;
    }

    /** `setIsLoading(false); setIsSuccess(true)` */
    method Succeed()
      requires Valid() && CurrentPhase() == Submitting
      modifies this
      ensures Valid() && CurrentPhase() == Submitted
      ensures values == old(values) && alerts == old(alerts)
    {
      isLoading := false;
      isSuccess := true;
    }

    /** `setIsLoading(false); alert(message)` */
    method Fail(message: string)
      requires Valid() && CurrentPhase() == Submitting
      modifies this
      ensures Valid() && CurrentPhase() == Editing
      ensures isSuccess == old(isSuccess)
      ensures values == old(values) && alerts == old(alerts) + [message]
    {
      isLoading := false;
      alerts := alerts + [message];
    }

    /** `onSubmit`, with the awaited fetch given as its result `r`; `posted`
        is the body the fetch sends, `JSON.stringify(values)`. */
    method OnSubmit(r: ApiResponse) returns (posted: Json)
      requires Valid() && CurrentPhase() == Editing
      modifies this
      ensures posted == FormPayload(values)
      ensures Valid() && !isLoading
      ensures isSuccess <==> SubmitSucceeds(r)
      ensures alerts == old(alerts) + (if SubmitSucceeds(r) then [] else [FailureMessage(r)])
      ensures values == old(values)
    {
      BeginSubmit();
      posted := FormPayload(values);
      if SubmitSucceeds(r) {
        Succeed();
      } else {
        Fail(FailureMessage(r));
      }
    }

    /** `form.handleSubmit(onSubmit)`: the request is made only when the
        schema accepts the current values, and it carries those values. */
    method HandleSubmit(parsesAsUrl: string -> bool, r: ApiResponse) returns (sent: bool, posted: Option<Json>)
      requires Valid() && CurrentPhase() == Editing
      modifies this
      ensures Valid() && values == old(values) && !isLoading
      ensures sent <==> Accepted(values, parsesAsUrl)
      ensures posted == if sent then Some(FormPayload(values)) else None
      ensures sent ==> (isSuccess <==> SubmitSucceeds(r))
      ensures sent ==> alerts == old(alerts) + (if SubmitSucceeds(r) then [] else [FailureMessage(r)])
      ensures !sent ==> CurrentPhase() == Editing && alerts == old(alerts)
    {
      sent := FieldErrors(values, parsesAsUrl) == map[];
      posted := None;
      if sent {
        var body := OnSubmit(r);
        posted := Some(body);
      }
    }
  }
}

/** The three pieces put together: the form posts its values to the relay
    route, the route forwards them to the Apps Script, and the script's answer
    travels back through the route to the form. */
module Pipeline {
  import opened JsValues
  import opened JuniorForm
  import opened AppsScript
  import opened SubmitRoute

  /** What the form's fetch sees when the route answers with `reply`. */
  function FormSees(reply: RelayReply): (r: ApiResponse)
    requires reply.success <==> reply.status == DefaultStatus
    requires reply.status == DefaultStatus || reply.status == ErrorStatus
    ensures SubmitSucceeds(r) <==> reply.success
  {
    Response(reply.status, Ok(ReplyBody(reply)))
  }

  /** The route's answer to the form when the script answered `scriptReply`
      over HTTP with status `httpStatus`. */
  function RelayOf(body: Json, httpStatus: int, scriptReply: ScriptReply): Relay {
    Post(Ok(body), UpstreamResponse(httpStatus, Ok(ReplyJson(scriptReply))))
  }

  /** Whatever the request and the upstream outcome, the form's verdict is the
      route's, and a failure with a non-empty message is alerted with exactly
      that message. */
  lemma RelayReplyReachesUser(body: Result<Json>, upstream: Upstream)
    ensures var reply := Post(body, upstream).reply;
      && (SubmitSucceeds(FormSees(reply)) <==> reply.success)
      && (!reply.success && reply.message != "" ==> FailureMessage(FormSees(reply)) == reply.message)
  {
  }

  /** A script error with a message reaches the user as that message. */
  lemma ScriptErrorReachesUser(body: Json, httpStatus: int, message: string)
    requires message != ""
    ensures var reply := RelayOf(body, httpStatus, ErrorReply(message)).reply;
      && reply == FailureReply(message)
      && !SubmitSucceeds(FormSees(reply))
      && FailureMessage(FormSees(reply)) == message
  {
    UpstreamErrorMessage(body, httpStatus, ReplyJson(ErrorReply(message)).fields);
  }

  /** A script error without a message reaches the user as the route's
      fallback text, which is not empty, so the form's own fallback is unused. */
  lemma EmptyScriptErrorReachesUser(body: Json, httpStatus: int)
    ensures var reply := RelayOf(body, httpStatus, ErrorReply("")).reply;
      && reply == FailureReply(UpstreamFallback)
      && FailureMessage(FormSees(reply)) == UpstreamFallback
  {
    UpstreamErrorMessage(body, httpStatus, ReplyJson(ErrorReply("")).fields);
  }

  /** A script success reaches the form as a success. */
  lemma ScriptSuccessReachesUser(body: Json, httpStatus: int, data: Json, teams: string)
    ensures var reply := RelayOf(body, httpStatus, SuccessReply(data, teams)).reply;
      && reply == RelayReply(true, SuccessMessage, DefaultStatus)
      && SubmitSucceeds(FormSees(reply))
  {
  }

  /** The form's payload always gets past every step before the append, with
      an empty teams string. */
  lemma FormPayloadIsPrepared(v: FormValues, now: int)
    ensures PrepareRow(Ok(()), Ok(FormPayload(v)), now)
      == Ok(PreparedRow(FormPayload(v), "", NewRow(now, FormPayload(v), "")))
  {
    PayloadKeysDistinct();
    assert "teams" !in FormPayload(v).fields;
  }

  /** The form sends a single `team` and no `residency`, while the script
      reads `teams` and `residency`: every row built from the form's payload
      has an empty team-choices cell and an undefined residency cell, and the
      remaining cells carry the form's values. */
  lemma FormRowLosesTeamAndResidency(v: FormValues, upstream: Upstream, now: int)
    ensures var sent := Post(Ok(FormPayload(v)), upstream).attempts;
      && sent == [FormPayload(v)]
      && var prepared := PrepareRow(Ok(()), Ok(sent[0]), now);
      && prepared.Ok?
      && prepared.value.teams == ""
      && prepared.value.row[5] == UndefinedCell
      && prepared.value.row[6] == ValueCell(JStr(""))
      && prepared.value.row[1] == ValueCell(JStr(v.name))
      && prepared.value.row[4] == ValueCell(JStr(v.phone))
      && prepared.value.row[7] == ValueCell(JStr(v.why))
  {
    var payload := FormPayload(v);
    FormPayloadIsPrepared(v, now);
    PayloadKeysDistinct();
    assert "residency" !in payload.fields;
    assert Layout[1] == Copied("name") && Layout[4] == Copied("phone") && Layout[5] == Copied("residency")
      && Layout[6] == TeamsColumn && Layout[7] == Copied("why");
  }

  /** Scenario: the script and the append work. The request is made, and the
      sheet gains a row, exactly when the schema accepts the values; then the
      form posted its values, ends in its success state with no alert, and the
      sheet gained the one row built from the posted body. */
  method SuccessfulSubmission(v: FormValues, parsesAsUrl: string -> bool, now: int, httpStatus: int,
                              earlier: seq<seq<Cell>>)
    returns (sent: bool, posted: Option<Json>, succeeded: bool, shown: seq<string>, sheetRows: seq<seq<Cell>>)
    ensures sent <==> Accepted(v, parsesAsUrl)
    ensures posted == if sent then Some(FormPayload(v)) else None
    ensures sent ==> succeeded && shown == [] && sheetRows == earlier + [NewRow(now, posted.value, "")]
    ensures !sent ==> !succeeded && shown == [] && sheetRows == earlier
  {
    var form := new FormState();
    form.ChangeValues(v);
    var sheet := new Sheet(earlier);
    var response: ApiResponse := NetworkFailure("");
    if Accepted(form.values, parsesAsUrl) {
      FormPayloadIsPrepared(v, now);
      var scriptReply := sheet.DoPost(Ok(()), Ok(FormPayload(v)), now, Ok(()));
      assert scriptReply.SuccessReply?;
      var relay := RelayOf(FormPayload(v), httpStatus, scriptReply);
      ScriptSuccessReachesUser(FormPayload(v), httpStatus, scriptReply.data, scriptReply.teams);
      response := FormSees(relay.reply);
    }
    sent, posted := form.HandleSubmit(parsesAsUrl, response);
    succeeded, shown, sheetRows := form.isSuccess, form.alerts, sheet.rows;
  }

  /** Scenario: accepted values, but appending the row throws (for instance
      "quota exceeded"); the user sees that message, the form keeps its values
      and is editable again, and the sheet is unchanged. */
  method AppendFails(v: FormValues, parsesAsUrl: string -> bool, now: int, httpStatus: int,
                     earlier: seq<seq<Cell>>, failure: string)
    returns (posted: Option<Json>, succeeded: bool, loading: bool, shown: seq<string>, kept: FormValues,
             sheetRows: seq<seq<Cell>>)
    requires Accepted(v, parsesAsUrl)
    requires failure != ""
    ensures posted == Some(FormPayload(v))
    ensures !succeeded && !loading && shown == [failure]
    ensures kept == v && sheetRows == earlier
  {
    var form := new FormState();
    form.ChangeValues(v);
    var sheet := new Sheet(earlier);
    var response: ApiResponse := NetworkFailure("");
    if Accepted(form.values, parsesAsUrl) {
      FormPayloadIsPrepared(v, now);
      var scriptReply := sheet.DoPost(Ok(()), Ok(FormPayload(v)), now, Thrown(failure));
      var relay := RelayOf(FormPayload(v), httpStatus, scriptReply);
      ScriptErrorReachesUser(FormPayload(v), httpStatus, failure);
      response := FormSees(relay.reply);
    }
    var sent;
    sent, posted := form.HandleSubmit(parsesAsUrl, response);
    succeeded, loading, shown, kept, sheetRows := form.isSuccess, form.isLoading, form.alerts, form.values, sheet.rows;
  }

  /** Scenario: a portfolio team with a blank portfolio; the schema blocks the
      submission, so no request is made and the form stays as it was. */
  method BlankPortfolioBlocked(v: FormValues, parsesAsUrl: string -> bool, anyResponse: ApiResponse)
    returns (sent: bool, posted: Option<Json>, phase: Phase, shown: seq<string>)
    requires NeedsPortfolio(v.team)
    requires v.portfolio.None? || IsBlank(v.portfolio.value)
    ensures !sent && posted == None && phase == Editing && shown == []
  {
    var form := new FormState();
    form.ChangeValues(v);
    BlankPortfolioRejected(v, parsesAsUrl);
    sent, posted := form.HandleSubmit(parsesAsUrl, anyResponse);
    phase, shown := form.CurrentPhase(), form.alerts;
  }
}

/**
 * The config flow: `validate_input` and the user and reauth steps. A step's
 * framework calls (`async_show_form`, `async_create_entry`,
 * `async_update_reload_and_abort`, `_async_abort_entries_match`) are
 * represented by the FlowResult they produce.
 */
module ConfigFlow {
  import opened Wrappers
  import opened JsonValues
  import opened Http

  /** Keys of the submitted and stored configuration. */
  const UrlKey := "url"
  const ApiKeyKey := "api_key"

  /** The error codes shown on a form. */
  const BaseKey := "base"
  const InvalidApiKey := "invalid_api_key"
  const CannotConnectCode := "cannot_connect"

  const UserStepId := "user"
  const ReauthStepId := "reauth_confirm"

  /** Submitted or stored configuration data. */
  type ConfigData = map<string, string>

  /** The outcome of the status request for a given URL and API key. */
  type StatusCall = (string, string) -> Outcome

  /** An exception escaping a step. */
  datatype FlowError =
    | CannotConnect                    // the integration's own HomeAssistantError subclass
    | Python(error: PyError)

  /** How `validate_input` ends: an error map, or an exception. */
  datatype Validation = Returned(errors: map<string, string>) | Raised(error: FlowError)

  /** What a step hands back to the flow manager. */
  datatype FlowResult =
    | ShowForm(stepId: string, errors: map<string, string>, placeholders: map<string, string>)
    | CreateEntry(data: ConfigData)
    | UpdateReloadAndAbort(dataUpdates: ConfigData, reason: string)
    | Abort(reason: string)
    | Failed(error: FlowError)

  /**
   * The success check on a decoded status body:
   * `"data" not in result or "bazarr_version" not in result.get("data", {})`
   * raises CannotConnect, and `in` on a scalar raises TypeError.
   */
  function CheckStatusBody(result: map<string, Json>): (v: Validation)
    ensures v == Returned(map[]) <==> "data" in result && Contains(result["data"], "bazarr_version") == Success(true)
    ensures "data" in result && result["data"].JObj? ==>
              (v == Returned(map[]) <==> "bazarr_version" in result["data"].fields)
    // a missing "data" raises CannotConnect without looking further
    ensures "data" !in result ==> v == Raised(CannotConnect)
    // `in` on a scalar raises TypeError; an unsuccessful search raises CannotConnect
    ensures "data" in result ==>
              (v == Raised(Python(TypeError)) <==> Contains(result["data"], "bazarr_version").Failure?)
    ensures "data" in result && Contains(result["data"], "bazarr_version") == Success(false) ==>
              v == Raised(CannotConnect)
    ensures v.Returned? ==> v.errors == map[]
  {
    if "data" !in result then Raised(CannotConnect)
    else
      match Contains(result["data"], "bazarr_version")
      case Failure(e) => Raised(Python(e))
      case Success(found) => if found then Returned(map[]) else Raised(CannotConnect)
  }

  /** The second argument `isinstance` receives: the class, or a value that is not a type. */
  datatype ClassInfo = ClientResponseErrorClass | NotAType(value: bool)

  /** `isinstance(err, c)`: a test against the class, or TypeError when `c` is not a type. */
  function IsInstance(e: Raised, c: ClassInfo): (r: Result<bool, PyError>)
    ensures r == Failure(TypeError) <==> c.NotAType?
    ensures c == ClientResponseErrorClass ==> r == Success(e.ResponseError?)
  {
    match c
    case ClientResponseErrorClass => Success(e.ResponseError?)
    case NotAType(_) => Failure(TypeError)
  }

  /** `err.status == 401`: AttributeError for an exception without a status. */
  function StatusIsUnauthorized(e: Raised): (r: Result<bool, PyError>)
    ensures r.Success? <==> HasStatus(e)
    ensures r.Failure? ==> r.error == AttributeError
    ensures r == Success(true) <==> e == ResponseError(Unauthorized)
  {
    if HasStatus(e) then Success(e.status == Unauthorized) else Failure(AttributeError)
  }

  /**
   * The class argument handed to `isinstance`, `aiohttp.ClientResponseError
   * and err.status == 401`: a class is truthy, so `and` evaluates and yields
   * its right operand, the comparison.
   */
  function ClassAndStatusOperand(e: Raised): (r: Result<ClassInfo, PyError>)
    // the status lookup succeeds exactly for an exception that has one
    ensures r.Success? <==> HasStatus(e)
    ensures r.Failure? ==> r.error == AttributeError
    // and then the operand is the bool `err.status == 401`, not a type
    ensures r.Success? ==> r.value == NotAType(e.status == Unauthorized)
    ensures r.Success? ==> r.value.NotAType?
  {
    match StatusIsUnauthorized(e)
    case Failure(x) => Failure(x)
    case Success(b) => Success(NotAType(b))
  }

  /**
   * The handler for caught errors as written: line 43's `isinstance` test,
   * then `invalid_api_key` or `cannot_connect`. Evaluating the test always
   * raises, so neither error map is reached.
   */
  function HandleCaughtAsWritten(e: Raised): (v: Validation)
    requires IsClientErrorOrTimeout(e)
    ensures v.Raised?
    ensures v.error == Python(if HasStatus(e) then TypeError else AttributeError)
  {
    match ClassAndStatusOperand(e)
    case Failure(x) => Raised(Python(x))
    case Success(c) =>
      match IsInstance(e, c)
      case Failure(x) => Raised(Python(x))
      case Success(isResponseError) =>
        if isResponseError then Returned(map[BaseKey := InvalidApiKey])
        else Returned(map[BaseKey := CannotConnectCode])
  }

  /**
   * The handler as evidently intended, `isinstance(err,
   * aiohttp.ClientResponseError) and err.status == 401`: 401 is an invalid
   * key, everything else cannot connect.
   */
  function HandleCaughtIntended(e: Raised): (v: Validation)
    requires IsClientErrorOrTimeout(e)
    ensures v.Returned? && v.errors.Keys == {BaseKey}
    ensures v.errors[BaseKey] == InvalidApiKey <==> e == ResponseError(Unauthorized)
    ensures v.errors[BaseKey] == CannotConnectCode <==> e != ResponseError(Unauthorized)
  {
    if IsInstance(e, ClientResponseErrorClass).value && StatusIsUnauthorized(e) == Success(true)
    then Returned(map[BaseKey := InvalidApiKey])
    else Returned(map[BaseKey := CannotConnectCode])
  }

  /** `validate_input` with the caught-error handler chosen by `intended`. */
  function ValidateWith(intended: bool, data: ConfigData, net: StatusCall): (v: Validation)
    ensures UrlKey !in data ==> v == Raised(Python(KeyError(UrlKey)))
    ensures UrlKey in data && ApiKeyKey !in data ==> v == Raised(Python(KeyError(ApiKeyKey)))
    ensures UrlKey in data && ApiKeyKey in data ==>
              var o := net(data[UrlKey], data[ApiKeyKey]);
              && (v == Returned(map[]) <==> ReadJson(o).Success? && CheckStatusBody(ReadJson(o).value) == Returned(map[]))
              && (ReadJson(o) == Failure(DecodeError) ==> v == Raised(Python(ValueError)))
              && (ReadJson(o).Success? ==> v == CheckStatusBody(ReadJson(o).value))
  {
    if UrlKey !in data then Raised(Python(KeyError(UrlKey)))
    else if ApiKeyKey !in data then Raised(Python(KeyError(ApiKeyKey)))
    else
      match ReadJson(net(data[UrlKey], data[ApiKeyKey]))
      case Success(result) => CheckStatusBody(result)
      case Failure(e) =>
        if !IsClientErrorOrTimeout(e) then Raised(Python(ValueError))
        else if intended then HandleCaughtIntended(e)
        else HandleCaughtAsWritten(e)
  }

  /** `validate_input` as written. */
  function ValidateInput(data: ConfigData, net: StatusCall): (v: Validation)
    // it never returns a non-empty error map
    ensures v.Returned? ==> v.errors == map[]
  {
    ValidateWith(false, data, net)
  }

  /** `validate_input` with line 43 corrected. */
  function ValidateInputCorrected(data: ConfigData, net: StatusCall): (v: Validation)
    ensures v.Returned? && v.errors != map[] ==> v.errors.Keys == {BaseKey}
  {
    ValidateWith(true, data, net)
  }

  /** As written, every caught request failure crashes the handler instead of yielding an error map. */
  lemma CaughtErrorsCrash(data: ConfigData, net: StatusCall)
    requires UrlKey in data && ApiKeyKey in data
    ensures var o := net(data[UrlKey], data[ApiKeyKey]);
            && (o.Response? && o.status >= FirstErrorStatus ==> ValidateInput(data, net) == Raised(Python(TypeError)))
            && (o.TimedOut? || o.ConnectionFailed? ==> ValidateInput(data, net) == Raised(Python(AttributeError)))
            // including a 2xx body of the wrong content type (ContentTypeError)
            && (ReadJson(o).Failure? && ReadJson(o).error.ResponseError? ==>
                  ValidateInput(data, net) == Raised(Python(TypeError)))
  {
  }

  /** With the correction, 401 and only 401 reads as an invalid key; timeouts and refusals cannot connect. */
  lemma CorrectedClassification(data: ConfigData, net: StatusCall)
    requires UrlKey in data && ApiKeyKey in data
    ensures var o := net(data[UrlKey], data[ApiKeyKey]);
            && (ValidateInputCorrected(data, net) == Returned(map[BaseKey := InvalidApiKey]) <==>
                  o.Response? && o.status == Unauthorized)
            && (o.TimedOut? || o.ConnectionFailed? ==>
                  ValidateInputCorrected(data, net) == Returned(map[BaseKey := CannotConnectCode]))
            && (o.Response? && o.status >= FirstErrorStatus && o.status != Unauthorized ==>
                  ValidateInputCorrected(data, net) == Returned(map[BaseKey := CannotConnectCode]))
  {
    var o := net(data[UrlKey], data[ApiKeyKey]);
    var v := ValidateInputCorrected(data, net);
    if v == Returned(map[BaseKey := InvalidApiKey]) {
      assert BaseKey in v.errors;
      assert ReadJson(o).Failure?;
      assert ReadJson(o).error == ResponseError(Unauthorized);
    }
  }

  /** Both versions agree whenever the request itself succeeds or the body does not decode. */
  lemma CorrectionOnlyTouchesCaughtErrors(data: ConfigData, net: StatusCall)
    requires UrlKey !in data || ApiKeyKey !in data ||
             !EndsInCaughtError(ReadJson(net(data[UrlKey], data[ApiKeyKey])))
    ensures ValidateInput(data, net) == ValidateInputCorrected(data, net)
  {
  }

  /** The request ended in an exception the handler catches. */
  predicate EndsInCaughtError(r: Result<map<string, Json>, Raised>)
  {
    r.Failure? && IsClientErrorOrTimeout(r.error)
  }

  /** The reauth form, with the link to the page where a new key is issued. */
  function ReauthForm(url: string, errors: map<string, string>): (r: FlowResult)
    ensures r.ShowForm? && r.stepId == ReauthStepId && r.errors == errors
    ensures r.placeholders.Keys == {"api_token_url"}
    ensures r.placeholders["api_token_url"] == url + "/settings/general"
  {
    ShowForm(ReauthStepId, errors, map["api_token_url" := url + "/settings/general"])
  }

  /** `async_step_reauth`: remember the stored URL and show the reauth form. */
  function ReauthStart(entryData: ConfigData): (r: FlowResult)
    ensures UrlKey in entryData ==> r == ReauthForm(entryData[UrlKey], map[])
    ensures UrlKey !in entryData ==> r == Failed(Python(KeyError(UrlKey)))
  {
    if UrlKey in entryData then ReauthForm(entryData[UrlKey], map[]) else Failed(Python(KeyError(UrlKey)))
  }

  /**
   * `async_step_reauth_confirm`, with `storedUrl` the URL remembered by
   * ReauthStart and `validate` standing for `validate_input`.
   */
  function ReauthConfirm(storedUrl: string, userInput: Option<ConfigData>,
                         validate: ConfigData -> Validation): (r: FlowResult)
    // no input, or an empty one, only shows the form
    ensures userInput.None? || userInput.value == map[] ==> r == ReauthForm(storedUrl, map[])
    // the stored URL replaces any submitted one before validation
    ensures userInput.Some? && userInput.value != map[] ==>
              var checked := validate(userInput.value[UrlKey := storedUrl]);
              && (r.UpdateReloadAndAbort? <==> checked == Returned(map[]) && ApiKeyKey in userInput.value)
              // an accepted submission without an API key fails on reading it
              && (checked == Returned(map[]) && ApiKeyKey !in userInput.value ==>
                    r == Failed(Python(KeyError(ApiKeyKey))))
              && (checked.Raised? ==> r == Failed(checked.error))
              && (checked.Returned? && checked.errors != map[] ==> r == ReauthForm(storedUrl, checked.errors))
    // a successful reauth changes the API key and nothing else
    ensures r.UpdateReloadAndAbort? ==>
              && r.dataUpdates == map[ApiKeyKey := userInput.value[ApiKeyKey]]
              && r.reason == "reauth_successful"
  {
    if userInput.None? || userInput.value == map[] then ReauthForm(storedUrl, map[])
    else
      var submitted := userInput.value[UrlKey := storedUrl];
      match validate(submitted)
      case Raised(e) => Failed(e)
      case Returned(errors) =>
        if errors != map[] then ReauthForm(storedUrl, errors)
        else if ApiKeyKey !in submitted then Failed(Python(KeyError(ApiKeyKey)))
        else UpdateReloadAndAbort(map[ApiKeyKey := submitted[ApiKeyKey]], "reauth_successful")
  }

  /** Two submissions that differ only in their URL lead to the same reauth result. */
  lemma ReauthIgnoresSubmittedUrl(storedUrl: string, a: ConfigData, b: ConfigData,
                                  validate: ConfigData -> Validation)
    requires a != map[] && b != map[]
    requires forall k :: k != UrlKey ==> (k in a <==> k in b) && (k in a ==> a[k] == b[k])
    ensures ReauthConfirm(storedUrl, Some(a), validate) == ReauthConfirm(storedUrl, Some(b), validate)
  {
    assert a[UrlKey := storedUrl] == b[UrlKey := storedUrl];
  }

  /** `async_update_reload_and_abort`'s merge of `data_updates` into the entry's data. */
  function ApplyDataUpdates(entryData: ConfigData, updates: ConfigData): (d: ConfigData)
    ensures d.Keys == entryData.Keys + updates.Keys
    ensures forall k :: k in updates ==> d[k] == updates[k]
    ensures forall k :: k in entryData && k !in updates ==> d[k] == entryData[k]
  {
    entryData + updates
  }

  /** A successful reauth leaves every entry value but the API key as it was, the URL included. */
  lemma ReauthChangesOnlyApiKey(entryData: ConfigData, storedUrl: string, userInput: Option<ConfigData>,
                                validate: ConfigData -> Validation)
    requires ReauthConfirm(storedUrl, userInput, validate).UpdateReloadAndAbort?
    ensures var d := ApplyDataUpdates(entryData, ReauthConfirm(storedUrl, userInput, validate).dataUpdates);
            && d.Keys == entryData.Keys + {ApiKeyKey}
            && d[ApiKeyKey] == userInput.value[ApiKeyKey]
            && forall k :: k in entryData && k != ApiKeyKey ==> d[k] == entryData[k]
  {
  }

  /** Some existing entry's data holds `url` under "url". */
  predicate UrlConfigured(existing: seq<ConfigData>, url: string)
  {
    exists k :: 0 <= k < |existing| && UrlKey in existing[k] && existing[k][UrlKey] == url
  }

  /**
   * `_async_abort_entries_match(match)` over the data of the existing
   * entries, with `match` the list `[{"url": url}]` as written or the dict
   * `{"url": url}` when `matchIsDict`. Each existing entry is checked with
   * `match.items()`, which a list does not have; a dict aborts the flow when
   * some entry holds all its items.
   */
  function AbortEntriesMatch(matchIsDict: bool, existing: seq<ConfigData>, url: string): (r: Option<FlowResult>)
    ensures !matchIsDict ==> (r.Some? <==> |existing| > 0)
    ensures !matchIsDict && r.Some? ==> r.value == Failed(Python(AttributeError))
    ensures matchIsDict ==> (r.Some? <==> UrlConfigured(existing, url))
    ensures matchIsDict && r.Some? ==> r.value == Abort("already_configured")
  {
    if !matchIsDict then
      if |existing| > 0 then Some(Failed(Python(AttributeError))) else None
    else if UrlConfigured(existing, url) then Some(Abort("already_configured"))
    else None
  }

  /**
   * `async_step_user`, with `existing` the data of the entries already set
   * up and `matchIsDict` choosing how the duplicate check is called.
   */
  function UserStepWith(matchIsDict: bool, userInput: Option<ConfigData>, existing: seq<ConfigData>,
                        validate: ConfigData -> Validation): (r: FlowResult)
    ensures userInput.None? ==> r == ShowForm(UserStepId, map[], map[])
    ensures userInput.Some? && UrlKey !in userInput.value ==> r == Failed(Python(KeyError(UrlKey)))
    ensures userInput.Some? && UrlKey in userInput.value ==>
              var d := userInput.value;
              var blocked := AbortEntriesMatch(matchIsDict, existing, d[UrlKey]);
              && (blocked.Some? ==> r == blocked.value)
              && (blocked.None? && validate(d).Raised? ==> r == Failed(validate(d).error))
              && (blocked.None? && validate(d).Returned? && validate(d).errors != map[] ==>
                    r == ShowForm(UserStepId, validate(d).errors, map[]))
    // an entry is created, with the submitted data unchanged, exactly when validation returns no errors
    ensures r.CreateEntry? <==>
              && userInput.Some? && UrlKey in userInput.value
              && AbortEntriesMatch(matchIsDict, existing, userInput.value[UrlKey]).None?
              && validate(userInput.value) == Returned(map[])
    ensures r.CreateEntry? ==> r.data == userInput.value
  {
    match userInput
    case None => ShowForm(UserStepId, map[], map[])
    case Some(data) =>
      if UrlKey !in data then Failed(Python(KeyError(UrlKey)))
      else
        match AbortEntriesMatch(matchIsDict, existing, data[UrlKey])
        case Some(stop) => stop
        case None =>
          match validate(data)
          case Raised(e) => Failed(e)
          case Returned(errors) =>
            if errors == map[] then CreateEntry(data) else ShowForm(UserStepId, errors, map[])
  }

  /** `async_step_user` as written, with a list passed to the duplicate check. */
  function UserStep(userInput: Option<ConfigData>, existing: seq<ConfigData>,
                    validate: ConfigData -> Validation): (r: FlowResult)
    // once any entry exists, every submission with a url crashes in the duplicate check
    ensures userInput.Some? && UrlKey in userInput.value && |existing| > 0 ==> r == Failed(Python(AttributeError))
    ensures r.CreateEntry? ==> userInput.Some? && existing == [] && validate(userInput.value) == Returned(map[])
  {
    UserStepWith(false, userInput, existing, validate)
  }

  /** `async_step_user` with the duplicate check given the dict `{"url": url}`. */
  function UserStepCorrected(userInput: Option<ConfigData>, existing: seq<ConfigData>,
                             validate: ConfigData -> Validation): (r: FlowResult)
    ensures userInput.Some? && UrlKey in userInput.value ==>
              (r == Abort("already_configured") <==> UrlConfigured(existing, userInput.value[UrlKey]))
  {
    UserStepWith(true, userInput, existing, validate)
  }

  /** As written, a second entry can never be added: the user step crashes before validating. */
  lemma UserStepCrashesWithExistingEntries(d: ConfigData, existing: seq<ConfigData>, net: StatusCall)
    requires UrlKey in d && existing != []
    ensures UserStep(Some(d), existing, e => ValidateInput(e, net)) == Failed(Python(AttributeError))
    ensures !UserStep(Some(d), existing, e => ValidateInput(e, net)).CreateEntry?
  {
  }

  /** With the dict, a URL already set up aborts, and a new one goes on to validation. */
  lemma CorrectedUserStepAbortsDuplicates(d: ConfigData, existing: seq<ConfigData>,
                                          validate: ConfigData -> Validation)
    requires UrlKey in d
    ensures UrlConfigured(existing, d[UrlKey]) ==>
              UserStepCorrected(Some(d), existing, validate) == Abort("already_configured")
    ensures !UrlConfigured(existing, d[UrlKey]) && validate(d) == Returned(map[]) ==>
              UserStepCorrected(Some(d), existing, validate) == CreateEntry(d)
  {
  }

  /** With validate_input as written, neither step ever shows a form carrying errors. */
  lemma NoErrorFormAsWritten(userInput: Option<ConfigData>, existing: seq<ConfigData>,
                             storedUrl: string, net: StatusCall)
    ensures var r := UserStep(userInput, existing, d => ValidateInput(d, net));
            r.ShowForm? ==> r.errors == map[]
    ensures var r := ReauthConfirm(storedUrl, userInput, d => ValidateInput(d, net));
            r.ShowForm? ==> r.errors == map[]
  {
  }

  /** With the correction, a rejected key re-shows the reauth form with "invalid_api_key". */
  lemma RejectedKeyShowsReauthError(storedUrl: string, input: ConfigData, net: StatusCall)
    requires ApiKeyKey in input
    requires net(storedUrl, input[ApiKeyKey]).Response? && net(storedUrl, input[ApiKeyKey]).status == Unauthorized
    ensures ReauthConfirm(storedUrl, Some(input), d => ValidateInputCorrected(d, net))
            == ReauthForm(storedUrl, map[BaseKey := InvalidApiKey])
  {
  }
}

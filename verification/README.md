# Bazarr integration for Home Assistant: refresh and credential policy

This project models the decision logic of the Bazarr custom integration for
Home Assistant in Dafny. Bazarr is a subtitle manager with an HTTP API. The
modelled logic is:

- **Coordinator** (`coordinator.py`). `ensure_tokens` classifies the outcome
  of one `/api/system/status` request. `_async_update_data` issues the
  badges, health and status requests in that order, stops at the first
  failure, and merges the three bodies into a four-key dictionary with
  per-key defaults.
- **Config flow** (`config_flow.py`). `validate_input` turns one status
  request into an error map or an exception. The reauth steps put the stored
  URL over the submitted one and update only the API key. The user step
  passes the submitted URL to the duplicate check and creates an entry only when validation
  returns no errors.
- **Entities** (`sensor.py`, `binary_sensor.py`). These are projections of the
  coordinator's data: the wanted-movies and wanted-episodes values, the
  health problem state and its attributes, unique ids and device records.

Each HTTP exchange is one `Http.Outcome` value. It is either a response
(status and body), a timeout or a connection failure. aiohttp's
`raise_for_status` raises from status 400 upward. A body either decodes to a
JSON object, has the wrong content type (aiohttp's `ContentTypeError`, which
is a `ClientResponseError` carrying the status), or fails to decode (a
`ValueError`). A refresh takes the three endpoint outcomes as a function
`Endpoint -> Outcome`. The config flow takes the status outcome as a function
of URL and API key, so the model can state which URL was checked.

Python semantics the code depends on are modelled explicitly in
`JsonValues`:

- truthiness (`bool(health_issues)`, `if self.coordinator.data:`);
- `dict.get` with a default;
- `in` applied to whatever `result["data"]` holds. For an object this is key
  membership, for an array element membership, and for a string a substring
  test. For other values it raises `TypeError`.

JSON `null` and Python's `None` are one value, `JNull`.

Modules: `Wrappers`, `JsonValues`, `Http`, `Coordinator`, `ConfigFlow`,
`Entities`, `Sensor`, `BinarySensor`, `EntityIds` (unique-id lemmas) and
`CrossChecks` (validation against refresh).

The model follows the code, also where it departs from the integration's
evident design:

- The version is read from the top level of the status body, not from
  `data`.
- A body that does not decode escapes a refresh as `ValueError`. It does not
  become `UpdateFailed`.
- A status body whose `data` is missing, or does not contain
  `bazarr_version` in Python's sense of `in`, makes validation raise
  `CannotConnect`. A scalar `data` (null, a boolean or a number) raises
  `TypeError`. Neither is caught, so no `cannot_connect` map comes back. A
  `data` list holding the string `bazarr_version`, or a `data` string
  containing it, passes.
- In `ensure_tokens`, a non-401 HTTP error is let through, and a refused
  connection propagates instead of becoming "not ready".
- Line 43 of `config_flow.py` crashes instead of returning
  `invalid_api_key` or `cannot_connect` (see Findings).
- The user step passes a list to the duplicate check, which fails as soon as
  any entry exists (see Findings).

## Model

| member | source | states |
|---|---|---|
| Coordinator.Fetch | custom_components/bazarr/coordinator.py:59-96 | The requests issued are a non-empty prefix of badges, health, status. A successful refresh issued all three. Every request but the last issued one succeeded. A snapshot comes back iff all three requests succeed. A failure is decided by the failing request alone: a ClientError or timeout becomes UpdateFailed with that cause, and a decode ValueError escapes unchanged. |
| Coordinator.FailureStopsTheRefresh | custom_components/bazarr/coordinator.py:64-87 | If request k is the first to fail, exactly the requests up to k are issued, no snapshot is produced, and the result is the one that failure dictates. |
| Coordinator.Abandon | custom_components/bazarr/coordinator.py:95-96 | An aiohttp ClientError or asyncio timeout (the caught tuple, `Http.IsClientErrorOrTimeout`) becomes UpdateFailed, carrying the original exception, and nothing else does. A JSON decode error escapes as ValueError. |
| Coordinator.FetchDefaults | custom_components/bazarr/coordinator.py:89-94 | A successful refresh has exactly the keys wanted_movies, wanted_episodes, health_issues and version. These are badges "movies" or 0, badges "episodes" or 0, health "data" passed through or [], and top-level status "bazarr_version" or "Unknown". |
| Coordinator.Merge | custom_components/bazarr/coordinator.py:89-93 | Each field is read from the top level of its body or defaulted: "movies" or 0, "episodes" or 0, health "data" passed through unchanged or [], and "bazarr_version" or "Unknown". |
| Coordinator.AsData | custom_components/bazarr/coordinator.py:89-94 | The coordinator's dictionary has exactly the four keys, each holding the matching snapshot field. |
| Coordinator.NestedVersionIsIgnored | custom_components/bazarr/coordinator.py:93 | A status body without a top-level bazarr_version yields version "Unknown", whatever its "data" holds. |
| Coordinator.MergeNested | custom_components/bazarr/coordinator.py:89-94 | Corrected merge: the counts and health issues are those of the code as written, and the version is the one nested under "data" when present. |
| Coordinator.NestedVersion | custom_components/bazarr/config_flow.py:40 | The version read where validation looks for it: data.bazarr_version when "data" is an object holding that key, else "Unknown". |
| Coordinator.NestedReadingFindsVersion | custom_components/bazarr/coordinator.py:93 | For the status body {"data": {"bazarr_version": v}}, the merge as written gives "Unknown" and the nested reading gives v. |
| Coordinator.EnsureTokens | custom_components/bazarr/coordinator.py:39-57 | HTTP 401 raises ConfigEntryAuthFailed, and only 401 does. A timeout raises ConfigEntryNotReady. A connection error propagates uncaught. Every other response returns normally, including non-401 statuses of 400 and above. |
| Coordinator.EnsureTokensIgnoresBody | custom_components/bazarr/coordinator.py:46-49 | The token check never reads the body: two responses with the same status give the same result. |
| CrossChecks.AcceptedStatusGivesUnknownVersion | custom_components/bazarr/coordinator.py:93 | A status body that validation accepts (the version nested under "data") and that has no top-level version refreshes to version "Unknown". |
| Http.RaiseForStatus | custom_components/bazarr/coordinator.py:49 | raise_for_status passes iff the response status is below 400. Otherwise it raises a ClientResponseError carrying that status. Timeouts and connection failures surface as their own exceptions. |
| Http.ReadJson | custom_components/bazarr/coordinator.py:70-71 | Reading a body succeeds iff the status is below 400 and the body is a JSON object, and then yields that object. A body of the wrong content type raises a ClientResponseError carrying the response status. Malformed JSON is a ValueError. A failing status raises before the body is read. |
| JsonValues.Contains | custom_components/bazarr/config_flow.py:40 | Python `in`: key membership for an object, element membership for an array, and a substring window for a string. TypeError exactly for null, booleans and numbers. |
| JsonValues.IsSubstringFindsWindow | custom_components/bazarr/config_flow.py:40 | The left-to-right substring scan succeeds exactly when some window of the string spells the item. |
| JsonValues.FalsyValues | custom_components/bazarr/binary_sensor.py:67 | A JSON value is falsy exactly when it is null, false, 0, "", [] or {}. |
| JsonValues.GetOr | custom_components/bazarr/coordinator.py:90-93 | dict.get(key, default) gives the stored value when the key is present and the default otherwise. |
| ConfigFlow.CheckStatusBody | custom_components/bazarr/config_flow.py:40-41 | Validation of a decoded status body passes (empty map) iff "data" is present and contains "bazarr_version" in Python's sense. For an object "data", that means it holds the key. A missing "data", or an unsuccessful search, raises CannotConnect. A scalar "data" raises TypeError. Neither exception is caught. |
| ConfigFlow.ValidateWith | custom_components/bazarr/config_flow.py:26-47 | A missing url or api_key raises KeyError. The empty map comes back iff the status request succeeds and its body passes the check. A decode error escapes as ValueError. |
| ConfigFlow.HandleCaughtAsWritten | custom_components/bazarr/config_flow.py:42-45 | Evaluating line 43 as written always raises: TypeError for an exception with a status, AttributeError for one without. The error maps of lines 44-45 are never reached. |
| ConfigFlow.ClassAndStatusOperand | custom_components/bazarr/config_flow.py:43 | `ClientResponseError and err.status == 401` yields its right operand, because a class is truthy. For an exception with a status that operand is the bool `status == 401`, never a type. For a timeout or connection error the status lookup raises AttributeError. |
| ConfigFlow.IsInstance | custom_components/bazarr/config_flow.py:43 | isinstance against the ClientResponseError class tests the exception's kind. With a non-type second argument it raises TypeError, and only then. |
| ConfigFlow.StatusIsUnauthorized | custom_components/bazarr/config_flow.py:43 | `err.status == 401` is defined iff the exception carries a status (else AttributeError). It is true exactly for a 401 ClientResponseError. |
| ConfigFlow.HandleCaughtIntended | custom_components/bazarr/config_flow.py:42-45 | As intended, the except branch returns {"base": "invalid_api_key"} iff the exception is an HTTP 401, and {"base": "cannot_connect"} for everything else. |
| ConfigFlow.ValidateInput | custom_components/bazarr/config_flow.py:26-47 | validate_input as written never returns a non-empty error map. |
| ConfigFlow.CaughtErrorsCrash | custom_components/bazarr/config_flow.py:42-45 | Any HTTP error status, and a 2xx body of the wrong content type, ends validation in TypeError. A timeout or connection failure ends it in AttributeError. |
| ConfigFlow.ValidateInputCorrected | custom_components/bazarr/config_flow.py:26-47 | With line 43 corrected, every non-empty error map has exactly the key "base". |
| ConfigFlow.CorrectedClassification | custom_components/bazarr/config_flow.py:42-45 | Corrected: invalid_api_key iff the status request answers 401. Timeouts, refused connections and other HTTP errors give cannot_connect. |
| ConfigFlow.CorrectionOnlyTouchesCaughtErrors | custom_components/bazarr/config_flow.py:42-45 | The correction changes nothing for requests that do not end in a caught exception. |
| ConfigFlow.ReauthStart | custom_components/bazarr/config_flow.py:55-60 | Reauth remembers the stored URL and shows the reauth form without errors. A stored entry without "url" raises KeyError. |
| ConfigFlow.ReauthForm | custom_components/bazarr/config_flow.py:79-84 | The reauth form is step "reauth_confirm" with the given errors. Its only placeholder, api_token_url, is the stored URL followed by "/settings/general". |
| ConfigFlow.ReauthConfirm | custom_components/bazarr/config_flow.py:62-84 | No input or an empty input shows the form without errors. Otherwise the stored URL replaces the submitted one before validation. The entry is updated iff validation returns no errors and the submission has an api_key, and the update touches only the API key. A submission accepted without an api_key raises KeyError("api_key"). Validation errors re-show the form with those errors, and an exception from validation escapes. |
| ConfigFlow.ReauthIgnoresSubmittedUrl | custom_components/bazarr/config_flow.py:68 | Two non-empty submissions differing only in their URL give the same reauth result. |
| ConfigFlow.ApplyDataUpdates | custom_components/bazarr/config_flow.py:72-77 | Applying the data updates overwrites the updated keys and keeps every other entry value. |
| ConfigFlow.ReauthChangesOnlyApiKey | custom_components/bazarr/config_flow.py:70-77 | After a successful reauth the entry's data differs from before only in api_key, which is the submitted key. The URL is kept. |
| ConfigFlow.UserStep | custom_components/bazarr/config_flow.py:86-113 | As written, the duplicate check receives a list. So once any entry exists, every submission with a url ends in AttributeError. An entry can be created only while none exists, and only when validation returns the empty map. |
| ConfigFlow.UserStepWith | custom_components/bazarr/config_flow.py:86-113 | No input shows the form without errors. A missing url raises KeyError. The duplicate check's abort or exception is returned. Otherwise an exception from validation escapes. Non-empty validation errors re-show the user form with those errors. An entry carrying the submitted data unchanged is created iff the check passes and validation returns the empty map. |
| ConfigFlow.AbortEntriesMatch | custom_components/bazarr/config_flow.py:93 | With the list as written, the check fails with AttributeError iff some entry exists. With a dict, it aborts with "already_configured" iff some existing entry has the submitted URL. |
| ConfigFlow.UserStepCrashesWithExistingEntries | custom_components/bazarr/config_flow.py:93 | With any entry already set up, a submission with a url ends in AttributeError, and no entry is created. |
| ConfigFlow.UserStepCorrected | custom_components/bazarr/config_flow.py:86-113 | Corrected duplicate check: the step aborts with "already_configured" iff an existing entry has the submitted URL. |
| ConfigFlow.CorrectedUserStepAbortsDuplicates | custom_components/bazarr/config_flow.py:93 | Corrected: a URL already set up aborts. A new URL that validation accepts creates the entry with the submitted data. |
| ConfigFlow.NoErrorFormAsWritten | custom_components/bazarr/config_flow.py:43-45 | With validate_input as written, neither the user step nor the reauth step ever shows a form with errors. |
| ConfigFlow.RejectedKeyShowsReauthError | custom_components/bazarr/config_flow.py:66-84 | With the corrected validator, a key rejected with 401 re-shows the reauth form with {"base": "invalid_api_key"}. |
| Entities.BaseDeviceInfo | custom_components/bazarr/binary_sensor.py:52-59 | The device record has identifiers {(domain, entry id)}, name and manufacturer "Bazarr", and the entry's url as configuration URL. An entry without url raises KeyError. |
| Sensor.NativeValue | custom_components/bazarr/sensor.py:73-78 | Without data (None or an empty dict, `Entities.HasData` false) the value is None. With data it is the stored value for the key unchanged, or None when the key is missing. |
| Sensor.WantedMoviesValue | custom_components/bazarr/sensor.py:73-78 | The wanted-movies value is None without data. With data it is data["wanted_movies"] unchanged, or None when the key is missing. |
| Sensor.WantedEpisodesValue | custom_components/bazarr/sensor.py:96-101 | The wanted-episodes value is None without data. With data it is data["wanted_episodes"] unchanged, or None when the key is missing. |
| Sensor.WantedMoviesUniqueId | custom_components/bazarr/sensor.py:71 | The id is the entry id followed by "_wanted_movies". |
| Sensor.WantedEpisodesUniqueId | custom_components/bazarr/sensor.py:94 | The id is the entry id followed by "_wanted_episodes". |
| Sensor.SensorsReportSnapshot | custom_components/bazarr/sensor.py:73-101 | On refresh data, the movies and episodes sensors report wanted_movies and wanted_episodes unchanged. Before any data, both report None. |
| Sensor.SensorDeviceInfo | custom_components/bazarr/sensor.py:46-55 | The record is built iff the entry has a url and the data holds "bazarr_version". It is then the base record (identifiers, name, manufacturer, configuration URL) with that value as sw_version. A missing url raises KeyError("url") first. Without data the lookup raises TypeError, and without the key it raises KeyError. |
| Sensor.SensorDeviceInfoNeverBuilds | custom_components/bazarr/sensor.py:54 | Neither before the first refresh nor on any refresh's data can the sensors' device record be built. |
| Sensor.SensorDeviceInfoCorrected | custom_components/bazarr/sensor.py:46-55 | Corrected: reading "version", the record is built iff the entry has a url and the data holds "version". |
| Sensor.CorrectedDeviceInfoBuilds | custom_components/bazarr/sensor.py:54 | Corrected: on any refresh's data the record is built, and its sw_version is the snapshot's version. |
| EntityIds.UniqueIdsIdentifyEntry | custom_components/bazarr/sensor.py:71-94 | Each unique id (entry id plus "_wanted_movies" at sensor.py:71, "_wanted_episodes" at sensor.py:94, or "_health_issues" at binary_sensor.py:50) determines the entry id. |
| EntityIds.UniqueIdsOfDifferentKindsDiffer | custom_components/bazarr/sensor.py:94 | Unique ids of different entity kinds never coincide, whatever the entry ids. |
| EntityIds.SuffixIsInjective | custom_components/bazarr/binary_sensor.py:50 | Appending the same suffix to two entry ids gives equal strings only for equal ids. |
| BinarySensor.HealthIssues | custom_components/bazarr/binary_sensor.py:66-74 | `data.get("health_issues", [])`: the stored issues value unchanged when the key is present, and the empty list when it is missing. |
| BinarySensor.IsOn | custom_components/bazarr/binary_sensor.py:62-68 | None without data. With data: on exactly when a health_issues list is non-empty, and off when the key is missing. |
| BinarySensor.ExtraStateAttributes | custom_components/bazarr/binary_sensor.py:70-76 | None without data. Otherwise exactly {"issues": health_issues}, passed through unchanged, or [] when the key is missing. |
| BinarySensor.StateMatchesAttributes | custom_components/bazarr/binary_sensor.py:62-76 | The state and the attributes are absent together. When present, the state is on iff the "issues" attribute is truthy. |
| BinarySensor.HealthReportsSnapshot | custom_components/bazarr/binary_sensor.py:65-75 | On refresh data the sensor is on iff the snapshot's health issues are truthy, and its attributes carry them unchanged. |
| BinarySensor.HealthDeviceInfo | custom_components/bazarr/binary_sensor.py:52-59 | The record has identifiers {(domain, entry id)}, name and manufacturer "Bazarr", the entry's url as configuration URL, and no version. It is built iff the entry has a url, and otherwise raises KeyError("url"). |
| BinarySensor.HealthIssuesUniqueId | custom_components/bazarr/binary_sensor.py:50 | The id is the entry id followed by "_health_issues". |

## Left out

- Polling cadence (the 5-minute interval), listener notification and keeping the last data across failed refreshes are Home Assistant's `DataUpdateCoordinator` behaviour. That code is not part of this model, so only a single refresh is modelled.
- Client sessions, request headers, URL construction and the 10-second client timeouts are not modelled. Each request is collapsed into its outcome.
- async/await and scheduling are not modelled: each step is a pure function.
- `httpcore.TimeoutException` in `ensure_tokens` is not modelled separately. aiohttp never raises it, so every timeout is an `asyncio.TimeoutError` there.
- The entry title built with `yarl` (`Bazarr (<host>)`) and the voluptuous form schemas are not modelled, because they belong to foreign libraries. A created entry carries its data only.
- Entity metadata is not modelled: icons, translation keys, device and state classes, and entity category are static UI constants.
- `const.py` is not part of this model. The integration's `DOMAIN` is a parameter of the device-record functions.
- Response bodies that decode to a JSON value other than an object are not modelled, and neither are floating-point JSON numbers.
- Platform setup (`async_setup_entry`) is not modelled. It only instantiates the entities.
- The unused `Unauthenticated` exception class is not modelled.
- `_async_abort_entries_match` belongs to Home Assistant and is modelled from its documented behaviour. For each existing, non-ignored entry it calls `match.items()`, and a dict argument aborts the flow when an entry holds all its items. Entry options, which the helper also searches, are not modelled, because this integration stores none.

## Findings

| source | as written | input that shows it | evidently intended | confidence | as-written member | corrected member |
|---|---|---|---|---|---|---|
| custom_components/bazarr/config_flow.py:43 | `isinstance(err, aiohttp.ClientResponseError and err.status == 401)` passes a bool, or reads a missing `status`, as the class argument | status request answering HTTP 401 raises TypeError, and a timeout raises AttributeError, instead of returning an error map | `isinstance(err, aiohttp.ClientResponseError) and err.status == 401` → invalid_api_key, else cannot_connect | high, not executed | ConfigFlow.CaughtErrorsCrash | ConfigFlow.CorrectedClassification |
| custom_components/bazarr/coordinator.py:93 | `status_data.get("bazarr_version", "Unknown")` reads the top level | status body `{"data": {"bazarr_version": "1.2.3"}}`, the shape config_flow.py:40 requires, gives version "Unknown" | read `status_data["data"]["bazarr_version"]` | medium, not executed | Coordinator.NestedVersionIsIgnored | Coordinator.MergeNested |
| custom_components/bazarr/config_flow.py:93 | `self._async_abort_entries_match([{CONF_URL: user_input[CONF_URL]}])` passes a list where Home Assistant's helper expects a dict | any user submission while an entry exists raises AttributeError ('list' object has no attribute 'items'), so a second instance can never be added | pass the dict `{CONF_URL: user_input[CONF_URL]}`, which aborts only on a duplicate URL | medium (rests on the helper's behaviour, which is outside this model), not executed | ConfigFlow.UserStepCrashesWithExistingEntries | ConfigFlow.CorrectedUserStepAbortsDuplicates |
| custom_components/bazarr/sensor.py:54 | `self.coordinator.data["bazarr_version"]` | any refresh data (its key is "version") raises KeyError, and no data raises TypeError | `self.coordinator.data["version"]` | high, not executed | Sensor.SensorDeviceInfoNeverBuilds | Sensor.CorrectedDeviceInfoBuilds |

The flow steps `ConfigFlow.UserStepWith` and `ConfigFlow.ReauthConfirm` are
stated for any validator. The model applies them both to `ValidateInput`, the
code as written, and to `ValidateInputCorrected`
(`ConfigFlow.NoErrorFormAsWritten`,
`ConfigFlow.RejectedKeyShowsReauthError`). `UserStepWith` also takes the form
of the duplicate check: `UserStep` is the code as written, and
`UserStepCorrected` is the corrected call. The refresh and the entities use
the code as written. The corrected readings sit beside them for comparison.

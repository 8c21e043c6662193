/**
 * The refresh policy of `BazarrDataUpdateCoordinator`: the startup token
 * check and one refresh, which issues badges, health and status requests in
 * that order and merges the three bodies into the coordinator's data.
 */
module Coordinator {
  import opened Wrappers
  import opened JsonValues
  import opened Http

  /** Keys of the dictionary one refresh returns. */
  const WantedMoviesKey := "wanted_movies"
  const WantedEpisodesKey := "wanted_episodes"
  const HealthIssuesKey := "health_issues"
  const VersionKey := "version"

  /** Placeholder version when the status body lacks one. */
  const UnknownVersion := JStr("Unknown")

  /** The merged result of one successful refresh. Values are passed through as decoded. */
  datatype Snapshot = Snapshot(
    wantedMovies: Json,
    wantedEpisodes: Json,
    healthIssues: Json,
    version: Json)

  /** The three endpoints a refresh calls. */
  datatype Endpoint = Badges | Health | Status

  /** The order in which a refresh issues its requests. */
  const CallOrder: seq<Endpoint> := [Badges, Health, Status]

  /** How one refresh ends. */
  datatype FetchResult =
    | Fetched(snapshot: Snapshot)
    | UpdateFailed(cause: Raised)      // a caught ClientError or timeout, re-raised as UpdateFailed
    | Escaped(error: PyError)          // an exception outside the caught set, propagated unchanged

  /** A refresh's result together with the requests it actually issued, in order. */
  datatype Refresh = Refresh(result: FetchResult, issued: seq<Endpoint>)

  /** How the startup token check ends. */
  datatype TokenCheck =
    | TokensAccepted                   // returns normally
    | AuthFailed                       // raises ConfigEntryAuthFailed
    | NotReady                         // raises ConfigEntryNotReady
    | Propagated(cause: Raised)        // the aiohttp exception escapes uncaught

  /** The coordinator's data: the dictionary `_async_update_data` returns. */
  function AsData(s: Snapshot): (d: map<string, Json>)
    ensures d.Keys == {WantedMoviesKey, WantedEpisodesKey, HealthIssuesKey, VersionKey}
    ensures d[WantedMoviesKey] == s.wantedMovies && d[WantedEpisodesKey] == s.wantedEpisodes
    ensures d[HealthIssuesKey] == s.healthIssues && d[VersionKey] == s.version
  {
    map[WantedMoviesKey := s.wantedMovies,
        WantedEpisodesKey := s.wantedEpisodes,
        HealthIssuesKey := s.healthIssues,
        VersionKey := s.version]
  }

  /** The defaulting merge of the three decoded bodies. */
  function Merge(badges: map<string, Json>, health: map<string, Json>, status: map<string, Json>): (s: Snapshot)
    ensures "movies" in badges ==> s.wantedMovies == badges["movies"]
    ensures "movies" !in badges ==> s.wantedMovies == JInt(0)
    ensures "episodes" in badges ==> s.wantedEpisodes == badges["episodes"]
    ensures "episodes" !in badges ==> s.wantedEpisodes == JInt(0)
    // the health issues are passed through unchanged
    ensures "data" in health ==> s.healthIssues == health["data"]
    ensures "data" !in health ==> s.healthIssues == JArr([])
    // the version is looked up at the top level only
    ensures "bazarr_version" in status ==> s.version == status["bazarr_version"]
    ensures "bazarr_version" !in status ==> s.version == UnknownVersion
  {
    Snapshot(
      GetOr(badges, "movies", JInt(0)),
      GetOr(badges, "episodes", JInt(0)),
      GetOr(health, "data", JArr([])),
      GetOr(status, "bazarr_version", UnknownVersion))
  }

  /** A caught exception becomes UpdateFailed; a decoding ValueError escapes. */
  function Abandon(e: Raised): (r: FetchResult)
    ensures r.UpdateFailed? <==> IsClientErrorOrTimeout(e)
    ensures r.UpdateFailed? ==> r.cause == e
    ensures !IsClientErrorOrTimeout(e) ==> r == Escaped(ValueError)
  {
    if IsClientErrorOrTimeout(e) then UpdateFailed(e) else Escaped(ValueError)
  }

  /** `_async_update_data`, for the outcomes `net` gives each endpoint. */
  function Fetch(net: Endpoint -> Outcome): (r: Refresh)
    // the requests issued are a non-empty prefix of badges, health, status
    ensures 0 < |r.issued| <= |CallOrder| && r.issued == CallOrder[..|r.issued|]
    // every request but the last issued one succeeded
    ensures forall k :: 0 <= k < |r.issued| - 1 ==> ReadJson(net(r.issued[k])).Success?
    // a success issued all three requests
    ensures r.result.Fetched? ==> r.issued == CallOrder
    // all or nothing
    ensures r.result.Fetched? <==>
              ReadJson(net(Badges)).Success? && ReadJson(net(Health)).Success? && ReadJson(net(Status)).Success?
    // a failure stops at the failing request and is decided by it alone
    ensures !r.result.Fetched? ==>
              var last := r.issued[|r.issued| - 1];
              ReadJson(net(last)).Failure? && r.result == Abandon(ReadJson(net(last)).error)
  {
    match ReadJson(net(Badges))
    case Failure(e) => Refresh(Abandon(e), [Badges])
    case Success(badges) =>
      match ReadJson(net(Health))
      case Failure(e) => Refresh(Abandon(e), [Badges, Health])
      case Success(health) =>
        match ReadJson(net(Status))
        case Failure(e) => Refresh(Abandon(e), CallOrder)
        case Success(status) => Refresh(Fetched(Merge(badges, health, status)), CallOrder)
  }

  /**
   * A successful refresh holds exactly the four keys, each read from the top
   * level of its body or defaulted.
   */
  lemma FetchDefaults(net: Endpoint -> Outcome)
    requires Fetch(net).result.Fetched?
    ensures
      var d := AsData(Fetch(net).result.snapshot);
      var badges := net(Badges).body.obj;
      var health := net(Health).body.obj;
      var status := net(Status).body.obj;
      && d.Keys == {"wanted_movies", "wanted_episodes", "health_issues", "version"}
      && d["wanted_movies"] == (if "movies" in badges then badges["movies"] else JInt(0))
      && d["wanted_episodes"] == (if "episodes" in badges then badges["episodes"] else JInt(0))
      && d["health_issues"] == (if "data" in health then health["data"] else JArr([]))
      && d["version"] == (if "bazarr_version" in status then status["bazarr_version"] else JStr("Unknown"))
  {
  }

  /**
   * The version is read only at the top level: a status body that carries it
   * nested under "data", and not at the top, gives "Unknown".
   */
  lemma NestedVersionIsIgnored(net: Endpoint -> Outcome)
    requires Fetch(net).result.Fetched?
    requires "bazarr_version" !in net(Status).body.obj
    ensures Fetch(net).result.snapshot.version == JStr("Unknown")
  {
  }

  /**
   * The version as the status endpoint reports it, nested under "data"; the
   * evidently intended reading of the status body, for comparison with Merge.
   */
  function NestedVersion(status: map<string, Json>): (v: Json)
    ensures ("data" in status && status["data"].JObj? && "bazarr_version" in status["data"].fields) ==>
              v == status["data"].fields["bazarr_version"]
    ensures !("data" in status && status["data"].JObj? && "bazarr_version" in status["data"].fields) ==>
              v == UnknownVersion
  {
    match GetOr(status, "data", JNull)
    case JObj(fields) => GetOr(fields, "bazarr_version", UnknownVersion)
    case _ => UnknownVersion
  }

  /** Merge with the version read where the status endpoint puts it. */
  function MergeNested(badges: map<string, Json>, health: map<string, Json>, status: map<string, Json>): (s: Snapshot)
    ensures s.version == NestedVersion(status)
    ensures s.wantedMovies == Merge(badges, health, status).wantedMovies
    ensures s.wantedEpisodes == Merge(badges, health, status).wantedEpisodes
    ensures s.healthIssues == Merge(badges, health, status).healthIssues
  {
    Merge(badges, health, status).(version := NestedVersion(status))
  }

  /** For a status body of the shape {"data": {"bazarr_version": v}}, only the nested reading finds v. */
  lemma NestedReadingFindsVersion(badges: map<string, Json>, health: map<string, Json>, v: Json)
    ensures Merge(badges, health, map["data" := JObj(map["bazarr_version" := v])]).version == JStr("Unknown")
    ensures MergeNested(badges, health, map["data" := JObj(map["bazarr_version" := v])]).version == v
  {
  }

  /** A failing request leaves no snapshot and no later request is issued. */
  lemma FailureStopsTheRefresh(net: Endpoint -> Outcome, k: nat)
    requires k < |CallOrder|
    requires ReadJson(net(CallOrder[k])).Failure?
    requires forall j :: 0 <= j < k ==> ReadJson(net(CallOrder[j])).Success?
    ensures !Fetch(net).result.Fetched?
    ensures Fetch(net).issued == CallOrder[..k + 1]
    ensures Fetch(net).result == Abandon(ReadJson(net(CallOrder[k])).error)
  {
  }

  /** `ensure_tokens`, for the outcome of its status request. The body is never read. */
  function EnsureTokens(status: Outcome): (r: TokenCheck)
    ensures r == AuthFailed <==> status.Response? && status.status == Unauthorized
    ensures r == NotReady <==> status.TimedOut?
    ensures r.Propagated? <==> status.ConnectionFailed?
    ensures r.Propagated? ==> r.cause == ConnectionError
    // any other HTTP status, error or not, is let through
    ensures r == TokensAccepted <==> status.Response? && status.status != Unauthorized
  {
    match RaiseForStatus(status)
    case None => TokensAccepted
    case Some(ResponseError(code)) => if code == Unauthorized then AuthFailed else TokensAccepted
    case Some(Timeout) => NotReady
    case Some(e) => Propagated(e)
  }

  /** The token check depends on the status code only, never on the body. */
  lemma EnsureTokensIgnoresBody(code: int, b1: Body, b2: Body)
    ensures EnsureTokens(Response(code, b1)) == EnsureTokens(Response(code, b2))
  {
  }
}

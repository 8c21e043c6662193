/** Properties that relate the config flow's validation to what a refresh stores. */
module CrossChecks {
  import opened JsonValues
  import opened Http
  import opened Coordinator
  import ConfigFlow

  /**
   * A status body that validation accepts with its version nested in a
   * "data" object, and none at the top level, refreshes to version "Unknown".
   */
  lemma AcceptedStatusGivesUnknownVersion(net: Endpoint -> Outcome)
    requires Fetch(net).result.Fetched?
    requires ConfigFlow.CheckStatusBody(net(Status).body.obj) == ConfigFlow.Returned(map[])
    requires "bazarr_version" !in net(Status).body.obj
    ensures "data" in net(Status).body.obj
    ensures Fetch(net).result.snapshot.version == JStr("Unknown")
  {
  }
}

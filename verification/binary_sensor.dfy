/** The health-issues problem sensor. */
module BinarySensor {
  import opened Wrappers
  import opened JsonValues
  import opened Entities
  import Coordinator
  import ConfigFlow

  const HealthSuffix := "_health_issues"

  /** `f"{entry.entry_id}_health_issues"`. */
  function HealthIssuesUniqueId(entry: Entry): (id: string)
    ensures |id| == |entry.entryId| + |HealthSuffix|
    ensures id[..|entry.entryId|] == entry.entryId && id[|entry.entryId|..] == HealthSuffix
  {
    entry.entryId + HealthSuffix
  }

  /** `data.get("health_issues", [])`: the stored issues, or no issues when the key is missing. */
  function HealthIssues(d: map<string, Json>): (r: Json)
    ensures Coordinator.HealthIssuesKey in d ==> r == d[Coordinator.HealthIssuesKey]
    ensures Coordinator.HealthIssuesKey !in d ==> r == JArr([])
  {
    GetOr(d, Coordinator.HealthIssuesKey, JArr([]))
  }

  /** `is_on`: whether there are health issues, None without data. */
  function IsOn(data: CoordinatorData): (on: Option<bool>)
    ensures !HasData(data) ==> on.None?
    ensures HasData(data) ==> on.Some?
    // for a list of issues: on exactly when the list is non-empty
    ensures HasData(data) && Coordinator.HealthIssuesKey in data.value && data.value[Coordinator.HealthIssuesKey].JArr? ==>
              (on.value <==> |data.value[Coordinator.HealthIssuesKey].items| > 0)
    // a missing key counts as no issues
    ensures HasData(data) && Coordinator.HealthIssuesKey !in data.value ==> on == Some(false)
  {
    if HasData(data) then Some(Truthy(HealthIssues(data.value))) else None
  }

  /** `extra_state_attributes`: the issues list under "issues", None without data. */
  function ExtraStateAttributes(data: CoordinatorData): (a: Option<map<string, Json>>)
    ensures a.None? <==> !HasData(data)
    ensures a.Some? ==> a.value.Keys == {"issues"}
    ensures a.Some? && Coordinator.HealthIssuesKey in data.value ==>
              a.value["issues"] == data.value[Coordinator.HealthIssuesKey]
    ensures a.Some? && Coordinator.HealthIssuesKey !in data.value ==> a.value["issues"] == JArr([])
  {
    if HasData(data) then Some(map["issues" := HealthIssues(data.value)]) else None
  }

  /** The sensor is on exactly when the "issues" attribute is truthy, and both are absent together. */
  lemma StateMatchesAttributes(data: CoordinatorData)
    ensures IsOn(data).None? <==> ExtraStateAttributes(data).None?
    ensures IsOn(data).Some? ==> (IsOn(data).value <==> Truthy(ExtraStateAttributes(data).value["issues"]))
  {
  }

  /** Read from a refresh's data: on exactly when the health endpoint's "data" is truthy. */
  lemma HealthReportsSnapshot(s: Coordinator.Snapshot)
    ensures IsOn(Some(Coordinator.AsData(s))) == Some(Truthy(s.healthIssues))
    ensures ExtraStateAttributes(Some(Coordinator.AsData(s))) == Some(map["issues" := s.healthIssues])
  {
  }

  /** `device_info` of the binary sensor, which carries no version. */
  function HealthDeviceInfo(domain: string, entry: Entry): (r: Result<DeviceInfo, PyError>)
    ensures r.Success? <==> ConfigFlow.UrlKey in entry.data
    ensures r.Failure? ==> r.error == KeyError(ConfigFlow.UrlKey)
    ensures r.Success? ==> DescribesEntry(domain, entry, r.value) && r.value.swVersion.None?
  {
    BaseDeviceInfo(domain, entry)
  }
}

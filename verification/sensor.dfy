/** The wanted-movies and wanted-episodes sensors. */
module Sensor {
  import opened Wrappers
  import opened JsonValues
  import opened Entities
  import Coordinator
  import ConfigFlow

  const MoviesSuffix := "_wanted_movies"
  const EpisodesSuffix := "_wanted_episodes"

  /** `f"{entry.entry_id}_wanted_movies"`. */
  function WantedMoviesUniqueId(entry: Entry): (id: string)
    ensures |id| == |entry.entryId| + |MoviesSuffix|
    ensures id[..|entry.entryId|] == entry.entryId && id[|entry.entryId|..] == MoviesSuffix
  {
    entry.entryId + MoviesSuffix
  }

  /** `f"{entry.entry_id}_wanted_episodes"`. */
  function WantedEpisodesUniqueId(entry: Entry): (id: string)
    ensures |id| == |entry.entryId| + |EpisodesSuffix|
    ensures id[..|entry.entryId|] == entry.entryId && id[|entry.entryId|..] == EpisodesSuffix
  {
    entry.entryId + EpisodesSuffix
  }

  /**
   * `native_value`: `data.get(key)` when there is data, else None. JSON
   * null and Python's None are the same value, so both are `JNull` here.
   */
  function NativeValue(data: CoordinatorData, key: string): (v: Json)
    ensures !HasData(data) ==> v == JNull
    ensures HasData(data) && key in data.value ==> v == data.value[key]
    ensures HasData(data) && key !in data.value ==> v == JNull
  {
    if HasData(data) then GetOr(data.value, key, JNull) else JNull
  }

  /** The wanted-movies sensor's `native_value`. */
  function WantedMoviesValue(data: CoordinatorData): (v: Json)
    ensures !HasData(data) ==> v == JNull
    ensures HasData(data) && Coordinator.WantedMoviesKey in data.value ==> v == data.value[Coordinator.WantedMoviesKey]
    ensures HasData(data) && Coordinator.WantedMoviesKey !in data.value ==> v == JNull
  {
    NativeValue(data, Coordinator.WantedMoviesKey)
  }

  /** The wanted-episodes sensor's `native_value`. */
  function WantedEpisodesValue(data: CoordinatorData): (v: Json)
    ensures !HasData(data) ==> v == JNull
    ensures HasData(data) && Coordinator.WantedEpisodesKey in data.value ==> v == data.value[Coordinator.WantedEpisodesKey]
    ensures HasData(data) && Coordinator.WantedEpisodesKey !in data.value ==> v == JNull
  {
    NativeValue(data, Coordinator.WantedEpisodesKey)
  }

  /** Read from a refresh's data, each sensor reports its count unchanged; before any data, None. */
  lemma SensorsReportSnapshot(s: Coordinator.Snapshot)
    ensures WantedMoviesValue(Some(Coordinator.AsData(s))) == s.wantedMovies
    ensures WantedEpisodesValue(Some(Coordinator.AsData(s))) == s.wantedEpisodes
    ensures WantedMoviesValue(None) == JNull && WantedEpisodesValue(None) == JNull
  {
  }

  /**
   * `device_info`: the record is built key by key, so `configuration_url`
   * is read before `sw_version`, which indexes `data["bazarr_version"]`.
   * Indexing None raises TypeError; a missing key raises KeyError.
   */
  function SensorDeviceInfo(domain: string, entry: Entry, data: CoordinatorData): (r: Result<DeviceInfo, PyError>)
    ensures r.Success? <==> ConfigFlow.UrlKey in entry.data && data.Some? && "bazarr_version" in data.value
    ensures r.Success? ==>
              r.value == BaseDeviceInfo(domain, entry).value.(swVersion := Some(data.value["bazarr_version"]))
    // configuration_url is read first
    ensures ConfigFlow.UrlKey !in entry.data ==> r == Failure(KeyError(ConfigFlow.UrlKey))
    ensures ConfigFlow.UrlKey in entry.data && data.None? ==> r == Failure(TypeError)
    ensures ConfigFlow.UrlKey in entry.data && data.Some? && "bazarr_version" !in data.value ==>
              r == Failure(KeyError("bazarr_version"))
  {
    match BaseDeviceInfo(domain, entry)
    case Failure(e) => Failure(e)
    case Success(info) =>
      match data
      case None => Failure(TypeError)
      case Some(d) =>
        if "bazarr_version" in d then Success(info.(swVersion := Some(d["bazarr_version"])))
        else Failure(KeyError("bazarr_version"))
  }

  /** The coordinator never stores "bazarr_version", so the sensors' device record can never be built. */
  lemma SensorDeviceInfoNeverBuilds(domain: string, entry: Entry, s: Coordinator.Snapshot)
    ensures SensorDeviceInfo(domain, entry, None).Failure?
    ensures SensorDeviceInfo(domain, entry, Some(Coordinator.AsData(s))).Failure?
  {
  }

  /** `device_info` reading the key the coordinator does store. */
  function SensorDeviceInfoCorrected(domain: string, entry: Entry, data: CoordinatorData): (r: Result<DeviceInfo, PyError>)
    ensures r.Success? <==> ConfigFlow.UrlKey in entry.data && data.Some? && Coordinator.VersionKey in data.value
    ensures r.Success? ==>
              r.value == BaseDeviceInfo(domain, entry).value.(swVersion := Some(data.value[Coordinator.VersionKey]))
  {
    match BaseDeviceInfo(domain, entry)
    case Failure(e) => Failure(e)
    case Success(info) =>
      match data
      case None => Failure(TypeError)
      case Some(d) =>
        if Coordinator.VersionKey in d then Success(info.(swVersion := Some(d[Coordinator.VersionKey])))
        else Failure(KeyError(Coordinator.VersionKey))
  }

  /** With the corrected key, a refresh's data always yields a device record carrying its version. */
  lemma CorrectedDeviceInfoBuilds(domain: string, entry: Entry, s: Coordinator.Snapshot)
    requires ConfigFlow.UrlKey in entry.data
    ensures SensorDeviceInfoCorrected(domain, entry, Some(Coordinator.AsData(s))).Success?
    ensures SensorDeviceInfoCorrected(domain, entry, Some(Coordinator.AsData(s))).value.swVersion == Some(s.version)
  {
  }
}

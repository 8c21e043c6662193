/**
 * What the coordinator entities share: the config entry they belong to,
 * the coordinator data they read and the device record they report.
 */
module Entities {
  import opened Wrappers
  import opened JsonValues
  import ConfigFlow

  /** A config entry: its id and its stored data ("url", "api_key"). */
  datatype Entry = Entry(entryId: string, data: map<string, string>)

  /** `coordinator.data`: None before the first successful refresh. */
  type CoordinatorData = Option<map<string, Json>>

  /** The device record an entity reports. */
  datatype DeviceInfo = DeviceInfo(
    identifiers: set<(string, string)>,
    name: string,
    manufacturer: string,
    configurationUrl: string,
    swVersion: Option<Json>)

  /** `if self.coordinator.data:` — present and not an empty dict. */
  predicate HasData(data: CoordinatorData)
  {
    data.Some? && data.value != map[]
  }

  /**
   * The fields both entities' records share: the device is identified by the
   * entry, named and made by "Bazarr", and links to the entry's URL.
   */
  predicate DescribesEntry(domain: string, entry: Entry, info: DeviceInfo)
  {
    && info.identifiers == {(domain, entry.entryId)}
    && info.name == "Bazarr" && info.manufacturer == "Bazarr"
    && ConfigFlow.UrlKey in entry.data && info.configurationUrl == entry.data[ConfigFlow.UrlKey]
  }

  /** The common part of both entities' device records; `self._entry.data['url']` may raise KeyError. */
  function BaseDeviceInfo(domain: string, entry: Entry): (r: Result<DeviceInfo, PyError>)
    ensures r.Success? <==> ConfigFlow.UrlKey in entry.data
    ensures r.Failure? ==> r.error == KeyError(ConfigFlow.UrlKey)
    ensures r.Success? ==> DescribesEntry(domain, entry, r.value) && r.value.swVersion.None?
  {
    if ConfigFlow.UrlKey in entry.data
    then Success(DeviceInfo({(domain, entry.entryId)}, "Bazarr", "Bazarr", entry.data[ConfigFlow.UrlKey], None))
    else Failure(KeyError(ConfigFlow.UrlKey))
  }
}

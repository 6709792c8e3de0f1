/**
 * The device profile registry: a fixed table from a friendly device name to an
 * optional key into the browser engine's own catalog of emulation descriptors.
 * The catalog belongs to the browser engine, so it is a parameter here and its
 * descriptors are of an arbitrary type D.
 */
module Devices {
  import opened Wrappers

  /** The error run_test raises when a device name is not in the registry. */
  datatype Error = KeyError(key: string)

  /** DEVICE_CONFIGS: only "desktop" is enabled, with no emulation. */
  const DeviceConfigs: map<string, Option<string>> := map["desktop" := None]

  /**
   * Resolving a device name: an unregistered name fails with KeyError; a
   * registered name whose catalog key is missing or empty means the default
   * context; otherwise the catalog's descriptor for that key (dict.get),
   * or none if the catalog lacks it.
   */
  function ResolveDevice<D>(registry: map<string, Option<string>>, catalog: map<string, D>, deviceName: string)
    : (r: Result<Option<D>, Error>)
    ensures deviceName !in registry <==> r == Err(KeyError(deviceName))
    ensures deviceName in registry && (registry[deviceName] == None || registry[deviceName] == Some("")) ==> r == Ok(None)
    ensures r.Ok? && r.value.Some? ==>
      deviceName in registry && registry[deviceName].Some? && registry[deviceName].value != "" &&
      registry[deviceName].value in catalog && r.value.value == catalog[registry[deviceName].value]
    ensures deviceName in registry && registry[deviceName].Some? && registry[deviceName].value != "" ==>
      r == Ok(if registry[deviceName].value in catalog then Some(catalog[registry[deviceName].value]) else None)
  {
    if deviceName !in registry then Err(KeyError(deviceName))
    else match registry[deviceName]
      case None => Ok(None)
      case Some(key) =>
        if key == "" then Ok(None)
        else if key in catalog then Ok(Some(catalog[key]))
        else Ok(None)
  }

  /** In the shipped table every name but "desktop" fails, and "desktop" uses the default context. */
  lemma ShippedRegistry<D>(catalog: map<string, D>, deviceName: string)
    ensures deviceName == "desktop" ==> ResolveDevice(DeviceConfigs, catalog, deviceName) == Ok(None)
    ensures deviceName != "desktop" ==> ResolveDevice(DeviceConfigs, catalog, deviceName) == Err(KeyError(deviceName))
  {
  }
}

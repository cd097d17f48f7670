/**
  The accessory's configuration object and the defaults the plugin's
  constructor applies to it.
 */
module Config {

  /** A configuration property as JavaScript's `typeof` tells it apart:
      a number (integers only here), a string, or anything else. */
  datatype JsValue = JsNumber(n: int) | JsString(s: string) | JsOther

  /** The configuration object; a key that is absent reads as `undefined`. */
  type Config = map<string, JsValue>

  /** The settings the constructor derives from the configuration. */
  datatype Settings = Settings(defaultVolume: int, address: string, refreshInterval: int)

  /** The number configured under `key`, or `fallback` when that property is absent or not a number. */
  function NumberOr(config: Config, key: string, fallback: int): int {
    if key in config && config[key].JsNumber? then config[key].n else fallback
  }

  /** The string configured under `key`, or `fallback` when that property is absent or not a string. */
  function StringOr(config: Config, key: string, fallback: string): string {
    if key in config && config[key].JsString? then config[key].s else fallback
  }

  const DefaultVolumeFallback := 10
  const AddressFallback := "localhost"
  const RefreshIntervalFallback := 1000

  /** Each setting is the configured value when it has the expected type,
      and otherwise its fallback: 10, "localhost" and 1000 milliseconds. */
  function FromConfig(config: Config): (r: Settings)
    ensures r.defaultVolume == (if "defaultVolume" in config && config["defaultVolume"].JsNumber?
                                then config["defaultVolume"].n else 10)
    ensures r.address == (if "address" in config && config["address"].JsString?
                          then config["address"].s else "localhost")
    ensures r.refreshInterval == (if "refreshInterval" in config && config["refreshInterval"].JsNumber?
                                  then config["refreshInterval"].n else 1000)
  {
    Settings(
      NumberOr(config, "defaultVolume", DefaultVolumeFallback),
      StringOr(config, "address", AddressFallback),
      NumberOr(config, "refreshInterval", RefreshIntervalFallback))
  }
}

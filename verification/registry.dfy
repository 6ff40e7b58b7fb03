/**
 * The device registry read from the configuration: labels, the ignore set,
 * per-device notification levels and the push service key.
 */
module Registry {

  datatype Config = Config(
    labels: map<string, string>,   // address -> human-readable device name
    ignored: set<string>,          // addresses removed from every scan
    levels: map<string, string>,   // address -> notification level name
    apiKey: string)                // push service key; empty disables sending

  const UnknownPrefix: string := "未知设备 ("

  /**
   * The name shown for a device: its configured label, or a generated
   * "unknown device" label that embeds the address. Defined for every address.
   */
  function DeviceName(cfg: Config, mac: string): (name: string)
    ensures mac in cfg.labels ==> name == cfg.labels[mac]
    ensures mac !in cfg.labels ==>
      && |name| == |UnknownPrefix| + |mac| + 1
      && name[..|UnknownPrefix|] == UnknownPrefix
      && name[|UnknownPrefix|..|name| - 1] == mac
      && name[|name| - 1] == ')'
  {
    if mac in cfg.labels then cfg.labels[mac] else UnknownPrefix + mac + ")"
  }

  /** Different unknown devices never share a generated name. */
  lemma UnknownNamesDistinguishDevices(cfg: Config, a: string, b: string)
    requires a !in cfg.labels && b !in cfg.labels
    requires DeviceName(cfg, a) == DeviceName(cfg, b)
    ensures a == b
  {
  }
}

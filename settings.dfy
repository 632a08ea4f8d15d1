/** The configuration record read from `config.json` (src/config.rs). Every field may be absent;
    an absent toggle means "shown". Loading the file is not part of this model. */
module Settings {
  import opened Wrappers

  datatype Config = Config(
    showDistro: Option<bool>,
    showDistroId: Option<bool>,
    showKernel: Option<bool>,
    showCpu: Option<bool>,
    showGpu: Option<bool>,
    showMemory: Option<bool>,
    showSwap: Option<bool>,
    showLocalIp: Option<bool>,
    showBattery: Option<bool>,
    showStorage: Option<bool>,
    showUptime: Option<bool>,
    logoColor: Option<string>,
    color: Option<string>,
    showUserHost: Option<bool>)

  /** `toggle.unwrap_or(true)`: a toggle is on unless it is explicitly false. */
  predicate On(toggle: Option<bool>)
  {
    toggle.GetOr(true)
  }

  /** `Config::default()`, used when no configuration file can be read. */
  function Default(): Config
  {
    Config(
      Some(true), Some(true), Some(true), Some(true), Some(true), Some(true),
      Some(true), Some(true), Some(true), Some(true), Some(true),
      Some("#00FFFF #FF00FF #FFFF00 #FFFFFF"), Some("#FFFFFF"), Some(true))
  }
}

/** The snapshot `get_system_info` assembles (src/system.rs:8-389): the derived identity fields,
    the uptime split, and the gating of every optional field by its configuration toggle. The
    probes' raw answers are inputs; the concurrency that runs them is not modelled. */
module System {
  import opened Wrappers
  import opened Text
  import opened Settings
  import Storage
  import Gpu

  /** The `os_info::Type` variants the program tells apart. */
  datatype OsKind = MacOsType | WindowsType | OtherType

  /** What `os_info::get()` reports: the type, its display name (`os_type().to_string()`) and
      the version text. */
  datatype OsInfo = OsInfo(kind: OsKind, typeName: string, version: string)

  /** One logical CPU as `sysinfo` reports it. */
  datatype CpuCore = CpuCore(brand: string, frequencyMhz: nat)

  /** The `sysinfo::System` figures used: CPUs, physical core count, memory and swap in bytes. */
  datatype SysStats = SysStats(
    cpus: seq<CpuCore>, physicalCores: Option<nat>,
    totalMemory: nat, usedMemory: nat, totalSwap: nat, usedSwap: nat)

  datatype BatteryState = Charging | Full | Discharging | Empty | UnknownState

  /** The first battery: its charge, already rounded and printed (a floating-point step left
      opaque), and its state. */
  datatype BatteryReading = BatteryReading(percentText: string, state: BatteryState)

  /** The raw answers of all probes. `kernel` is `None` when the kernel version is unknown;
      `localIp` and `battery` are `None` when those probes fail; `storageOut` is the output of
      the disk-usage command, `None` when it could not be run. */
  datatype Probes = Probes(
    os: OsInfo, stats: SysStats, kernel: Option<string>, uptimeSecs: nat,
    gpu: Gpu.GpuProbe, localIp: Option<string>, battery: Option<BatteryReading>,
    target: Storage.Target, storageOut: Option<string>,
    username: string, hostname: Option<string>)

  /** Floating-point formatting left opaque: the storage formatters (`bytes` is `format_bytes`)
      and `ghz(mhz)`, the two-decimal rendering of `mhz as f64 / 1000.0`. */
  datatype Formatters = Formatters(storage: Storage.Formatters, ghz: nat -> string)

  datatype SystemInfo = SystemInfo(
    distro: string,
    distroId: string,
    kernel: string,
    cpu: Option<string>,
    gpu: Option<string>,
    totalMemory: Option<string>,
    usedMemory: Option<string>,
    totalSwap: Option<string>,
    usedSwap: Option<string>,
    uptime: Option<string>,
    localIp: Option<string>,
    battery: Option<string>,
    storage: seq<Storage.StorageInfo>,
    username: Option<string>,
    hostname: Option<string>)

  /** The family part of the display string: "Mac OS", "Windows", or the type's own name. */
  function Family(os: OsInfo): (f: string)
    ensures os.kind == MacOsType ==> f == "Mac OS"
    ensures os.kind == WindowsType ==> f == "Windows"
    ensures os.kind == OtherType ==> f == os.typeName
  {
    match os.kind
    case MacOsType => "Mac OS"
    case WindowsType => "Windows"
    case OtherType => os.typeName
  }

  /** The display string: "<family> (<version>)". */
  function Distro(os: OsInfo): (r: string)
    ensures |r| == |Family(os)| + 3 + |os.version|
    ensures r[..|Family(os)| + 2] == Family(os) + " ("
    ensures r[|Family(os)| + 2..] == os.version + ")"
  {
    var family := Family(os);
    var r := family + " (" + os.version + ")";
    assert r[..|family| + 2] == family + " (";
    assert r[|family| + 2..] == os.version + ")";
    r
  }

  predicate IsUpper(c: char) {
    'A' <= c <= 'Z'
  }

  /** The logo key. Windows is "windows_11" for a 10.0.22xxx build or a version naming
      "Windows 11", else "windows"; macOS is "macos"; any other type name is lowercased, stripped
      of spaces and cut to at most 16 characters. */
  function DistroId(typeName: string, version: string): (id: string)
    ensures |id| <= 16
    ensures Contains(ToLower(typeName), "windows") ==>
      (id == "windows_11" || id == "windows")
      && (id == "windows_11" <==> StartsWith(version, "10.0.22") || Contains(version, "Windows 11"))
    ensures !Contains(ToLower(typeName), "windows") && Contains(ToLower(typeName), "macos") ==> id == "macos"
    ensures !Contains(ToLower(typeName), "windows") && !Contains(ToLower(typeName), "macos") ==>
      var stripped := RemoveChar(ToLower(typeName), ' ');
      && StartsWith(stripped, id)
      && |id| == (if |stripped| < 16 then |stripped| else 16)
      && ' ' !in id
      && forall k :: 0 <= k < |id| ==> !IsUpper(id[k])
  {
    var lower := ToLower(typeName);
    if Contains(lower, "windows") then
      if StartsWith(version, "10.0.22") || Contains(version, "Windows 11") then "windows_11" else "windows"
    else if Contains(lower, "macos") then "macos"
    else
      var id := Take(RemoveChar(lower, ' '), 16);
      ShortKey(typeName);
      id
  }

  /** The key cut from a lowercased, space-free type name has no space and no upper-case letter. */
  lemma ShortKey(typeName: string)
    ensures var id := Take(RemoveChar(ToLower(typeName), ' '), 16);
      ' ' !in id && forall k :: 0 <= k < |id| ==> !IsUpper(id[k])
  {
    var lower := ToLower(typeName);
    var stripped := RemoveChar(lower, ' ');
    var id := Take(stripped, 16);
    forall k | 0 <= k < |id|
      ensures id[k] != ' ' && !IsUpper(id[k])
    {
      assert id[k] == stripped[k];
      assert id[k] in stripped;
      var j :| 0 <= j < |lower| && lower[j] == id[k];
      assert lower[j] == LowerChar(typeName[j]);
    }
  }

  /** Days, hours and minutes of an uptime in seconds; the seconds are dropped. */
  function UptimeParts(secs: nat): (r: (nat, nat, nat))
    ensures r.1 < 24 && r.2 < 60
    ensures r.0 * 86400 + r.1 * 3600 + r.2 * 60 <= secs < r.0 * 86400 + r.1 * 3600 + r.2 * 60 + 60
  {
    var days := secs / 86400;
    var hours := (secs % 86400) / 3600;
    var minutes := (secs % 3600) / 60;
    UptimeSplit(secs);
    (days, hours, minutes)
  }

  lemma UptimeSplit(secs: nat)
    ensures (secs % 86400) / 3600 < 24
    ensures (secs % 3600) / 60 < 60
    ensures secs % 3600 == (secs % 86400) % 3600
    ensures secs == (secs / 86400) * 86400 + ((secs % 86400) / 3600) * 3600 + ((secs % 3600) / 60) * 60 + secs % 60
  {
    var d := secs / 86400;
    var h := (secs % 86400) / 3600;
    var r := (secs % 86400) % 3600;
    assert secs == (24 * d + h) * 3600 + r;
    ModOfMultiple(secs, 24 * d + h, r, 3600);
    var m := r / 60;
    assert r == m * 60 + r % 60;
    ModOfMultiple(secs, (24 * d + h) * 60 + m, r % 60, 60);
  }

  /** The remainder of `q * n + r` by `n`, for `r` below `n`, is `r`. */
  lemma ModOfMultiple(x: int, q: int, r: int, n: int)
    requires n > 0 && 0 <= r < n && x == q * n + r
    ensures x % n == r
  {
    var q' := x / n;
    assert x == q' * n + x % n;
    assert (q - q') * n == q * n - q' * n;
    assert (q' - q) * n == q' * n - q * n;
    MulAtLeast(q - q', n);
    MulAtLeast(q' - q, n);
  }

  lemma MulAtLeast(k: int, n: int)
    requires n > 0
    ensures k >= 1 ==> k * n >= n
  {
    if k >= 1 {
      assert k * n == (k - 1) * n + n;
    }
  }



  /** "<days>d <hours>h <minutes>m". */
  function FormatUptime(secs: nat): string {
    var parts := UptimeParts(secs);
    NatToString(parts.0) + "d " + NatToString(parts.1) + "h " + NatToString(parts.2) + "m"
  }

  /** An uptime of d days, h hours, m minutes and s seconds reads "<d>d <h>h <m>m": the seconds
      are dropped and nothing carries over. */
  lemma FormatUptimeOf(d: nat, h: nat, m: nat, s: nat)
    requires h < 24 && m < 60 && s < 60
    ensures FormatUptime(d * 86400 + h * 3600 + m * 60 + s) ==
      NatToString(d) + "d " + NatToString(h) + "h " + NatToString(m) + "m"
  {
    UptimePartsOf(d, h, m, s);
  }

  /** The split of such an uptime gives back d, h and m. */
  lemma UptimePartsOf(d: nat, h: nat, m: nat, s: nat)
    requires h < 24 && m < 60 && s < 60
    ensures UptimeParts(d * 86400 + h * 3600 + m * 60 + s) == (d, h, m)
  {
    var secs := d * 86400 + h * 3600 + m * 60 + s;
    var parts := UptimeParts(secs);
    var a := parts.0 * 1440 + parts.1 * 60 + parts.2;
    var b := d * 1440 + h * 60 + m;
    InMinutes(parts.0, parts.1, parts.2);
    InMinutes(d, h, m);
    QuotientUnique(a, secs - a * 60, b, s, 60);
    QuotientUnique(parts.0, parts.1 * 60 + parts.2, d, h * 60 + m, 1440);
    QuotientUnique(parts.1, parts.2, h, m, 60);
  }

  lemma InMinutes(d: int, h: int, m: int)
    ensures (d * 1440 + h * 60 + m) * 60 == d * 86400 + h * 3600 + m * 60
  {
  }

  /** Quotient and remainder by `n` are unique. */
  lemma QuotientUnique(q1: int, r1: int, q2: int, r2: int, n: int)
    requires n > 0 && 0 <= r1 < n && 0 <= r2 < n && q1 * n + r1 == q2 * n + r2
    ensures q1 == q2 && r1 == r2
  {
    assert (q1 - q2) * n == q1 * n - q2 * n;
    assert (q2 - q1) * n == q2 * n - q1 * n;
    MulAtLeast(q1 - q2, n);
    MulAtLeast(q2 - q1, n);
  }

  /** "<brand> (<cores> cores) (<GHz> GHz)", from the first CPU; the core count is the physical
      one when known, else the number of logical CPUs. */
  function CpuText(stats: SysStats, fmt: Formatters): string {
    var brand := if stats.cpus != [] then stats.cpus[0].brand else "Unknown";
    var cores := stats.physicalCores.GetOr(|stats.cpus|);
    var freq := if stats.cpus != [] then stats.cpus[0].frequencyMhz else 0;
    brand + " (" + NatToString(cores) + " cores) (" + fmt.ghz(freq) + " GHz)"
  }

  /** "<percent>% [AC Connected]" while charging or full, "<percent>% [Discharging]" otherwise. */
  function BatteryStatus(b: BatteryReading): string {
    var plugged := if b.state == Charging || b.state == Full then "[AC Connected]" else "[Discharging]";
    b.percentText + "% " + plugged
  }

  /** The snapshot: identity fields always, each optional field only when its toggle is on. */
  function GetSystemInfo(config: Config, p: Probes, fmt: Formatters): (r: SystemInfo)
    ensures !On(config.showMemory) ==> r.totalSwap.None? && r.usedSwap.None?
  {
    var memory := On(config.showMemory);
    var bytes := fmt.storage.bytes;
    SystemInfo(
      distro := Distro(p.os),
      distroId := DistroId(p.os.typeName, p.os.version),
      kernel := p.kernel.GetOr(""),
      cpu := if On(config.showCpu) then Some(CpuText(p.stats, fmt)) else None,
      gpu := if On(config.showGpu) then Some(Gpu.DetectGpu(p.gpu)) else None,
      totalMemory := if memory then Some(bytes(p.stats.totalMemory / 1024)) else None,
      usedMemory := if memory then Some(bytes(p.stats.usedMemory / 1024)) else None,
      totalSwap := if memory then Some(bytes(p.stats.totalSwap / 1024)) else None,
      usedSwap := if memory then Some(bytes(p.stats.usedSwap / 1024)) else None,
      uptime := if On(config.showUptime) then Some(FormatUptime(p.uptimeSecs)) else None,
      localIp := if On(config.showLocalIp) then p.localIp else None,
      battery := if On(config.showBattery) && p.battery.Some? then Some(BatteryStatus(p.battery.value)) else None,
      storage := if On(config.showStorage) then Storage.StorageInfoOf(p.target, p.storageOut, fmt.storage) else [],
      username := Some(p.username),
      hostname := p.hostname)
  }
  /** The identity fields and the values the shown fields carry. */
  lemma SnapshotValues(config: Config, p: Probes, fmt: Formatters)
    ensures var info := GetSystemInfo(config, p, fmt);
      && (info.distro == Distro(p.os) && info.distroId == DistroId(p.os.typeName, p.os.version))
      && (info.kernel == p.kernel.GetOr(""))
      && (info.gpu.Some? ==> info.gpu.value == Gpu.DetectGpu(p.gpu))
      && (info.uptime.Some? ==> info.uptime.value == FormatUptime(p.uptimeSecs))
      && (On(config.showBattery) ==> info.battery.Some? == p.battery.Some?)
      && (info.storage == if On(config.showStorage) then Storage.StorageInfoOf(p.target, p.storageOut, fmt.storage) else [])
  {
  }

  /** Each optional field is present exactly when its toggle is on; the memory toggle gates the
      two swap sizes as well. */
  lemma SnapshotGating(config: Config, p: Probes, fmt: Formatters)
    ensures var info := GetSystemInfo(config, p, fmt);
      && (info.cpu.Some? <==> On(config.showCpu))
      && (info.gpu.Some? <==> On(config.showGpu))
      && (info.uptime.Some? <==> On(config.showUptime))
      && (info.totalMemory.Some? <==> On(config.showMemory))
      && (info.usedMemory.Some? <==> On(config.showMemory))
      && (info.totalSwap.Some? <==> On(config.showMemory))
      && (info.usedSwap.Some? <==> On(config.showMemory))
      && (info.localIp == if On(config.showLocalIp) then p.localIp else None)
      && (!On(config.showBattery) ==> info.battery.None?)
  {
  }
}

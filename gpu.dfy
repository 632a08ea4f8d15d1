/** GPU detection (src/system.rs:49-240, 621-763): per-platform ordered chains of detection
    tiers, the text filters each tier applies, and the push-if-absent collection of device names.
    What each tier reads from the host (directory listings, file contents, command output,
    graphics-API answers) is an input of the model. */
module Gpu {
  import opened Wrappers
  import opened Text

  // ---------------------------------------------------------------------------------------------
  // The fallback chain

  /** A tier that collects device names succeeds when it found at least one; its answer is the
      names joined by ", " (`gpus.join(", ")`). */
  function ListTier(gpus: seq<string>): (r: Option<string>)
    ensures r.None? <==> gpus == []
    ensures r.Some? ==> r.value == Join(gpus, ", ")
  {
    if gpus == [] then None else Some(Join(gpus, ", "))
  }

  /** The answer of the first tier that has one. */
  function FirstSome(tiers: seq<Option<string>>): (r: Option<string>)
    ensures r.None? <==> forall k :: 0 <= k < |tiers| ==> tiers[k].None?
    ensures r.Some? ==> r in tiers
    decreases |tiers|
  {
    if tiers == [] then None
    else if tiers[0].Some? then tiers[0]
    else FirstSome(tiers[1..])
  }

  /** "Try, else try the next", ending in "Unknown". */
  function Fallback(tiers: seq<Option<string>>): (r: string)
    ensures r == "Unknown" || Some(r) in tiers
  {
    FirstSome(tiers).GetOr("Unknown")
  }

  /** Short-circuit: the first tier with an answer decides, whatever the later tiers would say. */
  lemma {:induction false} FallbackFirstWins(tiers: seq<Option<string>>, k: nat)
    requires k < |tiers| && tiers[k].Some?
    requires forall j :: 0 <= j < k ==> tiers[j].None?
    ensures Fallback(tiers) == tiers[k].value
    decreases k
  {
    if k > 0 {
      FallbackFirstWins(tiers[1..], k - 1);
    }
  }

  /** The chain says "Unknown" when every tier fails. */
  lemma FallbackAllFail(tiers: seq<Option<string>>)
    requires forall k :: 0 <= k < |tiers| ==> tiers[k].None?
    ensures Fallback(tiers) == "Unknown"
  {
  }

  // ---------------------------------------------------------------------------------------------
  // Push-if-absent collection of device names (src/system.rs:666, 720, 741, 748)

  /** Windows skips names that are blank after trimming; IOKit skips only the empty name. */
  datatype NameRule = NonEmpty | NonBlank

  predicate Acceptable(rule: NameRule, name: string) {
    match rule
    case NonEmpty => name != ""
    case NonBlank => Trim(name) != ""
  }

  /** `if <acceptable> && !gpus.contains(&name) { gpus.push(name) }` */
  function PushIfAbsent(rule: NameRule, gpus: seq<string>, name: string): (r: seq<string>)
    ensures |gpus| <= |r| <= |gpus| + 1 && r[..|gpus|] == gpus
    ensures |r| == |gpus| + 1 <==> Acceptable(rule, name) && name !in gpus
    ensures forall x :: x in r <==> x in gpus || (x == name && Acceptable(rule, name))
  {
    if Acceptable(rule, name) && name !in gpus then gpus + [name] else gpus
  }

  /** The list that pushing `names` one by one, if absent, builds from an empty list. */
  function Dedup(rule: NameRule, names: seq<string>): (r: seq<string>)
    ensures |r| <= |names|
    ensures forall i :: 0 <= i < |r| ==> Acceptable(rule, r[i])
    decreases |names|
  {
    if names == [] then []
    else PushIfAbsent(rule, Dedup(rule, names[..|names| - 1]), names[|names| - 1])
  }

  lemma DedupSnoc(rule: NameRule, names: seq<string>, name: string)
    ensures Dedup(rule, names + [name]) == PushIfAbsent(rule, Dedup(rule, names), name)
  {
    assert (names + [name])[..|names|] == names;
  }

  /** Position of the first occurrence of `x` in `s`, or `|s|`. */
  function FirstIndex(s: seq<string>, x: string): (i: nat)
    ensures i <= |s|
    ensures i < |s| <==> x in s
    ensures i < |s| ==> s[i] == x
    ensures forall j :: 0 <= j < i ==> s[j] != x
  {
    if s == [] then 0 else if s[0] == x then 0 else 1 + FirstIndex(s[1..], x)
  }

  lemma FirstIndexSnoc(s: seq<string>, x: string, y: string)
    ensures y in s ==> FirstIndex(s + [x], y) == FirstIndex(s, y)
    ensures y !in s && y == x ==> FirstIndex(s + [x], y) == |s|
  {
    var t := s + [x];
    if y in s {
      var i := FirstIndex(s, y);
      assert t[i] == y;
      assert forall j :: 0 <= j < i ==> t[j] == s[j];
    } else if y == x {
      assert t[|s|] == y;
      assert forall j :: 0 <= j < |s| ==> t[j] == s[j];
    }
  }

  predicate NoDuplicates(s: seq<string>) {
    forall i, j :: 0 <= i < j < |s| ==> s[i] != s[j]
  }

  /** The collected list holds each acceptable name exactly once and holds nothing else. */
  lemma {:induction false} DedupMembers(rule: NameRule, names: seq<string>)
    ensures NoDuplicates(Dedup(rule, names))
    ensures forall x :: x in Dedup(rule, names) <==> x in names && Acceptable(rule, x)
    decreases |names|
  {
    if names != [] {
      var p := names[..|names| - 1];
      var x := names[|names| - 1];
      assert names == p + [x];
      var prev := Dedup(rule, p);
      DedupMembers(rule, p);
      if Acceptable(rule, x) && x !in prev {
        assert Dedup(rule, names) == prev + [x];
      } else {
        assert Dedup(rule, names) == prev;
      }
    }
  }

  /** The collected list keeps the order in which the names were first seen. */
  lemma {:induction false} DedupOrder(rule: NameRule, names: seq<string>)
    ensures forall i, j :: 0 <= i < j < |Dedup(rule, names)| ==>
      FirstIndex(names, Dedup(rule, names)[i]) < FirstIndex(names, Dedup(rule, names)[j])
    decreases |names|
  {
    if names != [] {
      var p := names[..|names| - 1];
      var x := names[|names| - 1];
      assert names == p + [x];
      var prev := Dedup(rule, p);
      DedupOrder(rule, p);
      DedupMembers(rule, p);
      var r := Dedup(rule, names);
      forall y | y in prev
        ensures FirstIndex(names, y) == FirstIndex(p, y) < |p|
      {
        FirstIndexSnoc(p, x, y);
      }
      OrderKept(names, p, prev);
      if Acceptable(rule, x) && x !in prev {
        assert r == prev + [x];
        assert x !in p;
        FirstIndexSnoc(p, x, x);
        AppendLast(names, prev, x);
      } else {
        assert r == prev;
      }
    }
  }

  /** Positions of first sighting do not change when more names are seen afterwards. */
  lemma OrderKept(names: seq<string>, p: seq<string>, prev: seq<string>)
    requires forall i, j :: 0 <= i < j < |prev| ==> FirstIndex(p, prev[i]) < FirstIndex(p, prev[j])
    requires forall y :: y in prev ==> FirstIndex(names, y) == FirstIndex(p, y)
    ensures forall i, j :: 0 <= i < j < |prev| ==> FirstIndex(names, prev[i]) < FirstIndex(names, prev[j])
  {
    forall i, j | 0 <= i < j < |prev|
      ensures FirstIndex(names, prev[i]) < FirstIndex(names, prev[j])
    {
      assert prev[i] in prev && prev[j] in prev;
    }
  }

  /** A list in first-seen order stays so when a name first seen after all of it is appended. */
  lemma AppendLast(names: seq<string>, prev: seq<string>, x: string)
    requires forall i, j :: 0 <= i < j < |prev| ==> FirstIndex(names, prev[i]) < FirstIndex(names, prev[j])
    requires forall y :: y in prev ==> FirstIndex(names, y) < FirstIndex(names, x)
    ensures var r := prev + [x];
      forall i, j :: 0 <= i < j < |r| ==> FirstIndex(names, r[i]) < FirstIndex(names, r[j])
  {
    var r := prev + [x];
    forall i, j | 0 <= i < j < |r|
      ensures FirstIndex(names, r[i]) < FirstIndex(names, r[j])
    {
      assert r[i] == prev[i];
      if j < |prev| {
        assert r[j] == prev[j];
      }
    }
  }

  // ---------------------------------------------------------------------------------------------
  // Windows: SetupDi enumeration of display devices (src/system.rs:621-674), labelling (122-151)

  /** The device descriptions the registry query returned, one per display device, `None` where
      the property could not be read. */
  function Present(descriptions: seq<Option<string>>): seq<string> {
    FilterMap(Keep, descriptions)
  }

  function Keep(o: Option<string>): Option<string> {
    o
  }

  /** The enumeration loop of `detect_gpu_windows`. */
  method DetectGpuWindows(descriptions: seq<Option<string>>) returns (gpus: seq<string>)
    ensures gpus == Dedup(NonBlank, Present(descriptions))
  {
    gpus := [];
    var index := 0;
    while index < |descriptions|
      invariant 0 <= index <= |descriptions|
      invariant gpus == Dedup(NonBlank, Present(descriptions[..index]))
    {
      var description := descriptions[index];
      ghost var seen := Present(descriptions[..index]);
      FilterMapSnoc(Keep, descriptions, index);
      assert Keep(description) == description;
      index := index + 1;
      if description.Some? {
        var name := description.value;
        assert Present(descriptions[..index]) == seen + [name];
        DedupSnoc(NonBlank, seen, name);
        if Trim(name) != "" && name !in gpus {
          gpus := gpus + [name];
        }
      } else {
        assert Present(descriptions[..index]) == seen;
      }
    }
    assert descriptions[..index] == descriptions;
  }

  /** The line for the i-th (0-based) of several adapters. */
  function AdapterLine(i: nat, name: string): string {
    if i == 0 then "GPU: " + name else "GPU " + NatToString(i + 1) + ": " + name
  }

  function AdapterLines(gpus: seq<string>): (r: seq<string>)
    ensures |r| == |gpus| && forall i :: 0 <= i < |gpus| ==> r[i] == AdapterLine(i, gpus[i])
  {
    seq(|gpus|, i requires 0 <= i < |gpus| => AdapterLine(i, gpus[i]))
  }

  /** The Windows GPU string for the collected adapter names. */
  function WindowsLabel(gpus: seq<string>): (r: string)
    ensures gpus == [] ==> r == "GPU: Unknown"
    ensures gpus != [] ==> StartsWith(r, "GPU: " + gpus[0])
  {
    if gpus == [] then "GPU: Unknown"
    else if |gpus| == 1 then "GPU: " + gpus[0]
    else
      var lines := AdapterLines(gpus);
      assert Join(lines, "\n") == lines[0] + ("\n" + Join(lines[1..], "\n"));
      Join(lines, "\n")
  }

  /** The Windows GPU string has one line per adapter, the first "GPU: <name>" and the i-th
      (0-based, i >= 1) "GPU <i+1>: <name>", provided no name spans lines. */
  lemma WindowsLabelLines(gpus: seq<string>)
    requires gpus != []
    requires forall k :: 0 <= k < |gpus| ==> '\n' !in gpus[k]
    ensures SplitOn(WindowsLabel(gpus), '\n') == AdapterLines(gpus)
  {
    var lines := AdapterLines(gpus);
    forall k | 0 <= k < |lines|
      ensures '\n' !in lines[k]
    {
      if k > 0 {
        assert lines[k] == "GPU " + NatToString(k + 1) + ": " + gpus[k];
        NatToStringNoNewline(k + 1);
      }
    }
    SplitJoin(lines, '\n');
  }

  lemma {:induction false} NatToStringNoNewline(n: nat)
    ensures '\n' !in NatToString(n)
    decreases n
  {
    if n >= 10 {
      NatToStringNoNewline(n / 10);
    }
  }

  /** Windows input: the registry descriptions of the display devices, and whether the 5-second
      timeout around the enumeration expired. The enumeration inside that timeout is synchronous,
      so the timer is only looked at after it has finished; `timedOut` is kept as a free input
      and over-approximates what the program can do. */
  datatype WindowsProbe = WindowsProbe(descriptions: seq<Option<string>>, timedOut: bool)

  /** The Windows GPU string: "GPU: Unknown" on a timeout or without adapters, otherwise the
      label of the collected adapters, one line per adapter. */
  function WindowsGpu(p: WindowsProbe): (r: string)
    ensures p.timedOut ==> r == "GPU: Unknown"
    ensures Dedup(NonBlank, Present(p.descriptions)) == [] ==> r == "GPU: Unknown"
    ensures var gpus := Dedup(NonBlank, Present(p.descriptions));
      !p.timedOut && gpus != [] ==> r == WindowsLabel(gpus)
    ensures var gpus := Dedup(NonBlank, Present(p.descriptions));
      !p.timedOut && gpus != [] && (forall k :: 0 <= k < |gpus| ==> '\n' !in gpus[k]) ==>
        SplitOn(r, '\n') == AdapterLines(gpus)
  {
    var gpus := Dedup(NonBlank, Present(p.descriptions));
    if p.timedOut then "GPU: Unknown"
    else if gpus != [] && (forall k :: 0 <= k < |gpus| ==> '\n' !in gpus[k]) then
      WindowsLabelLines(gpus);
      WindowsLabel(gpus)
    else WindowsLabel(gpus)
  }

  // ---------------------------------------------------------------------------------------------
  // macOS: IOKit accelerators (src/system.rs:676-763), `ioreg` (58-81), `system_profiler` (82-110)

  /** The "model" property of an accelerator service: absent, raw data (`None` when it is not
      UTF-8), a string, or a value of another type. */
  datatype ModelProperty = NoModel | DataModel(bytes: Option<string>) | StringModel(text: string) | OtherModel

  /** One accelerator service: its "IOName" property and its "model" property. */
  datatype IoService = IoService(ioName: Option<string>, model: ModelProperty)

  /** The text of the "model" property, when it is a UTF-8 data blob (with NUL padding trimmed
      from both ends) or a string. */
  function ModelText(m: ModelProperty): Option<string> {
    match m
    case DataModel(Some(t)) => Some(TrimMatches(t, '\0'))
    case StringModel(t) => Some(t)
    case _ => None
  }

  /** The names one service offers, in the order the loop tries them. */
  function ServiceNames(s: IoService): seq<string> {
    (if s.ioName.Some? then [s.ioName.value] else [])
    + (if ModelText(s.model).Some? then [ModelText(s.model).value] else [])
  }

  function IokitNames(services: seq<IoService>): seq<string>
    decreases |services|
  {
    if services == [] then []
    else IokitNames(services[..|services| - 1]) + ServiceNames(services[|services| - 1])
  }

  lemma IokitNamesSnoc(services: seq<IoService>, i: nat)
    requires i < |services|
    ensures IokitNames(services[..i + 1]) == IokitNames(services[..i]) + ServiceNames(services[i])
  {
    assert services[..i + 1][..i] == services[..i];
  }

  /** Pushing a property value if the service has it and it is absent. */
  function PushProperty(gpus: seq<string>, value: Option<string>): seq<string> {
    if value.Some? then PushIfAbsent(NonEmpty, gpus, value.value) else gpus
  }

  lemma DedupService(seen: seq<string>, s: IoService)
    ensures Dedup(NonEmpty, seen + ServiceNames(s)) ==
      PushProperty(PushProperty(Dedup(NonEmpty, seen), s.ioName), ModelText(s.model))
  {
    var first := if s.ioName.Some? then seen + [s.ioName.value] else seen;
    if s.ioName.Some? {
      DedupSnoc(NonEmpty, seen, s.ioName.value);
    }
    if ModelText(s.model).Some? {
      DedupSnoc(NonEmpty, first, ModelText(s.model).value);
      assert seen + ServiceNames(s) == first + [ModelText(s.model).value];
    } else {
      assert seen + ServiceNames(s) == first;
    }
  }

  /** The service loop of `detect_gpu_iokit`. */
  method DetectGpuIokit(services: seq<IoService>) returns (gpus: seq<string>)
    ensures gpus == Dedup(NonEmpty, IokitNames(services))
  {
    gpus := [];
    var i := 0;
    while i < |services|
      invariant 0 <= i <= |services|
      invariant gpus == Dedup(NonEmpty, IokitNames(services[..i]))
    {
      var service := services[i];
      IokitNamesSnoc(services, i);
      DedupService(IokitNames(services[..i]), service);
      ghost var expected := PushProperty(PushProperty(gpus, service.ioName), ModelText(service.model));
      if service.ioName.Some? {
        var name := service.ioName.value;
        if name != "" && name !in gpus {
          gpus := gpus + [name];
        }
      }
      var model := ModelText(service.model);
      if model.Some? {
        var modelStr := model.value;
        if modelStr != "" && modelStr !in gpus {
          gpus := gpus + [modelStr];
        }
      }
      assert gpus == expected;
      i := i + 1;
    }
    assert services[..i] == services;
  }

  /** The `ioreg` line matcher: the text before the first '=' must mention "model" and the text
      after it one of "Apple", "display" or "GPU"; the answer is that text trimmed, quotes removed. */
  function IoregModel(line: string): (r: Option<string>)
    ensures r.Some? ==> '=' in line && '"' !in r.value
  {
    match SplitOnce(line, '=')
    case None => None
    case Some((key, value)) =>
      if Contains(key, "model") && (Contains(value, "Apple") || Contains(value, "display") || Contains(value, "GPU"))
      then Some(RemoveChar(Trim(value), '"'))
      else None
  }

  /** Only the key decides: "model" after the first '=' does not make a line match, and a
      line whose key mentions it matches exactly when its value names a GPU term. */
  lemma IoregKeyOnly(key: string, value: string)
    requires '=' !in key
    ensures IoregModel(key + "=" + value).Some? <==>
      Contains(key, "model") && (Contains(value, "Apple") || Contains(value, "display") || Contains(value, "GPU"))
    ensures IoregModel(key + "=" + value).Some? ==> IoregModel(key + "=" + value).value == RemoveChar(Trim(value), '"')
  {
    var line := key + "=" + value;
    var i := IndexOf(line, '=');
    assert line[|key|] == '=';
    assert forall j :: 0 <= j < |key| ==> line[j] == key[j];
    assert i == |key|;
    assert line[..i] == key;
    assert line[i + 1..] == value;
  }

  /** `lines().find_map(...)`: the first line the matcher accepts. */
  function FirstIoregModel(lines: seq<string>): (r: Option<string>)
    ensures r.None? <==> forall k :: 0 <= k < |lines| ==> IoregModel(lines[k]).None?
    decreases |lines|
  {
    if lines == [] then None
    else if IoregModel(lines[0]).Some? then IoregModel(lines[0])
    else FirstIoregModel(lines[1..])
  }

  /** The `ioreg` tier answers with the value of the first line the matcher accepts, whatever
      the later lines hold. */
  lemma {:induction false} FirstIoregMatch(lines: seq<string>, k: nat)
    requires FirstMatchAt(lines, k)
    ensures FirstIoregModel(lines) == IoregModel(lines[k])
    decreases k
  {
    if k > 0 {
      assert FirstMatchAt(lines[1..], k - 1) by {
        assert lines[1..][k - 1] == lines[k];
        forall j | 0 <= j < k - 1
          ensures IoregModel(lines[1..][j]).None?
        {
          assert lines[1..][j] == lines[j + 1];
        }
      }
      FirstIoregMatch(lines[1..], k - 1);
    }
  }

  /** Line k is the first line the `ioreg` matcher accepts. */
  predicate FirstMatchAt(lines: seq<string>, k: int) {
    0 <= k < |lines| && IoregModel(lines[k]).Some? && forall j :: 0 <= j < k ==> IoregModel(lines[j]).None?
  }

  /** The first GPU entry of `system_profiler SPDisplaysDataType -json`, once parsed: its model,
      core count and core clock, each possibly missing. */
  datatype ProfilerGpu = ProfilerGpu(model: Option<string>, cores: Option<nat>, clock: Option<string>)

  /** The detail string: "<model>", "<model> (<n> cores)" or "<model> (<n> cores, <clock>)". */
  function ProfilerDetails(g: ProfilerGpu): (r: string)
    ensures StartsWith(r, g.model.GetOr("Unknown"))
    ensures g.cores.None? ==> r == g.model.GetOr("Unknown")
    ensures g.cores.Some? && g.clock.None? ==>
      r == g.model.GetOr("Unknown") + " (" + NatToString(g.cores.value) + " cores)"
    ensures g.cores.Some? && g.clock.Some? ==>
      r == g.model.GetOr("Unknown") + " (" + NatToString(g.cores.value) + " cores, " + g.clock.value + ")"
  {
    var details := g.model.GetOr("Unknown");
    match g.cores
    case None => details
    case Some(cores) =>
      var withCores := details + " (" + NatToString(cores) + " cores";
      match g.clock
      case Some(freq) => withCores + ", " + freq + ")"
      case None => withCores + ")"
  }

  /** macOS input: the IOKit accelerator services, the `ioreg -r -c IOPCIDevice` output (`None`
      when the command failed) and the parsed `system_profiler` entry (`None` when the command,
      the JSON parse or the lookup of the first display failed). */
  datatype MacProbe = MacProbe(services: seq<IoService>, ioreg: Option<string>, profiler: Option<ProfilerGpu>)

  function IoregTier(out: Option<string>): Option<string> {
    match out
    case None => None
    case Some(stdout) => FirstIoregModel(Lines(stdout))
  }

  function ProfilerTier(g: Option<ProfilerGpu>): (r: Option<string>)
    ensures r.Some? <==> g.Some?
  {
    match g
    case None => None
    case Some(gpu) => Some(ProfilerDetails(gpu))
  }

  function MacTiers(p: MacProbe): seq<Option<string>> {
    [ListTier(Dedup(NonEmpty, IokitNames(p.services))), IoregTier(p.ioreg), ProfilerTier(p.profiler)]
  }

  // ---------------------------------------------------------------------------------------------
  // Linux: /sys/class/drm (src/system.rs:156-177), lspci (178-191), /sys/bus/pci (192-213)

  /** A `/sys/class/drm` entry: its file name (`None` when not UTF-8) and the contents of its
      `device/vendor` and `device/device` files (`None` when unreadable). */
  datatype DrmEntry = DrmEntry(name: Option<string>, vendor: Option<string>, device: Option<string>)

  /** A card node: "card<n>", not a connector such as "card0-HDMI-A-1" (nor "renderD128"). */
  predicate IsCardName(name: string) {
    StartsWith(name, "card") && '-' !in name
  }

  /** "PCI <vendor>:<device>", each id trimmed. */
  function PciLabel(vendor: string, device: string): string {
    "PCI " + Trim(vendor) + ":" + Trim(device)
  }

  function DrmGpu(e: DrmEntry): (r: Option<string>)
    ensures r.Some? <==> e.name.Some? && IsCardName(e.name.value) && e.vendor.Some? && e.device.Some?
    ensures r.Some? ==> r.value == PciLabel(e.vendor.value, e.device.value)
  {
    if e.name.Some? && IsCardName(e.name.value) && e.vendor.Some? && e.device.Some?
    then Some(PciLabel(e.vendor.value, e.device.value))
    else None
  }

  function DrmGpus(entries: seq<DrmEntry>): seq<string> {
    FilterMap(DrmGpu, entries)
  }

  /** The directory loop of the drm tier. */
  method DrmTierGpus(entries: seq<DrmEntry>) returns (gpus: seq<string>)
    ensures gpus == DrmGpus(entries)
  {
    gpus := [];
    for i := 0 to |entries|
      invariant gpus == FilterMap(DrmGpu, entries[..i])
    {
      var entry := entries[i];
      FilterMapSnoc(DrmGpu, entries, i);
      if entry.name.Some? {
        var name := entry.name.value;
        if StartsWith(name, "card") && '-' !in name {
          if entry.vendor.Some? && entry.device.Some? {
            gpus := gpus + [PciLabel(entry.vendor.value, entry.device.value)];
          }
        }
      }
    }
    assert entries[..|entries|] == entries;
  }

  /** The `lspci` line filter: VGA and 3D controllers. */
  predicate IsDisplayLine(line: string) {
    Contains(line, " VGA ") || Contains(line, "3D controller")
  }

  /** `line.split(':').last().unwrap_or("").trim()`: the text after the last ':', trimmed (the
      whole line, trimmed, when it has no ':'). */
  function LspciName(line: string): (r: string)
    ensures ':' !in r
  {
    var parts := SplitOn(line, ':');
    TrimInside(parts[|parts| - 1]);
    Trim(parts[|parts| - 1])
  }

  /** The lspci name is the text after the last ':' of the line, trimmed; the whole line,
      trimmed, when it has no ':'. */
  lemma {:induction false} LspciNameOf(line: string)
    ensures LspciName(line) == Trim(line[LastStart(line, ':')..])
    ensures ':' !in line ==> LspciName(line) == Trim(line)
  {
    SplitOnLast(line, ':');
    if ':' !in line {
      assert AfterLast(line, ':', 0);
      AfterLastUnique(line, ':', 0, LastStart(line, ':'));
      assert line[0..] == line;
    }
  }

  lemma TrimInside(s: string)
    ensures forall j :: 0 <= j < |Trim(s)| ==> Trim(s)[j] in s
  {
    var t := TrimStart(s);
    var r := TrimEnd(t);
    var k := |s| - |t|;
    assert Trim(s) == r;
    assert t == s[k..];
    assert r == t[..|r|];
    forall j | 0 <= j < |r|
      ensures r[j] in s
    {
      assert r[j] == s[k + j];
    }
  }


  function LspciEntry(line: string): Option<string> {
    if IsDisplayLine(line) then Some(LspciName(line)) else None
  }

  function LspciGpus(stdout: string): (r: seq<string>)
    ensures forall k :: 0 <= k < |r| ==> ':' !in r[k]
  {
    var r := FilterMap(LspciEntry, Lines(stdout));
    forall k | 0 <= k < |r|
      ensures ':' !in r[k]
    {
      FilterMapMembers(LspciEntry, Lines(stdout), r[k]);
    }
    r
  }

  /** A name is reported exactly when some output line is a VGA or 3D-controller line that
      yields it. */
  lemma {:induction false} LspciMembers(stdout: string, name: string)
    ensures name in LspciGpus(stdout) <==>
      exists l :: l in Lines(stdout) && IsDisplayLine(l) && LspciName(l) == name
  {
    var lines := Lines(stdout);
    assert LspciGpus(stdout) == FilterMap(LspciEntry, lines);
    DisplayMembers(lines, name);
  }

  lemma {:induction false} DisplayMembers(lines: seq<string>, name: string)
    ensures name in FilterMap(LspciEntry, lines) <==>
      exists l :: l in lines && IsDisplayLine(l) && LspciName(l) == name
  {
    FilterMapMembers(LspciEntry, lines, name);
    if exists l :: l in lines && IsDisplayLine(l) && LspciName(l) == name {
      var l :| l in lines && IsDisplayLine(l) && LspciName(l) == name;
      var k :| 0 <= k < |lines| && lines[k] == l;
      assert LspciEntry(lines[k]) == Some(name);
    }
    if name in FilterMap(LspciEntry, lines) {
      var k :| 0 <= k < |lines| && LspciEntry(lines[k]) == Some(name);
      assert lines[k] in lines && IsDisplayLine(lines[k]) && LspciName(lines[k]) == name;
    }
  }

  /** `filter` then `map`, as the lspci tier chains them: the display lines, in output order,
      each mapped to its name. */
  function DisplayNames(lines: seq<string>): (r: seq<string>)
    ensures |r| <= |lines|
    decreases |lines|
  {
    if lines == [] then []
    else (if IsDisplayLine(lines[0]) then [LspciName(lines[0])] else []) + DisplayNames(lines[1..])
  }

  /** The lspci tier reports the names of the display lines in output order. */
  lemma {:induction false} LspciOrder(stdout: string)
    ensures LspciGpus(stdout) == DisplayNames(Lines(stdout))
  {
    DisplayNamesFilterMap(Lines(stdout));
  }

  lemma {:induction false} DisplayNamesFilterMap(lines: seq<string>)
    ensures FilterMap(LspciEntry, lines) == DisplayNames(lines)
    decreases |lines|
  {
    if lines != [] {
      DisplayNamesFilterMap(lines[1..]);
      assert lines == [lines[0]] + lines[1..];
      FilterMapAppend(LspciEntry, [lines[0]], lines[1..]);
      FilterMapSnoc(LspciEntry, [lines[0]], 0);
      assert [lines[0]][..1] == [lines[0]];
    }
  }

  /** A `/sys/bus/pci/devices` entry: its `class`, `vendor` and `device` files (`None` when unreadable). */
  datatype PciDevice = PciDevice(classCode: Option<string>, vendor: Option<string>, device: Option<string>)

  /** PCI base class 0x03: display controllers. */
  predicate IsDisplayClass(classCode: string) {
    StartsWith(Trim(classCode), "0x03")
  }

  function PciGpu(d: PciDevice): (r: Option<string>)
    ensures r.Some? <==> d.classCode.Some? && IsDisplayClass(d.classCode.value) && d.vendor.Some? && d.device.Some?
    ensures r.Some? ==> r.value == PciLabel(d.vendor.value, d.device.value)
  {
    if d.classCode.Some? && IsDisplayClass(d.classCode.value) && d.vendor.Some? && d.device.Some?
    then Some(PciLabel(d.vendor.value, d.device.value))
    else None
  }

  function PciGpus(devices: seq<PciDevice>): seq<string> {
    FilterMap(PciGpu, devices)
  }

  /** The directory loop of the PCI tier. */
  method PciTierGpus(devices: seq<PciDevice>) returns (gpus: seq<string>)
    ensures gpus == PciGpus(devices)
  {
    gpus := [];
    for i := 0 to |devices|
      invariant gpus == FilterMap(PciGpu, devices[..i])
    {
      var device := devices[i];
      FilterMapSnoc(PciGpu, devices, i);
      if device.classCode.Some? && StartsWith(Trim(device.classCode.value), "0x03") {
        if device.vendor.Some? && device.device.Some? {
          gpus := gpus + [PciLabel(device.vendor.value, device.device.value)];
        }
      }
    }
    assert devices[..|devices|] == devices;
  }

  /** Linux input: the drm listing (`None` when the directory cannot be read), the `lspci`
      output (`None` when the command failed), the PCI device listing, and the OpenGL renderer
      and Vulkan device names (`None` when those APIs give no answer). */
  datatype LinuxProbe = LinuxProbe(
    drm: Option<seq<DrmEntry>>, lspci: Option<string>, pci: Option<seq<PciDevice>>,
    openGl: Option<string>, vulkan: Option<string>)

  function ListingTier<T>(listing: Option<T>, names: T -> seq<string>): Option<string> {
    match listing
    case None => None
    case Some(l) => ListTier(names(l))
  }

  function LinuxTiers(p: LinuxProbe): seq<Option<string>> {
    [ListingTier(p.drm, DrmGpus), ListingTier(p.lspci, LspciGpus), ListingTier(p.pci, PciGpus), p.openGl, p.vulkan]
  }

  // ---------------------------------------------------------------------------------------------
  // The GPU probe for each platform

  datatype GpuProbe =
    | MacHost(mac: MacProbe)
    | WindowsHost(windows: WindowsProbe)
    | LinuxHost(linux: LinuxProbe)
    | OtherHost(openGl: Option<string>, vulkan: Option<string>)

  function Tiers(p: GpuProbe): seq<Option<string>>
    requires !p.WindowsHost?
  {
    match p
    case MacHost(m) => MacTiers(m)
    case LinuxHost(l) => LinuxTiers(l)
    case OtherHost(gl, vk) => [gl, vk]
  }

  /** The string the GPU task produces. */
  function DetectGpu(p: GpuProbe): (r: string)
    ensures p.WindowsHost? ==> r == WindowsGpu(p.windows)
    ensures !p.WindowsHost? && (forall k :: 0 <= k < |Tiers(p)| ==> Tiers(p)[k].None?) ==> r == "Unknown"
  {
    if p.WindowsHost? then WindowsGpu(p.windows) else Fallback(Tiers(p))
  }

  /** The Linux chain: drm cards, then `lspci`, then PCI class 0x03, then OpenGL, then Vulkan;
      the first tier that answers decides and "Unknown" is the answer when none does. */
  lemma LinuxChain(p: LinuxProbe)
    ensures ListingTier(p.drm, DrmGpus).Some? ==> DetectGpu(LinuxHost(p)) == Join(DrmGpus(p.drm.value), ", ")
    ensures ListingTier(p.drm, DrmGpus).None? && ListingTier(p.lspci, LspciGpus).Some? ==>
      DetectGpu(LinuxHost(p)) == Join(LspciGpus(p.lspci.value), ", ")
    ensures (ListingTier(p.drm, DrmGpus).None? && ListingTier(p.lspci, LspciGpus).None?
             && ListingTier(p.pci, PciGpus).Some?) ==>
      DetectGpu(LinuxHost(p)) == Join(PciGpus(p.pci.value), ", ")
    ensures (ListingTier(p.drm, DrmGpus).None? && ListingTier(p.lspci, LspciGpus).None?
             && ListingTier(p.pci, PciGpus).None? && p.openGl.Some?) ==>
      DetectGpu(LinuxHost(p)) == p.openGl.value
    ensures (ListingTier(p.drm, DrmGpus).None? && ListingTier(p.lspci, LspciGpus).None?
             && ListingTier(p.pci, PciGpus).None? && p.openGl.None?) ==>
      DetectGpu(LinuxHost(p)) == p.vulkan.GetOr("Unknown")
  {
    var t := LinuxTiers(p);
    if t[0].Some? {
      FallbackFirstWins(t, 0);
    } else if t[1].Some? {
      FallbackFirstWins(t, 1);
    } else if t[2].Some? {
      FallbackFirstWins(t, 2);
    } else if t[3].Some? {
      FallbackFirstWins(t, 3);
    } else if t[4].Some? {
      FallbackFirstWins(t, 4);
    }
  }

  /** A chain of three tiers, unrolled. */
  lemma ChainOfThree(a: Option<string>, b: Option<string>, c: Option<string>)
    ensures Fallback([a, b, c]) ==
      if a.Some? then a.value else if b.Some? then b.value else c.GetOr("Unknown")
  {
    var t := [a, b, c];
    if a.Some? {
      FallbackFirstWins(t, 0);
    } else if b.Some? {
      FallbackFirstWins(t, 1);
    } else if c.Some? {
      FallbackFirstWins(t, 2);
    }
  }

  /** The macOS chain: IOKit names, then the `ioreg` matcher, then `system_profiler`. */
  lemma MacChain(p: MacProbe)
    ensures Dedup(NonEmpty, IokitNames(p.services)) != [] ==>
      DetectGpu(MacHost(p)) == Join(Dedup(NonEmpty, IokitNames(p.services)), ", ")
    ensures Dedup(NonEmpty, IokitNames(p.services)) == [] && IoregTier(p.ioreg).Some? ==>
      DetectGpu(MacHost(p)) == IoregTier(p.ioreg).value
    ensures Dedup(NonEmpty, IokitNames(p.services)) == [] && IoregTier(p.ioreg).None? ==>
      DetectGpu(MacHost(p)) == if p.profiler.Some? then ProfilerDetails(p.profiler.value) else "Unknown"
  {
    ChainOfThree(ListTier(Dedup(NonEmpty, IokitNames(p.services))), IoregTier(p.ioreg), ProfilerTier(p.profiler));
  }
}

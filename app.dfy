/** The program's wiring (src/main.rs:13-22) and the embedded logo lookup (src/ascii.rs:5-12):
    read the configuration or fall back to the defaults, take the snapshot, look up the logo by
    the distribution id, and render. */
module App {
  import opened Wrappers
  import opened Text
  import opened Settings
  import System
  import Gpu
  import Ui

  const LogoNotFound := "Logo not found"

  /** `get_ascii_logo`: the embedded file "<distro_id>.txt". `logos` maps each embedded file name
      to its contents, `None` for a file that is not valid UTF-8. */
  function GetAsciiLogo(logos: map<string, Option<string>>, distroId: string): (logo: string)
    ensures var name := distroId + ".txt";
      logo == if name in logos && logos[name].Some? then logos[name].value else LogoNotFound
  {
    var name := distroId + ".txt";
    if name in logos then logos[name].GetOr(LogoNotFound) else LogoNotFound
  }

  /** A missing or undecodable logo file gives the one-line logo "Logo not found". */
  lemma MissingLogoLines(logos: map<string, Option<string>>, distroId: string)
    requires !(distroId + ".txt" in logos && logos[distroId + ".txt"].Some?)
    ensures Lines(GetAsciiLogo(logos, distroId)) == [LogoNotFound]
  {
    var s := LogoNotFound;
    assert forall j :: 0 <= j < |s| ==> s[j] != '\n';
    assert IndexOf(s, '\n') == |s|;
  }

  /** Without a logo for the snapshot's distribution id, the left column shows "Logo not found"
      on the first output line and blanks of the same width below it, beside the whole box. */
  lemma {:induction false} FrameWithoutLogo(logos: map<string, Option<string>>, info: System.SystemInfo, config: Config,
                         ufmt: Ui.UiFormatters)
    requires var name := info.distroId + ".txt"; !(name in logos && logos[name].Some?)
    ensures var out := Ui.Render(GetAsciiLogo(logos, info.distroId), info, config, ufmt).lines;
      var pairs := Ui.InfoPairs(config, info, ufmt);
      && |out| == Max(1, |pairs| + 4)
      && out[0].logo == LogoNotFound
      && forall i :: 1 <= i < |out| ==> out[i].logo == Spaces(|LogoNotFound|)
  {
    var logo := GetAsciiLogo(logos, info.distroId);
    MissingLogoLines(logos, info.distroId);
    var pairs := Ui.InfoPairs(config, info, ufmt);
    var w := Ui.BoxWidth(pairs);
    assert Ui.Render(logo, info, config, ufmt).lines == Ui.Layout(Lines(logo), Ui.Box(pairs, w), w);
    Ui.LogoColumn(Lines(logo), pairs);
    assert Ui.LogoWidth([LogoNotFound]) == |LogoNotFound|;
  }

  /** With a logo for the snapshot's distribution id, its lines fill the left column from the top,
      each padded to the widest one. */
  lemma {:induction false} FrameWithLogo(logos: map<string, Option<string>>, info: System.SystemInfo, config: Config,
                      ufmt: Ui.UiFormatters)
    requires var name := info.distroId + ".txt"; name in logos && logos[name].Some?
    ensures var logoLines := Lines(logos[info.distroId + ".txt"].value);
      var out := Ui.Render(GetAsciiLogo(logos, info.distroId), info, config, ufmt).lines;
      var pairs := Ui.InfoPairs(config, info, ufmt);
      && |out| == Max(|logoLines|, |pairs| + 4)
      && forall i :: 0 <= i < |logoLines| ==>
           |out[i].logo| == Ui.LogoWidth(logoLines) && out[i].logo[..|logoLines[i]|] == logoLines[i]
  {
    var logo := GetAsciiLogo(logos, info.distroId);
    var pairs := Ui.InfoPairs(config, info, ufmt);
    var w := Ui.BoxWidth(pairs);
    assert logo == logos[info.distroId + ".txt"].value;
    assert Ui.Render(logo, info, config, ufmt).lines == Ui.Layout(Lines(logo), Ui.Box(pairs, w), w);
    Ui.LogoColumn(Lines(logo), pairs);
  }

  /** `main`: `configFile` is what `Config::from_exe_dir` read, `None` when it failed. */
  function Run(configFile: Option<Config>, p: System.Probes, sfmt: System.Formatters,
               ufmt: Ui.UiFormatters, logos: map<string, Option<string>>): (r: Ui.Frame)
    ensures |r.lines| >= 4
    ensures forall i :: 0 <= i < |r.lines| ==> r.lines[i].indent == r.lines[0].indent
  {
    var config := configFile.GetOr(Default());
    var info := System.GetSystemInfo(config, p, sfmt);
    Ui.Render(GetAsciiLogo(logos, info.distroId), info, config, ufmt)
  }

  /** Without a configuration file the logo is drawn in white (its default colour list is not a
      single colour) and the box in #FFFFFF. */
  lemma RunDefaultColors(p: System.Probes, sfmt: System.Formatters, ufmt: Ui.UiFormatters,
                         logos: map<string, Option<string>>)
    ensures Run(None, p, sfmt, ufmt, logos).logoColor == Ui.White
    ensures Run(None, p, sfmt, ufmt, logos).infoColor == Ui.Rgb(255, 255, 255)
  {
    Ui.DefaultLogoColor();
    Ui.DefaultInfoColor();
  }

  /** Without a configuration file every one of the ten fixed rows is shown, whatever the snapshot. */
  lemma DefaultShowsEveryRow(info: System.SystemInfo, ufmt: Ui.UiFormatters, k: nat)
    requires k < |Ui.FixedLabels|
    ensures var pairs := Ui.InfoPairs(Default(), info, ufmt);
      exists i :: 0 <= i < |pairs| && pairs[i].0 == Ui.FixedLabels[k]
  {
    Ui.RowPresence(Default(), info, ufmt, k);
    var cands := Ui.Candidates(Default(), info, ufmt);
    assert cands[k].shown by {
      assert forall j :: 0 <= j < |cands| ==> cands[j].shown;
    }
  }

  /** On Windows with two or more adapters the GPU string has one line per adapter, so the GPU
      row line of the box holds a line break: printed, it becomes two terminal lines, neither as
      wide as the box, and the value repeats the "GPU" label. */
  lemma {:induction false} MultiAdapterGpuRow(gpus: seq<string>, w: nat)
    requires |gpus| >= 2
    ensures var lines := Gpu.AdapterLines(gpus);
      StartsWith(Gpu.WindowsLabel(gpus), lines[0] + "\n")
      && '\n' in Ui.PadBoxLine("GPU", Gpu.WindowsLabel(gpus), w)
  {
    var lines := Gpu.AdapterLines(gpus);
    var value := Gpu.WindowsLabel(gpus);
    assert value == lines[0] + "\n" + Join(lines[1..], "\n");
    assert value[|lines[0]|] == '\n';
    var content := Ui.Content("GPU", value);
    assert content == PadRight("GPU", Ui.LabelWidth) + ": " + value;
    assert content[12 + |lines[0]|] == '\n';
    var r := Ui.PadBoxLine("GPU", value, w);
    assert r[3..3 + |content|] == content;
    assert r[15 + |lines[0]|] == '\n';
  }

  /** The snapshot gates the swap sizes by the memory toggle, so with memory hidden and swap
      shown the Swap row is present but reads "N/A / N/A (...)", and there is no Memory row. */
  lemma SwapRowWithoutMemory(config: Config, p: System.Probes, sfmt: System.Formatters, ufmt: Ui.UiFormatters)
    requires config.showMemory == Some(false) && On(config.showSwap)
    ensures var info := System.GetSystemInfo(config, p, sfmt);
      var pairs := Ui.InfoPairs(config, info, ufmt);
      && (exists i :: 0 <= i < |pairs| && pairs[i].0 == "Swap")
      && (forall i :: 0 <= i < |pairs| && pairs[i].0 == "Swap" ==> StartsWith(pairs[i].1, "N/A / N/A ("))
      && (forall i :: 0 <= i < |pairs| ==> pairs[i].0 != "Memory")
  {
    System.SnapshotGating(config, p, sfmt);
    SwapRowOf(config, System.GetSystemInfo(config, p, sfmt), ufmt);
  }

  /** The rows of a snapshot without swap sizes, with memory hidden and swap shown. */
  lemma SwapRowOf(config: Config, info: System.SystemInfo, ufmt: Ui.UiFormatters)
    requires config.showMemory == Some(false) && On(config.showSwap)
    requires info.usedSwap.None? && info.totalSwap.None?
    ensures var pairs := Ui.InfoPairs(config, info, ufmt);
      && (exists i :: 0 <= i < |pairs| && pairs[i].0 == "Swap")
      && (forall i :: 0 <= i < |pairs| && pairs[i].0 == "Swap" ==> StartsWith(pairs[i].1, "N/A / N/A ("))
      && (forall i :: 0 <= i < |pairs| ==> pairs[i].0 != "Memory")
  {
    var cands := Ui.Candidates(config, info, ufmt);
    Ui.RowPresence(config, info, ufmt, 5);
    Ui.RowPresence(config, info, ufmt, 6);
    assert cands[6].shown && !cands[5].shown;
    assert cands[6].value == Ui.UsageValue(None, None, ufmt);
  }
}

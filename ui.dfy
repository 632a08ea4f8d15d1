/** The box renderer of `display_output` (src/ui.rs): the label/value rows chosen by the
    configuration, the bordered "System Information" box around them, the pairing of box lines
    with logo lines centred in an 80-column terminal, and the two colours. Printing is not
    modelled: the output is the list of lines, each split into its indent, logo and box parts. */
module Ui {
  import opened Wrappers
  import opened Text
  import opened Settings
  import Storage
  import System

  const Title: string := "System Information"
  const LabelWidth: nat := 10
  const TermWidth: nat := 80
  /** The left border and the two-space `left_pad` that open every inner box line. */
  const Inset: string := "│  "
  /** The separator printed between the logo and a box line. */
  const Gutter: string := "    "

  // ---------------------------------------------------------------------------------------------
  // Box lines (src/ui.rs:6-21)

  /** The row content: the label left-aligned to width 10. */
  function Content(rowLabel: string, value: string): (r: string)
    ensures |r| == Max(|rowLabel|, LabelWidth) + 2 + |value|
  {
    PadRight(rowLabel, LabelWidth) + ": " + value
  }

  /** `pad_box_title`: the title centred in the `box_width - 4` columns between the inset and the
      right border, the odd fill space on the right. */
  function PadBoxTitle(title: string, boxWidth: nat): (r: string)
    ensures |r| == Max(|title|, SatSub(boxWidth, 4)) + 4
    ensures |title| + 4 <= boxWidth ==>
      var fill := boxWidth - 4 - |title|;
      r == Inset + Spaces(fill / 2) + title + Spaces(fill - fill / 2) + "│"
  {
    var contentWidth := SatSub(boxWidth, 2 + 2);
    var centered := Center(title, contentWidth);
    var pad := SatSub(contentWidth, |centered|);
    assert pad == 0;
    Inset + centered + Spaces(pad) + "│"
  }

  /** `pad_box_line`: the inset, the content, spaces up to the right border, the border. */
  function PadBoxLine(rowLabel: string, value: string, boxWidth: nat): (r: string)
    ensures |r| == Max(|Content(rowLabel, value)|, SatSub(boxWidth, 4)) + 4
    ensures |Content(rowLabel, value)| + 4 <= boxWidth ==> |r| == boxWidth
    ensures r[..3] == Inset && r[|r| - 1] == '│'
    ensures r[3..3 + |Content(rowLabel, value)|] == Content(rowLabel, value)
    ensures forall i :: 3 + |Content(rowLabel, value)| <= i < |r| - 1 ==> r[i] == ' '
  {
    var content := Content(rowLabel, value);
    var contentWidth := SatSub(boxWidth, 2 + 2);
    var pad := SatSub(contentWidth, |content|);
    var r := Inset + content + Spaces(pad) + "│";
    assert r[3..3 + |content|] == content;
    r
  }

  /** Reading a row line back: strip the border, the inset and the trailing fill, then split the
      label column from the value at the ": " after it. */
  function ReadRow(line: string): Option<(string, string)> {
    if |line| < 4 || line[..3] != Inset || line[|line| - 1] != '│' then None
    else
      var content := TrimEnd(line[3..|line| - 1]);
      if |content| < LabelWidth + 2 || content[LabelWidth..LabelWidth + 2] != ": " then None
      else Some((TrimEnd(content[..LabelWidth]), content[LabelWidth + 2..]))
  }

  /** A row that can be read back: the label fits its column and neither it nor the value ends
      in whitespace, which the padding would otherwise absorb. */
  predicate Readable(rowLabel: string, value: string) {
    && |rowLabel| <= LabelWidth
    && (rowLabel == [] || !IsSpace(rowLabel[|rowLabel| - 1]))
    && value != [] && !IsSpace(value[|value| - 1])
  }

  /** The columns of a row's content when the label fits its width. */
  lemma {:induction false} ContentColumns(rowLabel: string, value: string)
    requires |rowLabel| <= LabelWidth
    ensures var content := Content(rowLabel, value);
      && content[..LabelWidth] == rowLabel + Spaces(LabelWidth - |rowLabel|)
      && content[LabelWidth..LabelWidth + 2] == ": "
      && content[LabelWidth + 2..] == value
  {
    var padded := PadRight(rowLabel, LabelWidth);
    assert padded == rowLabel + Spaces(LabelWidth - |rowLabel|);
    var content := padded + ": " + value;
    assert content[..LabelWidth] == padded;
  }

  /** The text between the inset and the right border of a row line is its content followed by
      spaces. */
  lemma {:induction false} LineInterior(rowLabel: string, value: string, boxWidth: nat)
    requires |Content(rowLabel, value)| + 4 <= boxWidth
    ensures var line := PadBoxLine(rowLabel, value, boxWidth);
      var content := Content(rowLabel, value);
      && |line| == boxWidth && line[..3] == Inset && line[|line| - 1] == '│'
      && line[3..|line| - 1] == content + Spaces(boxWidth - 4 - |content|)
  {
    var line := PadBoxLine(rowLabel, value, boxWidth);
    var content := Content(rowLabel, value);
    var inner := line[3..|line| - 1];
    assert inner[..|content|] == line[3..3 + |content|];
    assert forall i :: |content| <= i < |inner| ==> inner[i] == line[i + 3] == ' ';
    assert inner == inner[..|content|] + inner[|content|..];
  }

  /** Stripping the border and the padding from a row line recovers its label and value. */
  lemma {:induction false} RowReadBack(rowLabel: string, value: string, boxWidth: nat)
    requires Readable(rowLabel, value) && |Content(rowLabel, value)| + 4 <= boxWidth
    ensures ReadRow(PadBoxLine(rowLabel, value, boxWidth)) == Some((rowLabel, value))
  {
    RowParts(rowLabel, value, boxWidth);
    ReadRowOf(PadBoxLine(rowLabel, value, boxWidth), Content(rowLabel, value), rowLabel, value);
  }

  /** The parts of a readable row line that `ReadRow` looks at. */
  lemma {:induction false} RowParts(rowLabel: string, value: string, boxWidth: nat)
    requires Readable(rowLabel, value) && |Content(rowLabel, value)| + 4 <= boxWidth
    ensures var line := PadBoxLine(rowLabel, value, boxWidth);
      var content := Content(rowLabel, value);
      && |line| >= 4 && line[..3] == Inset && line[|line| - 1] == '│'
      && TrimEnd(line[3..|line| - 1]) == content
      && |content| >= LabelWidth + 2 && content[LabelWidth..LabelWidth + 2] == ": "
      && TrimEnd(content[..LabelWidth]) == rowLabel && content[LabelWidth + 2..] == value
  {
    LineInterior(rowLabel, value, boxWidth);
    InteriorTrimmed(rowLabel, value, boxWidth);
    ContentParts(rowLabel, value);
  }

  /** The label column of a readable row's content trims back to the label. */
  lemma {:induction false} ContentParts(rowLabel: string, value: string)
    requires Readable(rowLabel, value)
    ensures var content := Content(rowLabel, value);
      && |content| >= LabelWidth + 2 && content[LabelWidth..LabelWidth + 2] == ": "
      && TrimEnd(content[..LabelWidth]) == rowLabel && content[LabelWidth + 2..] == value
  {
    var content := Content(rowLabel, value);
    ContentColumns(rowLabel, value);
    var padded := rowLabel + Spaces(LabelWidth - |rowLabel|);
    assert content[..LabelWidth] == padded;
    TrimEndPadding(rowLabel, LabelWidth - |rowLabel|);
  }

  /** Trimming the interior of a row line gives back its content. */
  lemma {:induction false} InteriorTrimmed(rowLabel: string, value: string, boxWidth: nat)
    requires Readable(rowLabel, value) && |Content(rowLabel, value)| + 4 <= boxWidth
    ensures var line := PadBoxLine(rowLabel, value, boxWidth);
      TrimEnd(line[3..|line| - 1]) == Content(rowLabel, value)
  {
    var content := Content(rowLabel, value);
    LineInterior(rowLabel, value, boxWidth);
    assert content[|content| - 1] == value[|value| - 1];
    TrimEndPadding(content, boxWidth - 4 - |content|);
  }

  /** `ReadRow` on a line whose parts are known. */
  lemma {:induction false} ReadRowOf(line: string, content: string, rowLabel: string, value: string)
    requires |line| >= 4 && line[..3] == Inset && line[|line| - 1] == '│'
    requires TrimEnd(line[3..|line| - 1]) == content
    requires |content| >= LabelWidth + 2 && content[LabelWidth..LabelWidth + 2] == ": "
    requires TrimEnd(content[..LabelWidth]) == rowLabel && content[LabelWidth + 2..] == value
    ensures ReadRow(line) == Some((rowLabel, value))
  {
  }

  // ---------------------------------------------------------------------------------------------
  // The rows (src/ui.rs:27-112)

  /** The floating-point step left opaque: `percent(used, total)` is the rendering, with no decimals, of the
      rounded percentage `parse_gb` reads from the two formatted sizes (0 when the total is 0). */
  datatype UiFormatters = UiFormatters(percent: (string, string) -> string)

  /** The memory and swap value: "<used> / <total> (<percent>%)", "N/A" for a missing size. */
  function UsageValue(used: Option<string>, total: Option<string>, fmt: UiFormatters): (r: string)
    ensures StartsWith(r, used.GetOr("N/A") + " / " + total.GetOr("N/A") + " (")
  {
    var head := used.GetOr("N/A") + " / " + total.GetOr("N/A") + " (";
    var r := head + fmt.percent(used.GetOr("0"), total.GetOr("0")) + "%)";
    assert r[..|head|] == head;
    r
  }

  /** The ten fixed rows, in display order. */
  const FixedLabels: seq<string> :=
    ["Distro", "Distro ID", "Kernel", "CPU", "GPU", "Memory", "Swap", "Local IP", "Battery", "Uptime"]

  datatype Candidate = Candidate(shown: bool, caption: string, value: string)

  /** The fixed rows as a table: toggle, label and value (an absent optional field reads "N/A"). */
  function Candidates(c: Config, info: System.SystemInfo, fmt: UiFormatters): (r: seq<Candidate>)
    ensures |r| == |FixedLabels|
    ensures forall k :: 0 <= k < |r| ==> r[k].caption == FixedLabels[k]
  {
    [Candidate(On(c.showDistro), "Distro", info.distro),
     Candidate(On(c.showDistroId), "Distro ID", info.distroId),
     Candidate(On(c.showKernel), "Kernel", info.kernel),
     Candidate(On(c.showCpu), "CPU", info.cpu.GetOr("N/A")),
     Candidate(On(c.showGpu), "GPU", info.gpu.GetOr("N/A")),
     Candidate(On(c.showMemory), "Memory", UsageValue(info.usedMemory, info.totalMemory, fmt)),
     Candidate(On(c.showSwap), "Swap", UsageValue(info.usedSwap, info.totalSwap, fmt)),
     Candidate(On(c.showLocalIp), "Local IP", info.localIp.GetOr("N/A")),
     Candidate(On(c.showBattery), "Battery", info.battery.GetOr("N/A")),
     Candidate(On(c.showUptime), "Uptime", info.uptime.GetOr("N/A"))]
  }

  function Shown(c: Candidate): Option<(string, string)> {
    if c.shown then Some((c.caption, c.value)) else None
  }

  /** A disk row: "Disk (<name>)", and "<used> / <total> (<percent>%) - <fs_type>" with
      " [Read-only]" appended exactly for a read-only volume. */
  function DiskRow(d: Storage.StorageInfo): (row: (string, string))
    ensures row.0 == "Disk (" + d.name + ")"
    ensures var base := d.used + " / " + d.total + " (" + NatToString(d.percent) + "%) - " + d.fsType;
      && StartsWith(row.1, base)
      && (d.readonly <==> |row.1| == |base| + 12)
      && (d.readonly ==> row.1[|base|..] == " [Read-only]")
      && (!d.readonly ==> row.1 == base)
  {
    var ro := if d.readonly then " [Read-only]" else "";
    var base := d.used + " / " + d.total + " (" + NatToString(d.percent) + "%) - " + d.fsType;
    var value := base + ro;
    assert value[..|base|] == base && value[|base|..] == ro;
    ("Disk (" + d.name + ")", value)
  }

  function DiskRows(storage: seq<Storage.StorageInfo>): (r: seq<(string, string)>)
    ensures |r| == |storage|
  {
    seq(|storage|, i requires 0 <= i < |storage| => DiskRow(storage[i]))
  }

  /** The rows of the box: the fixed rows whose toggle is on, then one row per storage entry. */
  function InfoPairs(c: Config, info: System.SystemInfo, fmt: UiFormatters): (r: seq<(string, string)>)
    ensures |info.storage| <= |r| <= |info.storage| + 10
    ensures r[|r| - |info.storage|..] == DiskRows(info.storage)
  {
    FixedRows(c, info, fmt) + DiskRows(info.storage)
  }

  /** One conditional push: the row when it is shown, nothing otherwise. */
  function Row(shown: bool, caption: string, value: string): (r: seq<(string, string)>)
    ensures |r| <= 1
  {
    if shown then [(caption, value)] else []
  }

  /** The toggled rows, one conditional push after the other. */
  function FixedRows(c: Config, info: System.SystemInfo, fmt: UiFormatters): (r: seq<(string, string)>)
    ensures |r| <= 10
  {
    Row(On(c.showDistro), "Distro", info.distro)
      + Row(On(c.showDistroId), "Distro ID", info.distroId)
      + Row(On(c.showKernel), "Kernel", info.kernel)
      + Row(On(c.showCpu), "CPU", info.cpu.GetOr("N/A"))
      + Row(On(c.showGpu), "GPU", info.gpu.GetOr("N/A"))
      + Row(On(c.showMemory), "Memory", UsageValue(info.usedMemory, info.totalMemory, fmt))
      + Row(On(c.showSwap), "Swap", UsageValue(info.usedSwap, info.totalSwap, fmt))
      + Row(On(c.showLocalIp), "Local IP", info.localIp.GetOr("N/A"))
      + Row(On(c.showBattery), "Battery", info.battery.GetOr("N/A"))
      + Row(On(c.showUptime), "Uptime", info.uptime.GetOr("N/A"))
  }

  /** The pushes agree with the table: the toggled rows are the shown candidates, in order. */
  lemma FixedRowsTable(c: Config, info: System.SystemInfo, fmt: UiFormatters)
    ensures FixedRows(c, info, fmt) == FilterMap(Shown, Candidates(c, info, fmt))
  {
    AllRows(Candidates(c, info, fmt));
  }

  /** The ten candidates give their rows one after the other. */
  lemma AllRows(cands: seq<Candidate>)
    requires |cands| == |FixedLabels|
    ensures FilterMap(Shown, cands) ==
      Row(cands[0].shown, cands[0].caption, cands[0].value)
      + Row(cands[1].shown, cands[1].caption, cands[1].value)
      + Row(cands[2].shown, cands[2].caption, cands[2].value)
      + Row(cands[3].shown, cands[3].caption, cands[3].value)
      + Row(cands[4].shown, cands[4].caption, cands[4].value)
      + Row(cands[5].shown, cands[5].caption, cands[5].value)
      + Row(cands[6].shown, cands[6].caption, cands[6].value)
      + Row(cands[7].shown, cands[7].caption, cands[7].value)
      + Row(cands[8].shown, cands[8].caption, cands[8].value)
      + Row(cands[9].shown, cands[9].caption, cands[9].value)
  {
    FirstFiveRows(cands);
    TableStep(cands, 5);
    TableStep(cands, 6);
    TableStep(cands, 7);
    TableStep(cands, 8);
    TableStep(cands, 9);
    assert cands[..10] == cands;
  }

  /** The first five candidates give their rows one after the other. */
  lemma FirstFiveRows(cands: seq<Candidate>)
    requires |cands| == |FixedLabels|
    ensures FilterMap(Shown, cands[..5]) ==
      Row(cands[0].shown, cands[0].caption, cands[0].value)
      + Row(cands[1].shown, cands[1].caption, cands[1].value)
      + Row(cands[2].shown, cands[2].caption, cands[2].value)
      + Row(cands[3].shown, cands[3].caption, cands[3].value)
      + Row(cands[4].shown, cands[4].caption, cands[4].value)
  {
    assert cands[..0] == [];
    TableStep(cands, 0);
    assert FilterMap(Shown, cands[..1]) == Row(cands[0].shown, cands[0].caption, cands[0].value);
    TableStep(cands, 1);
    TableStep(cands, 2);
    TableStep(cands, 3);
    TableStep(cands, 4);
  }

  /** One more candidate adds its row. */
  lemma TableStep(cands: seq<Candidate>, k: nat)
    requires k < |cands|
    ensures FilterMap(Shown, cands[..k + 1]) ==
      FilterMap(Shown, cands[..k]) + Row(cands[k].shown, cands[k].caption, cands[k].value)
  {
    FilterMapSnoc(Shown, cands, k);
  }

  /** `if toggle { info_pairs.push((caption, value)) }`. */
  method PushIf(pairs: seq<(string, string)>, toggle: bool, caption: string, value: string)
    returns (pairs': seq<(string, string)>)
    ensures pairs' == pairs + Row(toggle, caption, value)
  {
    pairs' := pairs;
    if toggle {
      pairs' := pairs' + [(caption, value)];
    }
  }

  /** The ten toggled pushes of `display_output`. */
  method CollectFixedRows(config: Config, info: System.SystemInfo, fmt: UiFormatters)
    returns (infoPairs: seq<(string, string)>)
    ensures infoPairs == FixedRows(config, info, fmt)
  {
    var memVal := UsageValue(info.usedMemory, info.totalMemory, fmt);
    var swapVal := UsageValue(info.usedSwap, info.totalSwap, fmt);
    infoPairs := [];
    infoPairs := PushIf(infoPairs, On(config.showDistro), "Distro", info.distro);
    assert infoPairs == Row(On(config.showDistro), "Distro", info.distro);
    infoPairs := PushIf(infoPairs, On(config.showDistroId), "Distro ID", info.distroId);
    infoPairs := PushIf(infoPairs, On(config.showKernel), "Kernel", info.kernel);
    infoPairs := PushIf(infoPairs, On(config.showCpu), "CPU", info.cpu.GetOr("N/A"));
    infoPairs := PushIf(infoPairs, On(config.showGpu), "GPU", info.gpu.GetOr("N/A"));
    infoPairs := PushIf(infoPairs, On(config.showMemory), "Memory", memVal);
    infoPairs := PushIf(infoPairs, On(config.showSwap), "Swap", swapVal);
    infoPairs := PushIf(infoPairs, On(config.showLocalIp), "Local IP", info.localIp.GetOr("N/A"));
    infoPairs := PushIf(infoPairs, On(config.showBattery), "Battery", info.battery.GetOr("N/A"));
    infoPairs := PushIf(infoPairs, On(config.showUptime), "Uptime", info.uptime.GetOr("N/A"));
  }

  /** The push sequence of `display_output` that builds `info_pairs`: the toggled rows, then one
      row per storage entry. */
  method CollectInfoPairs(config: Config, info: System.SystemInfo, fmt: UiFormatters)
    returns (infoPairs: seq<(string, string)>)
    ensures infoPairs == InfoPairs(config, info, fmt)
  {
    infoPairs := CollectFixedRows(config, info, fmt);
    ghost var fixed := infoPairs;
    for i := 0 to |info.storage|
      invariant infoPairs == fixed + DiskRows(info.storage[..i])
    {
      var disk := info.storage[i];
      var ro := if disk.readonly then " [Read-only]" else "";
      var rowLabel := "Disk (" + disk.name + ")";
      var value := disk.used + " / " + disk.total + " (" + NatToString(disk.percent) + "%) - " + disk.fsType + ro;
      assert (rowLabel, value) == DiskRow(disk);
      DiskRowsSnoc(info.storage, i);
      infoPairs := infoPairs + [(rowLabel, value)];
    }
    assert info.storage[..|info.storage|] == info.storage;
    assert infoPairs == fixed + DiskRows(info.storage);
  }

  lemma DiskRowsSnoc(storage: seq<Storage.StorageInfo>, i: nat)
    requires i < |storage|
    ensures DiskRows(storage[..i + 1]) == DiskRows(storage[..i]) + [DiskRow(storage[i])]
  {
    var longer := DiskRows(storage[..i + 1]);
    forall j | 0 <= j < i
      ensures longer[j] == DiskRows(storage[..i])[j]
    {
    }
  }

  /** Position of a label in the fixed order; 10 for any other label. */
  function Rank(rowLabel: string): (k: nat)
    ensures k <= |FixedLabels|
    ensures k < |FixedLabels| ==> FixedLabels[k] == rowLabel
    ensures k == |FixedLabels| ==> rowLabel !in FixedLabels
  {
    RankFrom(rowLabel, 0)
  }

  function RankFrom(rowLabel: string, k: nat): (r: nat)
    requires k <= |FixedLabels|
    ensures k <= r <= |FixedLabels|
    ensures r < |FixedLabels| ==> FixedLabels[r] == rowLabel
    ensures r == |FixedLabels| ==> forall j :: k <= j < |FixedLabels| ==> FixedLabels[j] != rowLabel
    decreases |FixedLabels| - k
  {
    if k == |FixedLabels| then k
    else if FixedLabels[k] == rowLabel then k
    else RankFrom(rowLabel, k + 1)
  }

  function PairRank(p: (string, string)): int {
    Rank(p.0)
  }

  /** The fixed labels are distinct: each one's rank is its position. */
  lemma RankOfFixed(k: nat)
    requires k < |FixedLabels|
    ensures Rank(FixedLabels[k]) == k
  {
    var r := Rank(FixedLabels[k]);
    assert forall i, j :: 0 <= i < j < |FixedLabels| ==> FixedLabels[i] != FixedLabels[j];
    assert FixedLabels[r] == FixedLabels[k];
  }

  /** A disk label is never one of the fixed labels. */
  lemma DiskLabelRank(name: string)
    ensures Rank("Disk (" + name + ")") == |FixedLabels|
  {
    var rowLabel := "Disk (" + name + ")";
    forall k | 0 <= k < |FixedLabels|
      ensures FixedLabels[k] != rowLabel
    {
      assert rowLabel[3] == 'k';
      assert |FixedLabels[k]| < 4 || FixedLabels[k][3] != 'k';
    }
  }

  /** A row with a fixed label comes before every later row, and a later row with a fixed label
      has a later place in the table. */
  predicate FixedFirstInOrder(pairs: seq<(string, string)>) {
    forall i, j :: 0 <= i < j < |pairs| && Rank(pairs[i].0) < |FixedLabels| ==> Rank(pairs[i].0) < Rank(pairs[j].0)
  }

  /** The fixed rows keep the order Distro, Distro ID, Kernel, CPU, GPU, Memory, Swap, Local IP,
      Battery, Uptime, and all of them come before the disk rows, which follow the storage
      entries in order. */
  lemma RowOrder(c: Config, info: System.SystemInfo, fmt: UiFormatters)
    ensures FixedFirstInOrder(InfoPairs(c, info, fmt))
    ensures var pairs := InfoPairs(c, info, fmt);
      |pairs| >= |info.storage| && pairs[|pairs| - |info.storage|..] == DiskRows(info.storage)
  {
    var cands := Candidates(c, info, fmt);
    var pairs := InfoPairs(c, info, fmt);
    FixedRowsTable(c, info, fmt);
    assert pairs == FilterMap(Shown, cands) + DiskRows(info.storage);
    TableOrder(cands, info.storage);
  }

  /** The order of the shown table rows followed by the disk rows, for any table with the fixed
      captions. */
  lemma TableOrder(cands: seq<Candidate>, storage: seq<Storage.StorageInfo>)
    requires |cands| == |FixedLabels|
    requires forall j :: 0 <= j < |cands| ==> cands[j].caption == FixedLabels[j]
    ensures FixedFirstInOrder(FilterMap(Shown, cands) + DiskRows(storage))
    ensures var pairs := FilterMap(Shown, cands) + DiskRows(storage);
      |pairs| >= |storage| && pairs[|pairs| - |storage|..] == DiskRows(storage)
  {
    var fixed := FilterMap(Shown, cands);
    var disks := DiskRows(storage);
    forall k | 0 <= k < |cands| && Shown(cands[k]).Some?
      ensures PairRank(Shown(cands[k]).value) == k
    {
      RankOfFixed(k);
    }
    FilterMapOrdered(Shown, cands, PairRank);
    forall j | 0 <= j < |disks|
      ensures Rank(disks[j].0) == |FixedLabels|
    {
      DiskLabelRank(storage[j].name);
    }
    FixedThenDisks(fixed, disks);
    assert (fixed + disks)[|fixed + disks| - |storage|..] == disks;
  }

  /** Rows ordered by rank, all of fixed labels, followed by rows of no fixed label. */
  lemma FixedThenDisks(fixed: seq<(string, string)>, disks: seq<(string, string)>)
    requires forall i :: 0 <= i < |fixed| ==> PairRank(fixed[i]) < |FixedLabels|
    requires forall i, j :: 0 <= i < j < |fixed| ==> PairRank(fixed[i]) < PairRank(fixed[j])
    requires forall j :: 0 <= j < |disks| ==> Rank(disks[j].0) == |FixedLabels|
    ensures FixedFirstInOrder(fixed + disks)
  {
    var pairs := fixed + disks;
    forall i, j | 0 <= i < j < |pairs| && Rank(pairs[i].0) < |FixedLabels|
      ensures Rank(pairs[i].0) < Rank(pairs[j].0)
    {
      if j < |fixed| {
        assert pairs[i] == fixed[i] && pairs[j] == fixed[j];
      } else {
        assert pairs[j] == disks[j - |fixed|];
      }
    }
  }

  /** Some row carries the label. */
  predicate HasRow(pairs: seq<(string, string)>, rowLabel: string) {
    exists i :: 0 <= i < |pairs| && pairs[i].0 == rowLabel
  }

  /** Every row with the label carries the value. */
  predicate RowValueIs(pairs: seq<(string, string)>, rowLabel: string, value: string) {
    forall i :: 0 <= i < |pairs| && pairs[i].0 == rowLabel ==> pairs[i].1 == value
  }

  /** Each fixed row is present exactly when its toggle is unset or true, and then carries its
      value from the table. */
  lemma RowPresence(c: Config, info: System.SystemInfo, fmt: UiFormatters, k: nat)
    requires k < |FixedLabels|
    ensures HasRow(InfoPairs(c, info, fmt), FixedLabels[k]) <==> Candidates(c, info, fmt)[k].shown
    ensures RowValueIs(InfoPairs(c, info, fmt), FixedLabels[k], Candidates(c, info, fmt)[k].value)
  {
    var cands := Candidates(c, info, fmt);
    var pairs := InfoPairs(c, info, fmt);
    FixedRowsTable(c, info, fmt);
    assert pairs == FilterMap(Shown, cands) + DiskRows(info.storage);
    PresenceWithDisks(cands, info.storage, k);
  }

  /** The same for the shown table rows followed by any disk rows. */
  lemma PresenceWithDisks(cands: seq<Candidate>, storage: seq<Storage.StorageInfo>, k: nat)
    requires |cands| == |FixedLabels| && k < |FixedLabels|
    requires forall j :: 0 <= j < |cands| ==> cands[j].caption == FixedLabels[j]
    ensures HasRow(FilterMap(Shown, cands) + DiskRows(storage), FixedLabels[k]) <==> cands[k].shown
    ensures RowValueIs(FilterMap(Shown, cands) + DiskRows(storage), FixedLabels[k], cands[k].value)
  {
    var fixed := FilterMap(Shown, cands);
    var disks := DiskRows(storage);
    var pairs := fixed + disks;
    TablePresence(cands, k);
    if cands[k].shown {
      var i :| 0 <= i < |fixed| && fixed[i].0 == FixedLabels[k];
      assert pairs[i] == fixed[i];
    }
    forall i | 0 <= i < |pairs| && pairs[i].0 == FixedLabels[k]
      ensures i < |fixed| && pairs[i] == fixed[i]
    {
      if i >= |fixed| {
        RankOfFixed(k);
        assert pairs[i] == disks[i - |fixed|];
        DiskLabelRank(storage[i - |fixed|].name);
      }
    }
  }

  /** In the shown candidates, the row of label k is present exactly when candidate k is shown,
      and then carries candidate k's value. */
  lemma TablePresence(cands: seq<Candidate>, k: nat)
    requires |cands| == |FixedLabels| && k < |FixedLabels|
    requires forall j :: 0 <= j < |cands| ==> cands[j].caption == FixedLabels[j]
    ensures var fixed := FilterMap(Shown, cands);
      (exists i :: 0 <= i < |fixed| && fixed[i].0 == FixedLabels[k]) <==> cands[k].shown
    ensures var fixed := FilterMap(Shown, cands);
      forall i :: 0 <= i < |fixed| && fixed[i].0 == FixedLabels[k] ==> fixed[i].1 == cands[k].value
  {
    var fixed := FilterMap(Shown, cands);
    RankOfFixed(k);
    if cands[k].shown {
      var row := (FixedLabels[k], cands[k].value);
      assert Shown(cands[k]) == Some(row);
      FilterMapMembers(Shown, cands, row);
    }
    forall i | 0 <= i < |fixed| && fixed[i].0 == FixedLabels[k]
      ensures cands[k].shown && fixed[i].1 == cands[k].value
    {
      FilterMapMembers(Shown, cands, fixed[i]);
      var j :| 0 <= j < |cands| && Shown(cands[j]) == Some(fixed[i]);
      RankOfFixed(j);
    }
  }

  // ---------------------------------------------------------------------------------------------
  // The box (src/ui.rs:114-134)

  /** `max_content`: the widest row content, and never less than the title. */
  function MaxContent(pairs: seq<(string, string)>): (m: nat)
    ensures m >= |Title|
    ensures forall i :: 0 <= i < |pairs| ==> |Content(pairs[i].0, pairs[i].1)| <= m
    ensures m == |Title| || exists i :: 0 <= i < |pairs| && m == |Content(pairs[i].0, pairs[i].1)|
    decreases |pairs|
  {
    if pairs == [] then |Title|
    else
      var last := pairs[|pairs| - 1];
      var rest := MaxContent(pairs[..|pairs| - 1]);
      assert forall i :: 0 <= i < |pairs| - 1 ==> pairs[..|pairs| - 1][i] == pairs[i];
      Max(rest, |Content(last.0, last.1)|)
  }

  /** The loop of `display_output` that tracks `max_content`. */
  method MaxContentWidth(pairs: seq<(string, string)>) returns (maxContent: nat)
    ensures maxContent == MaxContent(pairs)
  {
    maxContent := |Title|;
    for i := 0 to |pairs|
      invariant maxContent == MaxContent(pairs[..i])
    {
      var content := Content(pairs[i].0, pairs[i].1);
      assert pairs[..i + 1][..i] == pairs[..i];
      if |content| > maxContent {
        maxContent := |content|;
      }
    }
    assert pairs[..|pairs|] == pairs;
  }

  /** `box_width`: the widest content plus the inset and the two borders. */
  function BoxWidth(pairs: seq<(string, string)>): nat {
    MaxContent(pairs) + 2 + 2
  }

  /** A horizontal border: the two corners around `width - 2` rules. */
  function Border(left: char, right: char, width: nat): (r: string)
    requires width >= 2
    ensures |r| == width && r[0] == left && r[width - 1] == right
    ensures forall i :: 0 < i < width - 1 ==> r[i] == '─'
  {
    [left] + Repeat('─', width - 2) + [right]
  }

  function RowLines(pairs: seq<(string, string)>, boxWidth: nat): (r: seq<string>)
    ensures |r| == |pairs|
  {
    seq(|pairs|, i requires 0 <= i < |pairs| => PadBoxLine(pairs[i].0, pairs[i].1, boxWidth))
  }

  /** `info_lines`: top border, title, separator, one line per row, bottom border. */
  function Box(pairs: seq<(string, string)>, boxWidth: nat): (r: seq<string>)
    requires boxWidth >= 2
    ensures |r| == |pairs| + 4
  {
    [Border('┌', '┐', boxWidth), PadBoxTitle(Title, boxWidth), Border('├', '┤', boxWidth)]
      + RowLines(pairs, boxWidth) + [Border('└', '┘', boxWidth)]
  }

  /** The pushes of `display_output` that build `info_lines`. */
  method BuildInfoLines(pairs: seq<(string, string)>, boxWidth: nat) returns (infoLines: seq<string>)
    requires boxWidth >= 2
    ensures infoLines == Box(pairs, boxWidth)
  {
    infoLines := [Border('┌', '┐', boxWidth), PadBoxTitle(Title, boxWidth), Border('├', '┤', boxWidth)];
    ghost var head := infoLines;
    for i := 0 to |pairs|
      invariant infoLines == head + RowLines(pairs[..i], boxWidth)
    {
      RowLinesSnoc(pairs, i, boxWidth);
      infoLines := infoLines + [PadBoxLine(pairs[i].0, pairs[i].1, boxWidth)];
    }
    assert pairs[..|pairs|] == pairs;
    infoLines := infoLines + [Border('└', '┘', boxWidth)];
  }

  lemma RowLinesSnoc(pairs: seq<(string, string)>, i: nat, boxWidth: nat)
    requires i < |pairs|
    ensures RowLines(pairs[..i + 1], boxWidth) ==
      RowLines(pairs[..i], boxWidth) + [PadBoxLine(pairs[i].0, pairs[i].1, boxWidth)]
  {
    var longer := RowLines(pairs[..i + 1], boxWidth);
    forall j | 0 <= j < i
      ensures longer[j] == RowLines(pairs[..i], boxWidth)[j]
    {
    }
  }

  /** Every row line is `box_width` wide when no row is wider than the widest content. */
  lemma RowLinesWidth(pairs: seq<(string, string)>)
    ensures var w := BoxWidth(pairs);
      forall i :: 0 <= i < |pairs| ==> |RowLines(pairs, w)[i]| == w
  {
    var w := BoxWidth(pairs);
    forall i | 0 <= i < |pairs|
      ensures |RowLines(pairs, w)[i]| == w
    {
      assert |Content(pairs[i].0, pairs[i].1)| <= MaxContent(pairs);
    }
  }

  /** The lines of the box by position: the three head lines, the row lines, the bottom border. */
  lemma BoxLines(pairs: seq<(string, string)>, w: nat)
    requires w >= 2
    ensures var b := Box(pairs, w);
      && |b| == |pairs| + 4
      && b[0] == Border('┌', '┐', w) && b[1] == PadBoxTitle(Title, w) && b[2] == Border('├', '┤', w)
      && b[|b| - 1] == Border('└', '┘', w)
      && forall i :: 0 <= i < |pairs| ==> b[i + 3] == RowLines(pairs, w)[i]
  {
    var head := [Border('┌', '┐', w), PadBoxTitle(Title, w), Border('├', '┤', w)];
    var rows := RowLines(pairs, w);
    var b := Box(pairs, w);
    assert b == head + rows + [Border('└', '┘', w)];
    forall i | 0 <= i < |pairs|
      ensures b[i + 3] == rows[i]
    {
      assert (head + rows)[i + 3] == rows[i];
    }
  }

  /** The box is a rectangle: rows + 4 lines, each exactly `box_width` wide. */
  lemma BoxRectangular(pairs: seq<(string, string)>)
    ensures var w := BoxWidth(pairs); var b := Box(pairs, w);
      && |b| == |pairs| + 4
      && forall i :: 0 <= i < |b| ==> |b[i]| == w
  {
    var w := BoxWidth(pairs);
    var b := Box(pairs, w);
    BoxLines(pairs, w);
    RowLinesWidth(pairs);
    assert |PadBoxTitle(Title, w)| == w;
    forall i | 0 <= i < |b|
      ensures |b[i]| == w
    {
      if 3 <= i < |b| - 1 {
        assert b[(i - 3) + 3] == RowLines(pairs, w)[i - 3];
      }
    }
  }

  /** A row line holds a line break only where its label or value does. */
  lemma {:induction false} RowLineSingle(rowLabel: string, value: string, w: nat)
    requires '\n' !in rowLabel && '\n' !in value
    ensures '\n' !in PadBoxLine(rowLabel, value, w)
  {
    var padded := PadRight(rowLabel, LabelWidth);
    assert padded == rowLabel + Spaces(SatSub(LabelWidth, |rowLabel|));
    var content := Content(rowLabel, value);
    assert content == padded + ": " + value;
    var pad := SatSub(SatSub(w, 4), |content|);
    assert PadBoxLine(rowLabel, value, w) == Inset + content + Spaces(pad) + "│";
  }

  lemma {:induction false} TitleSingle(w: nat)
    ensures '\n' !in PadBoxTitle(Title, w)
  {
    var cw := SatSub(w, 4);
    assert '\n' !in Title;
    var centered := Center(Title, cw);
    assert '\n' !in centered by {
      if cw > |Title| {
        var left := Spaces((cw - |Title|) / 2);
        var right := Spaces(cw - |Title| - (cw - |Title|) / 2);
        assert centered == left + Title + right;
        assert '\n' !in left && '\n' !in right;
      }
    }
    var fill := Spaces(SatSub(cw, |centered|));
    assert '\n' !in fill;
    assert PadBoxTitle(Title, w) == Inset + centered + fill + "│";
  }

  /** When no label and no value holds a line break, neither does any line of the box, so each
      box line is printed as exactly one terminal line. */
  lemma {:induction false} BoxSingleLines(pairs: seq<(string, string)>, w: nat)
    requires w >= 2
    requires forall i :: 0 <= i < |pairs| ==> '\n' !in pairs[i].0 && '\n' !in pairs[i].1
    ensures forall k :: 0 <= k < |Box(pairs, w)| ==> '\n' !in Box(pairs, w)[k]
  {
    var b := Box(pairs, w);
    BoxLines(pairs, w);
    TitleSingle(w);
    BorderSingle('┌', '┐', w);
    BorderSingle('├', '┤', w);
    BorderSingle('└', '┘', w);
    forall k | 0 <= k < |b|
      ensures '\n' !in b[k]
    {
      if k == 0 {
        assert b[k] == Border('┌', '┐', w);
      } else if k == 1 {
        assert b[k] == PadBoxTitle(Title, w);
      } else if k == 2 {
        assert b[k] == Border('├', '┤', w);
      } else if k == |b| - 1 {
        assert b[k] == Border('└', '┘', w);
      } else {
        assert b[(k - 3) + 3] == RowLines(pairs, w)[k - 3];
        RowLineSingle(pairs[k - 3].0, pairs[k - 3].1, w);
      }
    }
  }

  lemma {:induction false} BorderSingle(left: char, right: char, w: nat)
    requires w >= 2 && left != '\n' && right != '\n'
    ensures '\n' !in Border(left, right, w)
  {
    var r := Border(left, right, w);
    assert forall i :: 0 <= i < |r| ==> r[i] != '\n';
  }

  /** Every row line of the box reads back as its label and value. */
  lemma BoxRowReadBack(pairs: seq<(string, string)>, i: nat)
    requires i < |pairs| && Readable(pairs[i].0, pairs[i].1)
    ensures ReadRow(Box(pairs, BoxWidth(pairs))[i + 3]) == Some(pairs[i])
  {
    var w := BoxWidth(pairs);
    var (rowLabel, value) := pairs[i];
    BoxLines(pairs, w);
    assert Box(pairs, w)[i + 3] == RowLines(pairs, w)[i] == PadBoxLine(rowLabel, value, w);
    assert |Content(rowLabel, value)| <= MaxContent(pairs);
    RowReadBack(rowLabel, value, w);
  }

  // ---------------------------------------------------------------------------------------------
  // Pairing the logo with the box (src/ui.rs:136-166)

  /** `logo_width`: the longest logo line, 0 for no lines. */
  function LogoWidth(lines: seq<string>): (w: nat)
    ensures forall i :: 0 <= i < |lines| ==> |lines[i]| <= w
    ensures lines == [] ==> w == 0
    ensures lines != [] ==> exists i :: 0 <= i < |lines| && w == |lines[i]|
    decreases |lines|
  {
    if lines == [] then 0
    else
      var rest := LogoWidth(lines[..|lines| - 1]);
      assert forall i :: 0 <= i < |lines| - 1 ==> lines[..|lines| - 1][i] == lines[i];
      Max(rest, |lines[|lines| - 1]|)
  }

  /** `pad_left`: half the free columns of an 80-column terminal, rounded down; none when the
      logo, the gutter and the box do not fit. */
  function PadLeft(logoWidth: nat, boxWidth: nat): (p: nat)
    ensures var total := logoWidth + |Gutter| + boxWidth;
      && (total < TermWidth ==> p + total + p <= TermWidth <= p + total + p + 1)
      && (total >= TermWidth ==> p == 0)
  {
    var total := logoWidth + |Gutter| + boxWidth;
    if TermWidth > total then (TermWidth - total) / 2 else 0
  }

  /** One output line, without its colour escapes: the indent, the logo part (in the logo
      colour) and the gutter with the box part (in the info colour). */
  datatype OutputLine = OutputLine(indent: string, logo: string, info: string)

  /** `lines.get(i)`, with "" past the end. */
  function Part(lines: seq<string>, i: int): string {
    if 0 <= i < |lines| then lines[i] else ""
  }

  /** The gutter is printed only in front of a non-empty box part. */
  function InfoSegment(part: string): string {
    if part != "" then Gutter + part else ""
  }

  /** The printed lines: as many as the longer side, the shorter side contributing "". */
  function Layout(logoLines: seq<string>, infoLines: seq<string>, boxWidth: nat): (r: seq<OutputLine>)
    ensures |r| == Max(|logoLines|, |infoLines|)
    ensures forall i :: 0 <= i < |r| ==> r[i].indent == Spaces(PadLeft(LogoWidth(logoLines), boxWidth))
  {
    var logoWidth := LogoWidth(logoLines);
    var pad := PadLeft(logoWidth, boxWidth);
    seq(Max(|logoLines|, |infoLines|), i =>
      OutputLine(Spaces(pad), PadRight(Part(logoLines, i), logoWidth), InfoSegment(Part(infoLines, i))))
  }

  /** The `for i in 0..total_lines` loop of `display_output`. */
  method PairLines(logoLines: seq<string>, infoLines: seq<string>, boxWidth: nat)
    returns (output: seq<OutputLine>)
    ensures output == Layout(logoLines, infoLines, boxWidth)
  {
    var logoWidth := LogoWidth(logoLines);
    var padLeft := PadLeft(logoWidth, boxWidth);
    var totalLines := Max(|logoLines|, |infoLines|);
    output := [];
    for i := 0 to totalLines
      invariant |output| == i
      invariant forall j :: 0 <= j < i ==> output[j] == Layout(logoLines, infoLines, boxWidth)[j]
    {
      var logoPart := if i < |logoLines| then logoLines[i] else "";
      var infoPart := if i < |infoLines| then infoLines[i] else "";
      var info := if infoPart != "" then Gutter + infoPart else "";
      output := output + [OutputLine(Spaces(padLeft), PadRight(logoPart, logoWidth), info)];
    }
  }

  /** Every line has the same indent and a logo part exactly `logo_width` wide, so the box parts
      all start in one column; the box line of row i follows the gutter, and the gutter appears
      exactly where there is a non-empty box line. */
  lemma LayoutShape(logoLines: seq<string>, infoLines: seq<string>, boxWidth: nat)
    ensures var out := Layout(logoLines, infoLines, boxWidth);
      && |out| == Max(|logoLines|, |infoLines|)
      && forall i :: 0 <= i < |out| ==>
        && |out[i].indent| == PadLeft(LogoWidth(logoLines), boxWidth)
        && |out[i].logo| == LogoWidth(logoLines)
        && (i < |logoLines| ==> out[i].logo[..|logoLines[i]|] == logoLines[i])
        && (out[i].info != "" <==> i < |infoLines| && infoLines[i] != "")
        && (i < |infoLines| && infoLines[i] != "" ==> out[i].info == Gutter + infoLines[i])
  {
  }

  // ---------------------------------------------------------------------------------------------
  // Colours (src/ui.rs:148-149, 181-191)

  /** The `crossterm` colours the program uses. */
  datatype Color = White | Rgb(r: Storage.U8, g: Storage.U8, b: Storage.U8)

  /** `parse_hex_color`: leading '#' characters dropped, then exactly six characters read as a
      `u32` in base 16, split into its high, middle and low bytes. */
  function ParseHexColor(hex: string): (c: Option<Color>)
    ensures var h := TrimStartMatches(hex, '#');
      c.Some? <==> |h| == 6 && (AllDigits(h, 16) || (h[0] == '+' && AllDigits(h[1..], 16)))
  {
    var h := TrimStartMatches(hex, '#');
    if |h| == 6 then
      SixDigitsFit(h);
      match ParseUnsigned(h, 16, 0x1_0000_0000)
      case Some(rgb) => Some(Rgb((rgb / 0x1_0000) % 0x100, (rgb / 0x100) % 0x100, rgb % 0x100))
      case None => None
    else None
  }

  lemma Pow16()
    ensures Pow(16, 5) == 0x10_0000 && Pow(16, 6) == 0x100_0000
  {
    assert Pow(16, 2) == 0x100;
    assert Pow(16, 4) == 0x1_0000;
  }

  /** Six characters of hex digits, or a '+' and five, always fit a `u32`. */
  lemma SixDigitsFit(h: string)
    requires |h| == 6
    ensures ParseUnsigned(h, 16, 0x1_0000_0000).Some? <==>
      AllDigits(h, 16) || (h[0] == '+' && AllDigits(h[1..], 16))
  {
    var digits := if h[0] == '+' then h[1..] else h;
    Pow16();
    if AllDigits(digits, 16) {
      DigitsValueBound(digits, 16);
    }
    if h[0] == '+' {
      assert DigitValue('+', 16) == 16;
    }
  }

  /** The value of the hex digit at position i. */
  function Nibble(h: string, i: nat): nat
    requires i < |h|
  {
    DigitValue(h[i], 16)
  }

  /** Six hex digits, most significant first. */
  lemma {:induction false} SixDigitsValue(h: string)
    requires |h| == 6 && AllDigits(h, 16)
    ensures DigitsValue(h, 16) == (PairValue(h, 0) * 256 + PairValue(h, 2)) * 256 + PairValue(h, 4)
  {
    assert h[..5][..4] == h[..4] && h[..4][..3] == h[..3] && h[..3][..2] == h[..2];
    assert h[..2][..1] == h[..1] && h[..1][..0] == [];
    assert DigitsValue(h[..1], 16) == Nibble(h, 0);
    assert DigitsValue(h[..2], 16) == Nibble(h, 0) * 16 + Nibble(h, 1);
    assert DigitsValue(h[..3], 16) == DigitsValue(h[..2], 16) * 16 + Nibble(h, 2);
    assert DigitsValue(h[..4], 16) == DigitsValue(h[..3], 16) * 16 + Nibble(h, 3);
    assert DigitsValue(h[..5], 16) == DigitsValue(h[..4], 16) * 16 + Nibble(h, 4);
    assert DigitsValue(h, 16) == DigitsValue(h[..5], 16) * 16 + Nibble(h, 5);
  }

  /** The three bytes of a 24-bit value written most significant first. */
  lemma ByteSplit(v: nat, r: nat, g: nat, b: nat)
    requires r < 256 && g < 256 && b < 256 && v == (r * 256 + g) * 256 + b
    ensures (v / 0x1_0000) % 0x100 == r && (v / 0x100) % 0x100 == g && v % 0x100 == b
  {
    assert v == r * 0x1_0000 + (g * 256 + b) && g * 256 + b < 0x1_0000;
    assert v / 0x1_0000 == r;
    assert v == (r * 256 + g) * 0x100 + b;
    assert v / 0x100 == r * 256 + g;
  }

  /** A colour of six hex digits: red, green and blue are the values of the first, middle and
      last pair of digits. */
  lemma HexColorBytes(hex: string)
    requires |TrimStartMatches(hex, '#')| == 6 && AllDigits(TrimStartMatches(hex, '#'), 16)
    ensures var h := TrimStartMatches(hex, '#');
      ParseHexColor(hex) == Some(Rgb(PairValue(h, 0), PairValue(h, 2), PairValue(h, 4)))
  {
    var h := TrimStartMatches(hex, '#');
    ParseSixDigits(h);
    var v := DigitsValue(h, 16);
    ParseHexValue(hex, v);
    SixDigitsValue(h);
    NibblePair(h, 0);
    NibblePair(h, 2);
    NibblePair(h, 4);
    ByteSplit(v, PairValue(h, 0), PairValue(h, 2), PairValue(h, 4));
  }

  /** The value of the two hex digits at positions i and i + 1. */
  function PairValue(h: string, i: nat): nat
    requires i + 1 < |h|
  {
    Nibble(h, i) * 16 + Nibble(h, i + 1)
  }

  lemma NibblePair(h: string, i: nat)
    requires i + 1 < |h| && AllDigits(h, 16)
    ensures PairValue(h, i) < 256
  {
    assert Nibble(h, i) < 16 && Nibble(h, i + 1) < 16;
  }

  /** The colour is read from the parsed `u32` by shifts and masks. */
  lemma ParseHexValue(hex: string, v: nat)
    requires |TrimStartMatches(hex, '#')| == 6 && ParseUnsigned(TrimStartMatches(hex, '#'), 16, 0x1_0000_0000) == Some(v)
    ensures ParseHexColor(hex) == Some(Rgb((v / 0x1_0000) % 0x100, (v / 0x100) % 0x100, v % 0x100))
  {
  }

  /** Six hex digits parse as their value. */
  lemma ParseSixDigits(h: string)
    requires |h| == 6 && AllDigits(h, 16)
    ensures ParseUnsigned(h, 16, 0x1_0000_0000) == Some(DigitsValue(h, 16))
  {
    Pow16();
    DigitsValueBound(h, 16);
    assert h[0] != '+' by {
      assert DigitValue(h[0], 16) < 16;
    }
  }

  function HexDigit(n: nat): (c: char)
    requires n < 16
    ensures DigitValue(c, 16) == n
  {
    "0123456789ABCDEF"[n]
  }

  /** A byte as two upper-case hex digits. */
  function HexByte(b: Storage.U8): string {
    [HexDigit(b / 16), HexDigit(b % 16)]
  }

  /** A colour written as "#RRGGBB" parses back to itself. */
  lemma HexRoundTrip(r: Storage.U8, g: Storage.U8, b: Storage.U8)
    ensures ParseHexColor("#" + HexByte(r) + HexByte(g) + HexByte(b)) == Some(Rgb(r, g, b))
  {
    var hex := "#" + HexByte(r) + HexByte(g) + HexByte(b);
    var h := [HexDigit(r / 16), HexDigit(r % 16), HexDigit(g / 16), HexDigit(g % 16), HexDigit(b / 16), HexDigit(b % 16)];
    assert hex == ['#'] + h;
    assert h[0] != '#' by {
      assert DigitValue('#', 16) == 16;
    }
    TrimOneHash(h);
    assert Nibble(h, 0) == r / 16 && Nibble(h, 1) == r % 16;
    assert Nibble(h, 2) == g / 16 && Nibble(h, 3) == g % 16;
    assert Nibble(h, 4) == b / 16 && Nibble(h, 5) == b % 16;
    SixNibbles(h);
    assert PairValue(h, 0) == r && PairValue(h, 2) == g && PairValue(h, 4) == b;
    HexColorBytes(hex);
  }

  lemma SixNibbles(h: string)
    requires |h| == 6
    requires Nibble(h, 0) < 16 && Nibble(h, 1) < 16 && Nibble(h, 2) < 16
    requires Nibble(h, 3) < 16 && Nibble(h, 4) < 16 && Nibble(h, 5) < 16
    ensures AllDigits(h, 16)
  {
    forall i | 0 <= i < 6
      ensures DigitValue(h[i], 16) < 16
    {
      assert Nibble(h, i) < 16 by {
        if i == 0 {} else if i == 1 {} else if i == 2 {} else if i == 3 {} else if i == 4 {} else {}
      }
    }
  }

  lemma TrimOneHash(h: string)
    requires h != [] && h[0] != '#'
    ensures TrimStartMatches(['#'] + h, '#') == h
  {
    assert (['#'] + h)[1..] == h;
  }

  /** `config.<colour>.and_then(parse_hex_color).unwrap_or(Color::White)`. */
  function ColorSetting(setting: Option<string>): (c: Color)
    ensures setting.None? ==> c == White
    ensures setting.Some? && ParseHexColor(setting.value).None? ==> c == White
    ensures setting.Some? && ParseHexColor(setting.value).Some? ==> c == ParseHexColor(setting.value).value
  {
    match setting
    case None => White
    case Some(s) => ParseHexColor(s).GetOr(White)
  }

  /** A colour setting written as "#RRGGBB" selects that colour. */
  lemma ColorSettingOf(r: Storage.U8, g: Storage.U8, b: Storage.U8)
    ensures ColorSetting(Some("#" + HexByte(r) + HexByte(g) + HexByte(b))) == Rgb(r, g, b)
  {
    HexRoundTrip(r, g, b);
  }

  /** The default logo colour lists four colours, which is not six hex digits, so the logo is
      drawn in White. */
  lemma DefaultLogoColor()
    ensures ColorSetting(Default().logoColor) == White
  {
    var logo := "#00FFFF #FF00FF #FFFF00 #FFFFFF";
    assert logo[0] == '#' && logo[1] != '#';
    TrimOneHash(logo[1..]);
    assert logo == ['#'] + logo[1..];
  }

  /** The default box colour "#FFFFFF" is white as RGB. */
  lemma DefaultInfoColor()
    ensures ColorSetting(Default().color) == Rgb(255, 255, 255)
  {
    assert HexDigit(15) == 'F';
    assert "#FFFFFF" == "#" + HexByte(255) + HexByte(255) + HexByte(255);
    HexRoundTrip(255, 255, 255);
  }

  // ---------------------------------------------------------------------------------------------
  // The whole output

  datatype Frame = Frame(logoColor: Color, infoColor: Color, lines: seq<OutputLine>)

  /** What `display_output` prints for a logo, a snapshot and a configuration. */
  function Render(logo: string, info: System.SystemInfo, config: Config, fmt: UiFormatters): (r: Frame)
    ensures |r.lines| == Max(|Lines(logo)|, |InfoPairs(config, info, fmt)| + 4)
  {
    var pairs := InfoPairs(config, info, fmt);
    var boxWidth := BoxWidth(pairs);
    Frame(ColorSetting(config.logoColor), ColorSetting(config.color),
          Layout(Lines(logo), Box(pairs, boxWidth), boxWidth))
  }

  /** `display_output`, step by step. */
  method DisplayOutput(logo: string, info: System.SystemInfo, config: Config, fmt: UiFormatters)
    returns (frame: Frame)
    ensures frame == Render(logo, info, config, fmt)
  {
    var logoLines := Lines(logo);
    var infoPairs := CollectInfoPairs(config, info, fmt);
    var maxContent := MaxContentWidth(infoPairs);
    var boxWidth := maxContent + 2 + 2;
    var infoLines := BuildInfoLines(infoPairs, boxWidth);
    var lines := PairLines(logoLines, infoLines, boxWidth);
    assert boxWidth == BoxWidth(infoPairs);
    frame := Frame(ColorSetting(config.logoColor), ColorSetting(config.color), lines);
  }

  /** The output has one line per logo line or box line, whichever are more; every box line
      follows the gutter in full; and when everything fits, no line is wider than the terminal. */
  lemma RenderShape(logo: string, info: System.SystemInfo, config: Config, fmt: UiFormatters)
    ensures var pairs := InfoPairs(config, info, fmt);
      var out := Render(logo, info, config, fmt).lines;
      var box := Box(pairs, BoxWidth(pairs));
      && |out| == Max(|Lines(logo)|, |pairs| + 4)
      && (forall i :: 0 <= i < |box| ==> out[i].info == Gutter + box[i])
      && (forall i :: |box| <= i < |out| ==> out[i].info == "")
      && (LogoWidth(Lines(logo)) + |Gutter| + BoxWidth(pairs) < TermWidth ==>
            forall i :: 0 <= i < |out| ==> |out[i].indent + out[i].logo + out[i].info| <= TermWidth)
  {
    var pairs := InfoPairs(config, info, fmt);
    var w := BoxWidth(pairs);
    assert Render(logo, info, config, fmt).lines == Layout(Lines(logo), Box(pairs, w), w);
    BoxLayout(Lines(logo), pairs);
  }

  /** Beside the box, the logo lines fill the left column from the top, each padded to the
      widest, and blanks of that width fill the column below them. */
  lemma {:induction false} LogoColumn(logoLines: seq<string>, pairs: seq<(string, string)>)
    ensures var w := BoxWidth(pairs);
      var out := Layout(logoLines, Box(pairs, w), w);
      && |out| == Max(|logoLines|, |pairs| + 4)
      && (forall i :: 0 <= i < |logoLines| ==>
            |out[i].logo| == LogoWidth(logoLines) && out[i].logo[..|logoLines[i]|] == logoLines[i])
      && (forall i :: |logoLines| <= i < |out| ==> out[i].logo == Spaces(LogoWidth(logoLines)))
  {
    var w := BoxWidth(pairs);
    var box := Box(pairs, w);
    BoxLines(pairs, w);
    LayoutShape(logoLines, box, w);
    var out := Layout(logoLines, box, w);
    forall i | |logoLines| <= i < |out|
      ensures out[i].logo == Spaces(LogoWidth(logoLines))
    {
      assert out[i].logo == PadRight("", LogoWidth(logoLines));
    }
  }

  /** The same, for any logo lines and any rows. */
  lemma BoxLayout(logoLines: seq<string>, pairs: seq<(string, string)>)
    ensures var w := BoxWidth(pairs);
      var out := Layout(logoLines, Box(pairs, w), w);
      var box := Box(pairs, w);
      && |out| == Max(|logoLines|, |pairs| + 4)
      && (forall i :: 0 <= i < |box| ==> out[i].info == Gutter + box[i])
      && (forall i :: |box| <= i < |out| ==> out[i].info == "")
      && (LogoWidth(logoLines) + |Gutter| + w < TermWidth ==>
            forall i :: 0 <= i < |out| ==> |out[i].indent + out[i].logo + out[i].info| <= TermWidth)
  {
    var w := BoxWidth(pairs);
    var box := Box(pairs, w);
    BoxRectangular(pairs);
    LayoutShape(logoLines, box, w);
  }

}

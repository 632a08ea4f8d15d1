# ZFetch core, modelled in Dafny

ZFetch is a system-information fetcher written in Rust. It probes the host (operating system,
CPU, GPU, memory, swap, uptime, local IP, battery, root-volume usage) and prints an ASCII logo
beside a bordered "System Information" box. The box is centred in an 80-column terminal. A JSON
configuration file turns each row on or off and picks the two colours.

This project models the deterministic core of that program:

- `wrappers.dfy` (`Wrappers`): Rust's `Option` and `filter_map`, with filtering lemmas.
- `text.dfy` (`Text`): the standard-library string and number routines the core relies on.
  These are `lines`, `split_whitespace`, the `trim` family, left-aligned and centred width padding,
  `saturating_sub`, `parse::<u64>`/`parse::<u8>` and `from_str_radix`.
- `settings.dfy` (`Settings`): the configuration record and `Config::default()`. An absent
  toggle means "shown".
- `storage.dfy` (`Storage`): the three disk-usage row parsers of `get_storage_info`: Linux `df`,
  macOS `df` and Windows `wmic`.
- `gpu.dfy` (`Gpu`):
  - the GPU tiers and their text filters;
  - the push-if-absent de-duplication of device names;
  - the Windows multi-adapter labelling;
  - the per-platform "try, else the next tier, else Unknown" chains.
- `system.dfy` (`System`): the snapshot. It covers the `distro` and `distro_id` derivation, the
  uptime split and the gating of every optional field by its toggle.
- `ui.dfy` (`Ui`): `display_output`. It builds the row list and measures the box. It also draws
  the box lines, centres and pairs them with the logo lines, and parses the colours.
- `app.dfy` (`App`): the wiring of `main` and the embedded-logo lookup, with end-to-end lemmas.

Every host probe is an input of the model: directory listings, file contents, command output
(`None` when the command could not be run) and the answers of the OS, CPU, battery, OpenGL and
Vulkan libraries. The steps done in floating point are opaque function parameters: `format_bytes`,
the GHz rendering, percentage rounding and `parse_gb`. Strings are `seq<char>` and are assumed to
be ASCII. Under that assumption the byte lengths the source measures agree with the character
widths its format strings pad to.

The code is followed where it differs from the program's documentation:

- On Windows the GPU string comes only from the SetupDi enumeration. There is no OpenGL, Vulkan
  or `wmic` fallback. The enumeration is wrapped in a 5-second timeout, but it runs synchronously
  inside that future with nothing awaited (src/system.rs:118-121), so the timer is only looked
  at once the enumeration has finished and cannot cut it short. The model keeps the timeout as a
  free boolean input, which allows more behaviours than the program has.
- On macOS the chain is IOKit, then `ioreg`, then `system_profiler`, with no OpenGL fallback.
- There is no colour-directive processor: one colour applies to the whole logo and one to the
  whole box.
- The memory toggle also gates the two swap sizes. With memory hidden and swap shown, the Swap
  row reads "N/A / N/A (...)" (`App.SwapRowWithoutMemory`).

## Model

| member | source | states |
|---|---|---|
| Storage.U64OrZero | src/system.rs:529-530 | a size column that parses as a u64 reads as that value, and an unparsable one reads 0 |
| Storage.U64OrZeroOf | src/system.rs:529-530 | a size as df or wmic prints it reads back as that size when it fits a u64, and as 0 otherwise |
| Storage.ComputedUsage | src/system.rs:529-536 | used = total − avail when avail ≤ total, else 0, so used ≤ total; the percentage is 0 when total is 0 |
| Storage.LinuxRow | src/system.rs:527-546 | a row gives an entry iff it has at least 6 whitespace columns; the entry is "/", sizes from columns 1 and 3, type "apfs", not read-only |
| Storage.ReportedPercent | src/system.rs:567 | column 4 without trailing '%' as a u8, or 0 when that is not a valid u8; what a df column yields is stated by ReportedPercentOf and ReportedPercentNoDigit |
| Storage.ReportedPercentOf | src/system.rs:567 | a column "<n>%" as df prints it reads back as n when n < 256, and as 0 otherwise |
| Storage.ReportedPercentNoDigit | src/system.rs:567 | a column with no decimal digit reads as 0 |
| Storage.MacRow | src/system.rs:562-577 | a row gives an entry iff it has at least 6 columns and its last column is "/"; the percentage is the one df reports |
| Storage.WindowsRow | src/system.rs:592-613 | a row gives an entry iff it has at least 4 columns and column 0 upper-cased starts with "C:"; name "C:/", type from column 3, byte sizes divided by 1024 |
| Storage.StorageInfoOf | src/system.rs:513-619 | no command output, or a target without a parser, gives no entries; otherwise at most one entry per row after the header |
| Storage.GetStorageInfo | src/system.rs:513-619 | the row loop returns exactly the entries of the rows after the header, in order, at most one per row |
| Storage.EntriesMembers | src/system.rs:526-547 | a value is an entry iff some row parses to it |
| Storage.EntriesOther | src/system.rs:513-619 | a target with no parser block gives no entries |
| Storage.EntriesAppend | src/system.rs:526-547 | rows are parsed independently: the entries of a + b are those of a then those of b |
| Storage.EntriesOne | src/system.rs:526-547 | one row gives exactly one entry when accepted, none otherwise |
| Storage.LinuxEntriesShape | src/system.rs:538-545 | every Linux entry is named "/", has type "apfs" and is not read-only |
| Storage.MacEntriesShape | src/system.rs:562-577 | every macOS entry is named "/", has type "apfs", is not read-only, and carries the percentage column 4 of some row of at least 6 columns gives |
| Storage.WindowsEntriesShape | src/system.rs:605-612 | every Windows entry is named "C:/" and is not read-only |
| Storage.HeaderSkipped | src/system.rs:526 | the first output line never gives an entry, whatever it holds |
| Gpu.ListTier | src/system.rs:174-176 | a list tier answers iff it found a name, and its answer is the names joined by ", " |
| Gpu.FirstSome | src/system.rs:214-220 | no tier answer exactly when every tier fails |
| Gpu.FallbackFirstWins | src/system.rs:156-220 | the first tier with an answer decides the chain, whatever later tiers say |
| Gpu.FallbackAllFail | src/system.rs:214-220 | the chain answers "Unknown" when every tier fails |
| Gpu.Fallback | src/system.rs:156-220 | the chain's answer is "Unknown" or the answer of one of its tiers |
| Gpu.PushIfAbsent | src/system.rs:666 | the list only grows, by at most one name, keeping its old names in place; the list grows exactly when the name is acceptable and not already in it, and then by that name |
| Gpu.Dedup | src/system.rs:740-750 | the collected list is no longer than the input and holds only acceptable names |
| Gpu.DedupSnoc | src/system.rs:666-668 | collecting one more name is one push-if-absent step |
| Gpu.DedupMembers | src/system.rs:740-750 | the collected names have no duplicate and are exactly the acceptable input names (non-empty, or non-blank on Windows) |
| Gpu.DedupOrder | src/system.rs:740-750 | the collected names keep the order in which they were first seen |
| Gpu.FirstIndex | src/system.rs:666 | the first position of a name, or the length when absent (the `contains` test) |
| Gpu.DetectGpuWindows | src/system.rs:638-670 | the enumeration loop collects the de-duplicated non-blank descriptions |
| Gpu.AdapterLines | src/system.rs:126-135 | one line per adapter: "GPU: <name>" first, then "GPU <i+1>: <name>" |
| Gpu.WindowsLabel | src/system.rs:122-139 | no adapter gives "GPU: Unknown"; otherwise the string starts with "GPU: " and the first adapter's name |
| Gpu.WindowsLabelLines | src/system.rs:122-137 | splitting the Windows GPU string on newlines gives exactly the adapter lines |
| Gpu.WindowsGpu | src/system.rs:118-151 | a timeout or an empty adapter list gives "GPU: Unknown"; otherwise the result is the label of the de-duplicated non-blank descriptions, whose lines are the adapter lines when no name spans lines |
| Gpu.DedupService | src/system.rs:717-751 | one service pushes its IOName, then its model, each only if non-empty and absent |
| Gpu.DetectGpuIokit | src/system.rs:702-757 | the service loop collects the de-duplicated non-empty names in service order |
| Gpu.IoregModel | src/system.rs:66-77 | a matching line has a '=' and the value has no '"' |
| Gpu.IoregKeyOnly | src/system.rs:67-70 | a line matches iff the key before the first '=' contains "model" and the value contains "Apple", "display" or "GPU"; the result is the trimmed value without quotes |
| Gpu.FirstIoregModel | src/system.rs:64-77 | the tier fails iff no line matches |
| Gpu.FirstIoregMatch | src/system.rs:64-77 | when line k is the first matching line, the tier's answer is line k's value |
| Gpu.ProfilerDetails | src/system.rs:94-102 | "<model>", "<model> (<n> cores)" or "<model> (<n> cores, <clock>)", with model "Unknown" when missing |
| Gpu.ProfilerTier | src/system.rs:88-107 | the system_profiler tier answers iff a first display entry was parsed |
| Gpu.DrmGpu | src/system.rs:160-170 | a drm entry counts iff its name starts with "card", has no '-', and both id files were read; its label is "PCI <vendor>:<device>" with both ids trimmed |
| Gpu.DrmTierGpus | src/system.rs:156-177 | the drm loop collects the labels of the counting entries in order |
| Gpu.LspciName | src/system.rs:186 | the name after the last ':' contains no ':' |
| Gpu.LspciNameOf | src/system.rs:186 | the name is the trimmed text after the last ':' of the line, or the whole line trimmed when it has no ':' |
| Gpu.LspciGpus | src/system.rs:183-187 | no lspci GPU name contains ':' |
| Gpu.LspciMembers | src/system.rs:183-187 | a name is listed iff some output line containing " VGA " or "3D controller" gives it |
| Gpu.LspciOrder | src/system.rs:183-187 | the names are those of the display lines, one per display line, in line order |
| Text.SplitOnLast | src/system.rs:186 | the last piece of `split(c)` is the text after the last c, or the whole string when there is none |
| Gpu.PciGpu | src/system.rs:197-206 | a PCI device counts iff its trimmed class starts with "0x03" and both id files were read; its label is "PCI <vendor>:<device>" with both ids trimmed |
| Gpu.PciTierGpus | src/system.rs:192-213 | the PCI loop collects the labels of the counting devices in order |
| Gpu.DetectGpu | src/system.rs:49-235 | Windows uses its own labelling; on the other platforms the answer is "Unknown" when every tier fails |
| Gpu.LinuxChain | src/system.rs:156-220 | Linux: drm, then lspci, then PCI class 0x03, then OpenGL, then Vulkan, else "Unknown"; the first tier that answers decides |
| Gpu.ChainOfThree | src/system.rs:54-110 | a three-tier chain, unrolled |
| Gpu.MacChain | src/system.rs:53-110 | macOS: IOKit names, then the ioreg matcher, then the system_profiler details, else "Unknown" |
| System.Family | src/system.rs:288-292 | "Mac OS" for macOS, "Windows" for Windows, the type's own name otherwise |
| System.Distro | src/system.rs:288-292 | exactly the family, " (", the version and ")", with nothing else in between |
| System.DistroId | src/system.rs:294-304 | Windows types give "windows_11" iff the version starts with "10.0.22" or contains "Windows 11", else "windows"; macOS gives "macos"; any other type gives a prefix of the lowercased space-free type of length min(len, 16), with no space and no upper-case letter |
| System.UptimeParts | src/system.rs:334-336 | hours < 24, minutes < 60, and d·86400 + h·3600 + m·60 ≤ secs < that + 60 |
| System.ShortKey | src/system.rs:302-303 | the key cut from any other type name has no space and no upper-case letter |
| System.UptimePartsOf | src/system.rs:334-336 | an uptime of d days, h < 24 hours, m < 60 minutes and s < 60 seconds splits back into (d, h, m) |
| System.FormatUptimeOf | src/system.rs:334-337 | such an uptime reads "<d>d <h>h <m>m": the seconds are dropped and nothing carries over |
| System.UptimeSplit | src/system.rs:334-336 | the remainder arithmetic behind the split: secs is days, hours, minutes and leftover seconds |
| System.GetSystemInfo | src/system.rs:320-329 | with memory hidden, both swap sizes are absent whatever the swap toggle says |
| System.SnapshotGating | src/system.rs:306-366 | each optional field is present iff its toggle is on; the memory toggle gates all four memory and swap sizes; a hidden battery is absent |
| System.SnapshotValues | src/system.rs:306-366 | the identity fields are the derived distro, id and kernel; shown GPU and uptime carry the detected string and the formatted uptime; a shown battery is present iff the probe answered; a hidden storage gives the empty list and a shown one the parsed command output |
| Ui.Content | src/ui.rs:17 | the content is the label padded to 10, ": ", then the value |
| Ui.PadBoxTitle | src/ui.rs:6-12 | the title line is box_width long when the title fits; the left fill is ⌊(w − 18)/2⌋ spaces and the rest go right |
| Ui.PadBoxLine | src/ui.rs:14-21 | a row line starts with "│  ", holds the content unchanged, then only spaces, ends with "│", and is box_width long when the content fits |
| Ui.ContentColumns | src/ui.rs:17 | columns 0-9 hold the label and its padding, columns 10-11 ": ", the rest the value |
| Ui.LineInterior | src/ui.rs:14-21 | the interior of a row line is the content followed by spaces only |
| Ui.InteriorTrimmed | src/ui.rs:14-21 | trimming the interior of a readable row line gives back its content |
| Ui.RowReadBack | src/ui.rs:14-21 | stripping border, inset and padding from a row line recovers its label and value |
| Ui.UsageValue | src/ui.rs:34-39 | the memory or swap value starts with "<used> / <total> (", "N/A" standing for a missing size |
| Ui.Candidates | src/ui.rs:56-101 | the ten fixed rows in order Distro … Uptime, each with its toggle and value |
| Ui.DiskRow | src/ui.rs:104-111 | label "Disk (<name>)", value "<used> / <total> (<percent>%) - <fs_type>", with " [Read-only]" appended for a read-only volume and nothing appended otherwise |
| Ui.FixedRows | src/ui.rs:56-101 | at most ten fixed rows |
| Ui.InfoPairs | src/ui.rs:56-112 | the rows are at most ten fixed rows followed by exactly the disk rows |
| Ui.DiskRows | src/ui.rs:104-112 | one disk row per storage entry |
| Ui.PushIf | src/ui.rs:57-59 | a toggled push appends the row exactly when the toggle is on |
| Ui.CollectFixedRows | src/ui.rs:56-101 | the ten toggled pushes build the toggled rows |
| Ui.CollectInfoPairs | src/ui.rs:56-112 | the whole push sequence builds the toggled rows followed by the disk rows |
| Ui.FixedRowsTable | src/ui.rs:56-101 | the toggled rows are the shown rows of the table, in table order |
| Ui.AllRows | src/ui.rs:56-101 | filtering the ten-row table gives each row's conditional push in turn |
| Ui.TablePresence | src/ui.rs:56-101 | in the filtered table, a label's row is present iff that row is shown, and it carries that row's value |
| Ui.RowPresence | src/ui.rs:56-112 | in the box rows, each fixed row is present iff its toggle is unset or true, and carries its value ("N/A" for an absent field) |
| Ui.PresenceWithDisks | src/ui.rs:56-112 | the same for any table with the fixed captions followed by any disk rows: disk rows never carry a fixed label |
| Ui.DiskLabelRank | src/ui.rs:105 | a disk label is never one of the fixed labels |
| Ui.TableOrder | src/ui.rs:56-112 | for any table with the fixed captions, the shown rows then the disk rows are in fixed order and end with the disk rows |
| Ui.RowOrder | src/ui.rs:56-112 | fixed rows keep the order Distro, Distro ID, Kernel, CPU, GPU, Memory, Swap, Local IP, Battery, Uptime; they precede the disk rows, which are the storage entries in order |
| Ui.MaxContent | src/ui.rs:117-123 | at least the title length, at least every row's content length, and equal to one of them |
| Ui.MaxContentWidth | src/ui.rs:114-123 | the running-maximum loop computes that width |
| Ui.Border | src/ui.rs:127 | a border has the given width, the two corners at its ends and '─' between |
| Ui.RowLines | src/ui.rs:131-133 | one box line per row |
| Ui.BuildInfoLines | src/ui.rs:126-134 | the push loop builds top border, title, separator, row lines, bottom border |
| Ui.RowLinesWidth | src/ui.rs:124-133 | every row line is exactly box_width long |
| Ui.Box | src/ui.rs:126-134 | one line per row plus the four frame lines |
| Ui.BoxLines | src/ui.rs:126-134 | box line 0 is the top border, 1 the title, 2 the separator, i + 3 the line of row i, the last the bottom border |
| Ui.BoxRectangular | src/ui.rs:124-134 | the box has rows + 4 lines, each exactly box_width long, with box_width = widest content + 4 |
| Ui.RowLineSingle | src/ui.rs:14-21 | a row line has no line break when its label and value have none |
| Ui.TitleSingle | src/ui.rs:6-12 | the title line has no line break |
| Ui.BorderSingle | src/ui.rs:127 | a border has no line break |
| Ui.BoxSingleLines | src/ui.rs:126-134 | when no label or value has a line break, no box line has one |
| Ui.BoxRowReadBack | src/ui.rs:131-133 | box line i + 3 reads back as row i |
| Ui.LogoWidth | src/ui.rs:136 | the widest logo line, 0 for no lines |
| Ui.PadLeft | src/ui.rs:137-144 | when logo + 4 + box fits in 80 columns the indent is half the free columns, rounded down; otherwise 0 |
| Ui.Layout | src/ui.rs:145-166 | max(logo lines, box lines) output lines, all with the same indent |
| Ui.PairLines | src/ui.rs:151-168 | the output loop produces the paired layout |
| Ui.LogoColumn | src/ui.rs:136-166 | beside the box, logo line i fills the left column at line i padded to the widest logo line, and blanks of that width fill the lines below the logo |
| Ui.LayoutShape | src/ui.rs:151-166 | the output has max(logo lines, box lines) lines; each has the same indent and a logo part padded to the logo width; the gutter appears exactly before a non-empty box line |
| Ui.ParseHexColor | src/ui.rs:181-192 | after dropping leading '#', parsing succeeds iff six characters remain and `from_str_radix` accepts them as base 16 |
| Ui.HexColorBytes | src/ui.rs:184-188 | six hex digits give r, g, b from the first, middle and last digit pairs |
| Ui.ParseHexValue | src/ui.rs:184-188 | the colour is the high, middle and low byte of the parsed value |
| Ui.HexRoundTrip | src/ui.rs:181-192 | "#" + two hex digits per byte parses back to the same r, g, b |
| Ui.ColorSetting | src/ui.rs:148-149 | a setting that parses selects the parsed colour; a missing or unparsable one is White |
| Ui.ColorSettingOf | src/ui.rs:148-149 | a setting written "#RRGGBB" selects Rgb(RR, GG, BB) |
| Ui.DefaultLogoColor | src/ui.rs:148 | the default multi-colour logo setting is not one colour, so the logo is White |
| Ui.DefaultInfoColor | src/ui.rs:149 | the default box colour "#FFFFFF" is Rgb(255, 255, 255) |
| Ui.DisplayOutput | src/ui.rs:23-171 | the step-by-step output equals the rendered frame: colours, rows, box and layout |
| Ui.BoxLayout | src/ui.rs:124-166 | for any logo lines and rows, the layout has max(logo lines, rows + 4) lines, carries box line i after the gutter, and fits 80 columns when everything fits |
| Ui.Render | src/ui.rs:23-171 | the frame has max(logo lines, rows + 4) lines |
| Ui.RenderShape | src/ui.rs:124-166 | the output has max(logo lines, rows + 4) lines; line i carries box line i after the gutter; no line is wider than 80 columns when everything fits |
| App.GetAsciiLogo | src/ascii.rs:5-12 | the logo is the contents of "<distro_id>.txt" when that file exists and is UTF-8, else "Logo not found"; what that means for the output is stated by MissingLogoLines, FrameWithoutLogo and FrameWithLogo |
| App.MissingLogoLines | src/ascii.rs:5-12 | a missing or undecodable logo file gives the single logo line "Logo not found" |
| App.FrameWithoutLogo | src/ascii.rs:5-12 | without a logo the output has max(1, rows + 4) lines, "Logo not found" on the first and blanks of its width below |
| App.FrameWithLogo | src/ascii.rs:5-12 | with a logo the output has max(logo lines, rows + 4) lines and logo line i starts output line i, padded to the widest logo line |
| App.Run | src/main.rs:13-22 | the output has at least the four frame lines of the box, all with the same indent |
| App.RunDefaultColors | src/main.rs:15-18 | with no configuration file, the logo is White and the box is Rgb(255, 255, 255) |
| App.DefaultShowsEveryRow | src/main.rs:15 | with the default configuration every fixed row is present |
| App.SwapRowWithoutMemory | src/system.rs:320-329 | memory hidden and swap shown: the Swap row is present, reads "N/A / N/A (", and there is no Memory row |
| App.SwapRowOf | src/ui.rs:41-53 | the same for any snapshot without swap sizes |
| App.MultiAdapterGpuRow | src/system.rs:122-139 | with two or more Windows adapters the GPU string is "GPU: <first>" and a line break, so the GPU row line of the box holds a line break |

## Left out

- Concurrency: the tokio tasks, `spawn_blocking`, `join!` and the GPU timeout are not
  modelled. The snapshot is a sequential function of the probe results. The Windows timeout is
  a boolean input.
- Host and foreign APIs are inputs: `os_info`, `sysinfo`, IOKit, SetupDi, OpenGL, Vulkan, the
  UDP local-IP trick, the battery crate, `whoami`, process spawning and directory reads.
- Floating point is opaque, as function parameters:
  - `format_bytes`;
  - the GHz figure;
  - the storage and battery percentage rounding;
  - `parse_gb` and the memory and swap percentages.

  Only "the storage percentage is 0 when the total is 0" is stated.
- The JSON parse of `system_profiler` output: the model takes the first display entry's model,
  core count and clock as an input.
- Printing: the crossterm colour escapes, `print!` and the flush are not modelled. The output
  is the list of lines, each split into its indent, logo and box parts, plus the two colours.
- Terminal lines: one output line of the model is what one pass of the printing loop writes. A
  row value holding a line break splits that line on the terminal. Ui.BoxRectangular,
  Ui.LayoutShape and Ui.RenderShape describe the strings, so they describe the screen only when
  no row value holds one (Ui.BoxSingleLines). On Windows with two or more adapters the GPU value
  does (App.MultiAdapterGpuRow): that box line prints as two lines, neither box_width wide, the
  first without its right border, and the value repeats its label ("GPU       : GPU: A").
- Configuration loading (`Config::from_exe_dir`): the model takes the parsed file or `None`.
- `username` and `hostname` are carried in the snapshot but never rendered, and so have no
  property.
- `CpuText` and `BatteryStatus` only assemble opaque floating-point renderings, so no property
  is stated about them.
- Ui.PadBoxTitle: the source's second padding term is always zero, because centring already
  fills the width. The model computes it as the source does, and its contract states the
  resulting line.
- Ui.ParseHexColor: Rust's `from_str_radix` accepts a leading '+'. "#+FFFFF" therefore parses;
  the contract states this acceptance rather than "six hex digits only".
- Strings are ASCII. Byte length (`len()`) and character width are treated as the same.

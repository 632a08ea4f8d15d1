/** The storage probe `get_storage_info` (src/system.rs:513-619): one disk-usage command per
    operating system, whose text output is parsed row by row into `StorageInfo` records.
    The command's standard output is an input of the model (`None` when it could not be run). */
module Storage {
  import opened Wrappers
  import opened Text

  /** Rust's `u8`. */
  type U8 = x: int | 0 <= x < 256

  /** The operating system the program was built for (the `#[cfg(target_os)]` blocks). */
  datatype Target = Linux | MacOs | Windows | OtherTarget

  datatype StorageInfo = StorageInfo(
    name: string, total: string, used: string, percent: U8, fsType: string, readonly: bool)

  /** The floating-point steps of the probe, which the model leaves opaque: `bytes` is
      `format_bytes` (kibibytes to a string in GB with two decimals) and `percent(used, total)` is
      `((used as f64 / total as f64) * 100.0).round() as u8`, only ever applied with `total > 0`. */
  datatype Formatters = Formatters(bytes: nat -> string, percent: (nat, nat) -> U8)

  /** The numbers of one accepted row: sizes in the command's unit, and the percentage used. */
  datatype Usage = Usage(total: nat, used: nat, percent: U8)

  /** `s.parse::<u64>().unwrap_or(0)`. */
  function U64OrZero(s: string): (n: nat)
    ensures n < 0x1_0000_0000_0000_0000
    ensures ParseU64(s).None? ==> n == 0
    ensures ParseU64(s).Some? ==> n == ParseU64(s).value
  {
    ParseU64(s).GetOr(0)
  }

  /** A size column as `df` or `wmic` prints it reads back as that size when it fits a `u64`, and
      as 0 otherwise. */
  lemma U64OrZeroOf(n: nat)
    ensures U64OrZero(NatToString(n)) == if n < 0x1_0000_0000_0000_0000 then n else 0
  {
    if n < 0x1_0000_0000_0000_0000 {
      NatToStringRoundTrip(n, 0x1_0000_0000_0000_0000);
    } else {
      var digits := NatToString(n);
      NatToStringDigits(n);
      assert DigitValue(digits[0], 10) < 10;
    }
  }

  /** Used space is total minus available, saturating at zero; the percentage is computed only
      for a non-zero total. */
  function ComputedUsage(total: nat, avail: nat, fmt: Formatters): (u: Usage)
    ensures u.total == total && u.used <= total
    ensures avail <= total ==> u.used + avail == total
    ensures total < avail ==> u.used == 0
    ensures total == 0 ==> u.percent == 0
  {
    var used := SatSub(total, avail);
    Usage(total, used, if total > 0 then fmt.percent(used, total) else 0)
  }

  /** Linux `df -k /` row (src/system.rs:527-546): six or more columns, sizes in columns 1 and 3. */
  function LinuxRow(cols: seq<string>, fmt: Formatters): (r: Option<StorageInfo>)
    ensures r.Some? <==> |cols| >= 6
    ensures r.Some? ==>
      var u := ComputedUsage(U64OrZero(cols[1]), U64OrZero(cols[3]), fmt);
      r.value == StorageInfo("/", fmt.bytes(u.total), fmt.bytes(u.used), u.percent, "apfs", false)
  {
    if |cols| >= 6 then
      var u := ComputedUsage(U64OrZero(cols[1]), U64OrZero(cols[3]), fmt);
      Some(StorageInfo("/", fmt.bytes(u.total), fmt.bytes(u.used), u.percent, "apfs", false))
    else None
  }

  /** `columns[4].trim_end_matches('%').parse::<u8>().unwrap_or(0)`. */
  function ReportedPercent(col: string): (p: U8)
    ensures ParseU8(TrimEndMatches(col, '%')).Some? ==> p == ParseU8(TrimEndMatches(col, '%')).value
    ensures ParseU8(TrimEndMatches(col, '%')).None? ==> p == 0
  {
    ParseU8(TrimEndMatches(col, '%')).GetOr(0)
  }

  /** A percentage column as `df` prints it, "<n>%", reads back as n when n fits a `u8`, and as 0
      otherwise. */
  lemma ReportedPercentOf(n: nat)
    ensures ReportedPercent(NatToString(n) + "%") == if n < 256 then n else 0
  {
    var digits := NatToString(n);
    TrimPercentSign(n);
    if n < 256 {
      NatToStringRoundTrip(n, 256);
    } else {
      NatToStringDigits(n);
      assert DigitValue(digits[0], 10) < 10;
    }
  }

  lemma TrimPercentSign(n: nat)
    ensures TrimEndMatches(NatToString(n) + "%", '%') == NatToString(n)
  {
    var digits := NatToString(n);
    assert (digits + "%")[..|digits|] == digits;
    NatToStringDigits(n);
    assert DigitValue(digits[|digits| - 1], 10) < 10;
  }

  /** A column with no decimal digit reads as 0. */
  lemma ReportedPercentNoDigit(col: string)
    requires forall i :: 0 <= i < |col| ==> !('0' <= col[i] <= '9')
    ensures ReportedPercent(col) == 0
  {
    var t := TrimEndMatches(col, '%');
    var digits := if t != [] && t[0] == '+' then t[1..] else t;
    if digits != [] {
      assert digits[0] in col;
      assert DigitValue(digits[0], 10) == 10;
    }
  }

  /** macOS `df -k /` row (src/system.rs:562-577): only the row whose last column is the mount
      point "/"; the percentage is the one `df` reports in column 4. */
  function MacRow(cols: seq<string>, fmt: Formatters): (r: Option<StorageInfo>)
    ensures r.Some? <==> |cols| >= 6 && cols[|cols| - 1] == "/"
    ensures r.Some? ==>
      var total := U64OrZero(cols[1]);
      r.value == StorageInfo("/", fmt.bytes(total), fmt.bytes(SatSub(total, U64OrZero(cols[3]))),
                             ReportedPercent(cols[4]), "apfs", false)
  {
    if |cols| >= 6 && cols[|cols| - 1] == "/" then
      var total := U64OrZero(cols[1]);
      var used := SatSub(total, U64OrZero(cols[3]));
      Some(StorageInfo("/", fmt.bytes(total), fmt.bytes(used), ReportedPercent(cols[4]), "apfs", false))
    else None
  }

  /** Windows `wmic logicaldisk` row (src/system.rs:592-613): only drive C:, sizes in bytes in
      columns 1 (size) and 2 (free space), converted to kibibytes before formatting. */
  function WindowsRow(cols: seq<string>, fmt: Formatters): (r: Option<StorageInfo>)
    ensures r.Some? <==> |cols| >= 4 && StartsWith(ToUpper(cols[0]), "C:")
    ensures r.Some? ==>
      var u := ComputedUsage(U64OrZero(cols[1]), U64OrZero(cols[2]), fmt);
      r.value == StorageInfo("C:/", fmt.bytes(u.total / 1024), fmt.bytes(u.used / 1024), u.percent, cols[3], false)
  {
    if |cols| >= 4 && StartsWith(ToUpper(cols[0]), "C:") then
      var u := ComputedUsage(U64OrZero(cols[1]), U64OrZero(cols[2]), fmt);
      Some(StorageInfo("C:/", fmt.bytes(u.total / 1024), fmt.bytes(u.used / 1024), u.percent, cols[3], false))
    else None
  }

  /** The entry one output line gives, by target. */
  function RowEntry(target: Target, line: string, fmt: Formatters): Option<StorageInfo> {
    var cols := SplitWhitespace(line);
    match target
    case Linux => LinuxRow(cols, fmt)
    case MacOs => MacRow(cols, fmt)
    case Windows => WindowsRow(cols, fmt)
    case OtherTarget => None
  }

  /** The row parser of the target. */
  function Parser(target: Target, fmt: Formatters): string -> Option<StorageInfo> {
    line => RowEntry(target, line, fmt)
  }

  /** The entries the row loop pushes, in row order. */
  function Entries(target: Target, rows: seq<string>, fmt: Formatters): seq<StorageInfo> {
    FilterMap(Parser(target, fmt), rows)
  }

  /** What `get_storage_info` returns for the command output `out`: every row after the header. */
  function StorageInfoOf(target: Target, out: Option<string>, fmt: Formatters): (r: seq<StorageInfo>)
    ensures out.None? || target == OtherTarget ==> r == []
    ensures out.Some? ==> |r| <= |SkipFirst(Lines(out.value))|
  {
    match out
    case None => []
    case Some(stdout) =>
      EntriesOther(SkipFirst(Lines(stdout)), fmt);
      Entries(target, SkipFirst(Lines(stdout)), fmt)
  }

  /** The row loop of `get_storage_info`: for each line after the header, push the entry the
      line gives, if any. */
  method GetStorageInfo(target: Target, out: Option<string>, fmt: Formatters)
    returns (storageInfo: seq<StorageInfo>)
    ensures storageInfo == StorageInfoOf(target, out, fmt)
    ensures out.Some? ==> |storageInfo| <= |SkipFirst(Lines(out.value))|
  {
    storageInfo := [];
    if out.None? {
      return;
    }
    var rows := SkipFirst(Lines(out.value));
    assert StorageInfoOf(target, out, fmt) == Entries(target, rows, fmt);
    for i := 0 to |rows|
      invariant storageInfo == Entries(target, rows[..i], fmt)
    {
      var entry := RowEntry(target, rows[i], fmt);
      FilterMapSnoc(Parser(target, fmt), rows, i);
      if entry.Some? {
        storageInfo := storageInfo + [entry.value];
      }
    }
    assert rows[..|rows|] == rows;
  }

  /** A value is an entry exactly when some row gives it. */
  lemma EntriesMembers(target: Target, rows: seq<string>, fmt: Formatters, e: StorageInfo)
    ensures e in Entries(target, rows, fmt) <==>
      exists k :: 0 <= k < |rows| && RowEntry(target, rows[k], fmt) == Some(e)
  {
    FilterMapMembers(Parser(target, fmt), rows, e);
  }

  /** No target without a parser produces entries. */
  lemma EntriesOther(rows: seq<string>, fmt: Formatters)
    ensures Entries(OtherTarget, rows, fmt) == []
  {
    if Entries(OtherTarget, rows, fmt) != [] {
      EntriesMembers(OtherTarget, rows, fmt, Entries(OtherTarget, rows, fmt)[0]);
    }
  }

  /** Rows are parsed independently: the entries of two blocks of rows are the entries of the
      first block followed by those of the second. */
  lemma EntriesAppend(target: Target, a: seq<string>, b: seq<string>, fmt: Formatters)
    ensures Entries(target, a + b, fmt) == Entries(target, a, fmt) + Entries(target, b, fmt)
  {
    FilterMapAppend(Parser(target, fmt), a, b);
  }

  /** One row gives exactly one entry when it is accepted and none otherwise. */
  lemma EntriesOne(target: Target, line: string, fmt: Formatters)
    ensures Entries(target, [line], fmt) ==
      (if RowEntry(target, line, fmt).Some? then [RowEntry(target, line, fmt).value] else [])
  {
    FilterMapSnoc(Parser(target, fmt), [line], 0);
    assert [line][..1] == [line];
  }

  /** Every Linux entry describes the root volume as "/" of type "apfs", never read-only. */
  lemma LinuxEntriesShape(rows: seq<string>, fmt: Formatters, e: StorageInfo)
    requires e in Entries(Linux, rows, fmt)
    ensures e.name == "/" && e.fsType == "apfs" && !e.readonly
  {
    EntriesMembers(Linux, rows, fmt, e);
  }

  /** Every macOS entry describes the root volume as "/" of type "apfs", never read-only, with
      used space at most the total and the percentage `df` reported in column 4. */
  lemma MacEntriesShape(rows: seq<string>, fmt: Formatters, e: StorageInfo)
    requires e in Entries(MacOs, rows, fmt)
    ensures e.name == "/" && e.fsType == "apfs" && !e.readonly
    ensures exists k :: 0 <= k < |rows| && |SplitWhitespace(rows[k])| >= 6
                        && e.percent == ReportedPercent(SplitWhitespace(rows[k])[4])
  {
    EntriesMembers(MacOs, rows, fmt, e);
  }

  /** Every Windows entry describes drive "C:/", never read-only. */
  lemma WindowsEntriesShape(rows: seq<string>, fmt: Formatters, e: StorageInfo)
    requires e in Entries(Windows, rows, fmt)
    ensures e.name == "C:/" && !e.readonly
  {
    EntriesMembers(Windows, rows, fmt, e);
  }

  /** The first line of the command output is a header and never gives an entry, whatever it holds. */
  lemma HeaderSkipped(target: Target, header: string, body: string, fmt: Formatters)
    requires '\n' !in header
    ensures StorageInfoOf(target, Some(header + "\n" + body), fmt) == Entries(target, Lines(body), fmt)
  {
    var s := header + "\n" + body;
    assert IndexOf(s, '\n') == |header| by {
      assert s[|header|] == '\n';
      assert forall j :: 0 <= j < |header| ==> s[j] == header[j];
    }
    assert s[|header| + 1..] == body;
  }
}

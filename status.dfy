/** Host status collection (internal/system/status.go), with every command's
    output taken as an input instead of being produced by running `df`,
    `cat /proc/...` or `sysctl`. */
module SystemStatus {
  import opened Wrappers
  import opened GoStrings
  import opened Command

  datatype CpuInfo = CpuInfo(usagePercent: real, cores: int)

  datatype MemInfo = MemInfo(totalGB: real, usedGB: real, percent: real)

  datatype DiskInfo = DiskInfo(mount: string, totalGB: real, usedGB: real, percent: real)

  datatype StatusInfo = StatusInfo(
    hostname: string, os: string, arch: string, uptime: string,
    cpu: CpuInfo, memory: MemInfo, disks: seq<DiskInfo>, time: string)

  /** Go's conversion of a float to `int`: truncation toward zero. */
  function Trunc(x: real): (n: int)
    ensures x >= 0.0 ==> n as real <= x < n as real + 1.0
    ensures x < 0.0 ==> n as real - 1.0 < x <= n as real
  {
    if x >= 0.0 then x.Floor else -((-x).Floor)
  }

  /** `round2`: `f` cut (not rounded) to two decimals, toward zero. */
  function Round2(f: real): (r: real)
    ensures f >= 0.0 ==> 0.0 <= f - r < 0.01 && r >= 0.0
    ensures f < 0.0 ==> 0.0 <= r - f < 0.01 && r <= 0.0
    ensures (r * 100.0).Floor as real == r * 100.0
  {
    var n := Trunc(f * 100.0);
    var r := n as real / 100.0;
    assert r * 100.0 == n as real;
    assert f >= 0.0 ==> r <= f < r + 0.01;
    assert f < 0.0 ==> r - 0.01 < f <= r;
    r
  }

  /** Cutting twice changes nothing more than cutting once. */
  lemma Round2Idempotent(f: real)
    ensures Round2(Round2(f)) == Round2(f)
  {
    var r := Round2(f);
    var n := Trunc(f * 100.0);
    assert r * 100.0 == n as real;
    assert Trunc(r * 100.0) == n;
  }

  /** Cutting keeps a percentage within [0, 100]. */
  lemma Round2KeepsPercent(f: real)
    requires 0.0 <= f <= 100.0
    ensures 0.0 <= Round2(f) <= 100.0
  {
  }

  /** `parseSize`: a `df -h` size in gigabytes (see ParseSizeUnit). */
  function ParseSize(s: string, scan: RealScanner): real
  {
    var t := TrimSpace(s);
    var val := RealOrZero(scan, t);
    if HasSuffix(t, "Ti") || HasSuffix(t, "T") then val * 1024.0
    else if HasSuffix(t, "Gi") || HasSuffix(t, "G") then val
    else if HasSuffix(t, "Mi") || HasSuffix(t, "M") then val / 1024.0
    else val
  }

  /** The unit suffixes `df -h` prints and the gigabytes each stands for. */
  function UnitScale(unit: string): real
    requires unit in ["T", "Ti", "G", "Gi", "M", "Mi", ""]
  {
    if unit in ["T", "Ti"] then 1024.0
    else if unit in ["M", "Mi"] then 1.0 / 1024.0
    else 1.0
  }

  lemma SuffixOfOne(t: string, c: char)
    ensures HasSuffix(t, [c]) <==> t != [] && t[|t| - 1] == c
  {
    if t != [] {
      assert t[|t| - 1..] == [t[|t| - 1]];
    }
  }

  lemma SuffixOfTwo(t: string, c: char, d: char)
    ensures HasSuffix(t, [c, d]) <==> |t| >= 2 && t[|t| - 2] == c && t[|t| - 1] == d
  {
    if |t| >= 2 {
      assert t[|t| - 2..] == [t[|t| - 2], t[|t| - 1]];
    }
  }

  /** A number as `df -h` prints it: no leading space, a digit last. */
  predicate SizeNumber(n: string) {
    n != [] && !IsSpace(n[0]) && '0' <= n[|n| - 1] <= '9'
  }

  /** A number followed by a unit has no space to trim. */
  lemma NumberWithUnitTrimmed(n: string, unit: string)
    requires SizeNumber(n)
    requires unit in ["T", "Ti", "G", "Gi", "M", "Mi", ""]
    ensures TrimSpace(n + unit) == n + unit
  {
    var t := n + unit;
    assert t[0] == n[0];
    assert t[|t| - 1] == if unit == "" then n[|n| - 1] else unit[|unit| - 1];
  }

  /** The one-letter suffix tests of `parseSize` on a number and a unit. */
  lemma UnitSuffixOne(n: string, unit: string)
    requires SizeNumber(n)
    requires unit in ["T", "Ti", "G", "Gi", "M", "Mi", ""]
    ensures HasSuffix(n + unit, "T") <==> unit == "T"
    ensures HasSuffix(n + unit, "G") <==> unit == "G"
    ensures HasSuffix(n + unit, "M") <==> unit == "M"
  {
    var t := n + unit;
    SuffixOfOne(t, 'T');
    SuffixOfOne(t, 'G');
    SuffixOfOne(t, 'M');
    assert t[|t| - 1] == if unit == "" then n[|n| - 1] else unit[|unit| - 1];
  }

  /** The two-letter suffix tests of `parseSize` on a number and a unit. */
  lemma UnitSuffixTwo(n: string, unit: string)
    requires SizeNumber(n)
    requires unit in ["T", "Ti", "G", "Gi", "M", "Mi", ""]
    ensures HasSuffix(n + unit, "Ti") <==> unit == "Ti"
    ensures HasSuffix(n + unit, "Gi") <==> unit == "Gi"
    ensures HasSuffix(n + unit, "Mi") <==> unit == "Mi"
  {
    var t := n + unit;
    SuffixOfTwo(t, 'T', 'i');
    SuffixOfTwo(t, 'G', 'i');
    SuffixOfTwo(t, 'M', 'i');
    assert t[|t| - 1] == if unit == "" then n[|n| - 1] else unit[|unit| - 1];
    if |unit| == 2 {
      assert t[|t| - 2] == unit[0];
    }
  }

  /** Facts about the suffixes of a number followed by a unit. */
  lemma NumberWithUnit(n: string, unit: string)
    requires SizeNumber(n)
    requires unit in ["T", "Ti", "G", "Gi", "M", "Mi", ""]
    ensures TrimSpace(n + unit) == n + unit
    ensures HasSuffix(n + unit, "T") <==> unit == "T"
    ensures HasSuffix(n + unit, "Ti") <==> unit == "Ti"
    ensures HasSuffix(n + unit, "G") <==> unit == "G"
    ensures HasSuffix(n + unit, "Gi") <==> unit == "Gi"
    ensures HasSuffix(n + unit, "M") <==> unit == "M"
    ensures HasSuffix(n + unit, "Mi") <==> unit == "Mi"
  {
    NumberWithUnitTrimmed(n, unit);
    UnitSuffixOne(n, unit);
    UnitSuffixTwo(n, unit);
  }

  /** A number followed by a unit reads as that many units, in gigabytes:
      T and Ti count 1024, G and Gi 1, M and Mi 1/1024, no unit 1. */
  lemma ParseSizeUnit(n: string, unit: string, scan: RealScanner)
    requires SizeNumber(n)
    requires unit in ["T", "Ti", "G", "Gi", "M", "Mi", ""]
    ensures ParseSize(n + unit, scan) == RealOrZero(scan, n + unit) * UnitScale(unit)
  {
    NumberWithUnit(n, unit);
  }

  /** Any other one-letter unit, such as the K that `df -h` prints for sizes
      under a megabyte, is not scaled: "512K" reads as 512 gigabytes. */
  lemma ParseSizeOtherUnit(n: string, c: char, scan: RealScanner)
    requires SizeNumber(n)
    requires c !in "TGMi" && !IsSpace(c)
    ensures ParseSize(n + [c], scan) == RealOrZero(scan, n + [c])
  {
    var t := n + [c];
    assert t[0] == n[0] && t[|t| - 1] == c;
    SuffixOfOne(t, 'T');
    SuffixOfOne(t, 'G');
    SuffixOfOne(t, 'M');
    SuffixOfTwo(t, 'T', 'i');
    SuffixOfTwo(t, 'G', 'i');
    SuffixOfTwo(t, 'M', 'i');
  }

  /** Mounts `getDisks` reports: the root and anything under /home, /mnt or /Volumes. */
  predicate RelevantMount(mount: string) {
    mount == "/" || HasPrefix(mount, "/home") || HasPrefix(mount, "/mnt") || HasPrefix(mount, "/Volumes")
  }

  /** A `df -h` line that `getDisks` keeps. */
  predicate DiskLine(fields: seq<string>) {
    |fields| >= 6 && RelevantMount(fields[|fields| - 1])
  }

  /** The disk a kept `df -h` line describes: size, used and use% from the
      second, third and fifth columns, the mount from the last. */
  function DiskOf(fields: seq<string>, scan: RealScanner): (d: DiskInfo)
    requires |fields| >= 6
    ensures d.mount == fields[|fields| - 1]
    ensures d.totalGB == Round2(ParseSize(fields[1], scan))
    ensures d.usedGB == Round2(ParseSize(fields[2], scan))
    ensures d.percent == RealOrZero(scan, TrimSuffix(fields[4], "%"))
  {
    DiskInfo(
      fields[|fields| - 1],
      Round2(ParseSize(fields[1], scan)),
      Round2(ParseSize(fields[2], scan)),
      RealOrZero(scan, TrimSuffix(fields[4], "%")))
  }

  /** The disk one `df -h` line contributes: none, or the one it describes. */
  function DiskRow(line: string, scan: RealScanner): (row: seq<DiskInfo>)
    ensures |row| <= 1
    ensures |row| == 1 <==> DiskLine(Fields(line))
    ensures |row| == 1 ==> row[0] == DiskOf(Fields(line), scan) && RelevantMount(row[0].mount)
  {
    var fields := Fields(line);
    if DiskLine(fields) then [DiskOf(fields, scan)] else []
  }

  /** The disks of a run of `df -h` lines, in line order. */
  function DiskRows(lines: seq<string>, scan: RealScanner): (disks: seq<DiskInfo>)
    ensures |disks| <= |lines|
    ensures forall i :: 0 <= i < |disks| ==> RelevantMount(disks[i].mount)
  {
    if lines == [] then [] else DiskRow(lines[0], scan) + DiskRows(lines[1..], scan)
  }

  /** Reading two blocks of lines one after the other gives the disks of the
      first block followed by those of the second: order is kept. */
  lemma {:induction false} DiskRowsAppend(a: seq<string>, b: seq<string>, scan: RealScanner)
    ensures DiskRows(a + b, scan) == DiskRows(a, scan) + DiskRows(b, scan)
  {
    if a != [] {
      assert (a + b)[0] == a[0];
      assert (a + b)[1..] == a[1..] + b;
      DiskRowsAppend(a[1..], b, scan);
    } else {
      assert a + b == b;
    }
  }

  /** Every kept line gives its disk, placed after the disks of the lines
      before it: no relevant mount is dropped and line order is kept. */
  lemma DiskRowsKeeps(lines: seq<string>, i: nat, scan: RealScanner)
    requires i < |lines| && DiskLine(Fields(lines[i]))
    ensures |DiskRows(lines[..i], scan)| < |DiskRows(lines, scan)|
    ensures DiskRows(lines, scan)[|DiskRows(lines[..i], scan)|] == DiskOf(Fields(lines[i]), scan)
  {
    assert lines == lines[..i] + lines[i..];
    DiskRowsAppend(lines[..i], lines[i..], scan);
    assert lines[i..][0] == lines[i];
    assert DiskRows(lines[i..], scan) == DiskRow(lines[i], scan) + DiskRows(lines[i..][1..], scan);
  }

  /** One more line adds its disk, if any, after those of the lines before it. */
  lemma DiskRowsStep(lines: seq<string>, i: nat, scan: RealScanner)
    requires i < |lines|
    ensures DiskRows(lines[..i + 1], scan) == DiskRows(lines[..i], scan) + DiskRow(lines[i], scan)
  {
    assert lines[..i + 1] == lines[..i] + [lines[i]];
    DiskRowsAppend(lines[..i], [lines[i]], scan);
    assert DiskRows([lines[i]], scan) == DiskRow(lines[i], scan) + DiskRows([], scan);
  }

  /** `getDisks`: the relevant mounts of `df -h`, none when the command fails. */
  method GetDisks(out: CmdOutput, scan: RealScanner) returns (disks: seq<DiskInfo>)
    ensures out.Failed? ==> disks == []
    ensures out.Output? ==> disks == DiskRows(Lines(out.text), scan)
  {
    if out.Failed? {
      return [];
    }
    var lines := Lines(out.text);
    disks := [];
    for i := 0 to |lines|
      invariant disks == DiskRows(lines[..i], scan)
    {
      DiskRowsStep(lines, i, scan);
      var row := ReadDisk(lines[i], scan);
      disks := disks + row;
    }
    assert lines[..|lines|] == lines;
  }

  /** The body of the loop in `getDisks` for one line: skip it when it has
      fewer than six columns or an irrelevant mount, otherwise read the
      sizes and the use percentage. */
  method ReadDisk(line: string, scan: RealScanner) returns (row: seq<DiskInfo>)
    ensures row == DiskRow(line, scan)
  {
    var fields := Fields(line);
    if |fields| < 6 {
      return [];
    }
    var mount := fields[|fields| - 1];
    if RelevantMount(mount) {
      var total := ParseSize(fields[1], scan);
      var used := ParseSize(fields[2], scan);
      var percent := RealOrZero(scan, TrimSuffix(fields[4], "%"));
      return [DiskInfo(mount, Round2(total), Round2(used), percent)];
    }
    return [];
  }

  /** Go's `/` on integers: truncation toward zero. */
  function Quot(a: int, b: int): (q: int)
    requires b > 0
    ensures a >= 0 ==> q * b <= a < (q + 1) * b
    ensures a < 0 ==> (q - 1) * b < a <= q * b
  {
    if a >= 0 then a / b else -((-a) / b)
  }

  /** Go's `%` on integers: the remainder takes the sign of the dividend. */
  function Rem(a: int, b: int): (r: int)
    requires b > 0
    ensures a == Quot(a, b) * b + r
    ensures a >= 0 ==> 0 <= r < b
    ensures a < 0 ==> -b < r <= 0
  {
    a - Quot(a, b) * b
  }

  /** What the uptime line shows: days and hours once a day has passed,
      otherwise hours and minutes. */
  datatype Uptime = DaysHours(days: int, hours: int) | HoursMinutes(hours: int, minutes: int)

  /** The uptime shown for a duration of `seconds`. */
  function UptimeOf(seconds: int): Uptime
  {
    var days := Quot(seconds, 86400);
    var hours := Rem(Quot(seconds, 3600), 24);
    if days > 0 then DaysHours(days, hours) else HoursMinutes(hours, Rem(Quot(seconds, 60), 60))
  }

  /** The shown fields are the duration's whole days and leftover hours, or
      its whole hours and leftover minutes when under a day. */
  lemma UptimeOfBounds(seconds: int)
    requires seconds >= 0
    ensures match UptimeOf(seconds)
      case DaysHours(d, h) =>
        d >= 1 && 0 <= h < 24 && d * 86400 + h * 3600 <= seconds < d * 86400 + (h + 1) * 3600
      case HoursMinutes(h, m) =>
        seconds < 86400 && 0 <= h < 24 && 0 <= m < 60 && h * 3600 + m * 60 <= seconds < h * 3600 + (m + 1) * 60
  {
    var d := seconds / 86400;
    var hTotal := seconds / 3600;
    assert hTotal / 24 == d;
    var mTotal := seconds / 60;
    assert mTotal / 60 == hTotal;
  }

  /** `"%dd %dh"` or `"%dh %dm"`. */
  function FormatUptime(u: Uptime): string {
    match u
    case DaysHours(d, h) => Itoa(d) + "d " + Itoa(h) + "h"
    case HoursMinutes(h, m) => Itoa(h) + "h " + Itoa(m) + "m"
  }

  /** `getUptime` on Linux: `/proc/uptime` read as seconds (cut to whole
      seconds), "unknown" when the file cannot be read. */
  function LinuxUptime(out: CmdOutput, scan: RealScanner): (s: string)
    ensures out.Failed? ==> s == "unknown"
  {
    match out
    case Failed(_) => "unknown"
    case Output(text) => FormatUptime(UptimeOf(Trunc(RealOrZero(scan, text))))
  }

  /** `getUptime` on macOS: the boot second read from `kern.boottime` ("{ sec =
      N, usec = M } ..."), subtracted from `now`; "unknown" when the command fails
      or its output has no "=". */
  function DarwinUptime(out: CmdOutput, now: int, scan: IntScanner): (s: string)
    ensures out.Failed? ==> s == "unknown"
    ensures out.Output? && '=' !in out.text ==> s == "unknown"
  {
    match out
    case Failed(_) => "unknown"
    case Output(text) =>
      var parts := Split(text, '=');
      assert '=' !in text ==> |parts| == 1 by {
        if '=' !in text {
          assert IndexChar(text, '=') < 0;
        }
      }
      if |parts| < 2 then "unknown"
      else
        var secStr := TrimSpace(Split(parts[1], ',')[0]);
        var sec := IntOrZero(scan, secStr);
        FormatUptime(UptimeOf(now - sec))
  }

  /** The busy share of CPU time from the first line of /proc/stat
      ("cpu user nice system idle ..."): the non-idle part of user + nice +
      system + idle, as a percentage; 0 when the line has fewer than eight
      fields or the total is not positive. */
  function LinuxCpuUsage(out: CmdOutput, scan: RealScanner): (usage: real)
    ensures out.Failed? || |Fields(out.text)| < 8 ==> usage == 0.0
    ensures out.Output? && |Fields(out.text)| >= 8 ==>
              var f := Fields(out.text);
              var idle := RealOrZero(scan, f[4]);
              var total := RealOrZero(scan, f[1]) + RealOrZero(scan, f[2]) + RealOrZero(scan, f[3]) + idle;
              (total <= 0.0 ==> usage == 0.0) && (total > 0.0 ==> usage * total == (total - idle) * 100.0)
  {
    match out
    case Failed(_) => 0.0
    case Output(text) =>
      var fields := Fields(text);
      if |fields| < 8 then 0.0
      else
        var user := RealOrZero(scan, fields[1]);
        var nice := RealOrZero(scan, fields[2]);
        var sys := RealOrZero(scan, fields[3]);
        var idle := RealOrZero(scan, fields[4]);
        var total := user + nice + sys + idle;
        BusyPercent(total - idle, total)
  }

  /** The busy share of `total` as a percentage; 0 when nothing was counted. */
  function BusyPercent(busy: real, total: real): (p: real)
    ensures total <= 0.0 ==> p == 0.0
    ensures total > 0.0 ==> p * total == busy * 100.0
  {
    if total > 0.0 then
      var q := busy / total;
      assert q * total == busy;
      assert q * 100.0 * total == q * total * 100.0;
      q * 100.0
    else 0.0
  }

  /** `getCPU` on Linux. */
  function LinuxCpu(out: CmdOutput, cores: int, scan: RealScanner): (c: CpuInfo)
    ensures c.cores == cores
    ensures c.usagePercent == Round2(LinuxCpuUsage(out, scan))
  {
    CpuInfo(Round2(LinuxCpuUsage(out, scan)), cores)
  }

  /** A part of a positive whole is a fraction between 0 and 1. */
  lemma FractionAtMostOne(part: real, whole: real)
    requires 0.0 <= part <= whole && whole > 0.0
    ensures 0.0 <= part / whole <= 1.0
  {
    var q := part / whole;
    assert q * whole == part;
    assert (1.0 - q) * whole == whole - part;
  }

  /** With non-negative counters the usage is a percentage, and it is 0
      when the stat line is too short. */
  lemma LinuxCpuUsageIsPercent(text: string, scan: RealScanner)
    requires forall i :: 1 <= i <= 4 && i < |Fields(text)| ==> RealOrZero(scan, Fields(text)[i]) >= 0.0
    ensures 0.0 <= LinuxCpuUsage(Output(text), scan) <= 100.0
    ensures |Fields(text)| < 8 ==> LinuxCpuUsage(Output(text), scan) == 0.0
    ensures 0.0 <= LinuxCpu(Output(text), 1, scan).usagePercent <= 100.0
  {
    var fields := Fields(text);
    if |fields| >= 8 {
      var idle := RealOrZero(scan, fields[4]);
      var total := RealOrZero(scan, fields[1]) + RealOrZero(scan, fields[2]) + RealOrZero(scan, fields[3]) + idle;
      if total > 0.0 {
        FractionAtMostOne(total - idle, total);
      }
    }
    Round2KeepsPercent(LinuxCpuUsage(Output(text), scan));
  }

  /** The kB figure of the last /proc/meminfo line starting with `key` that
      scans, or 0 when there is none. */
  function LastKB(lines: seq<string>, key: string, scan: IntScanner): int
  {
    if lines == [] then 0
    else
      var last := lines[|lines| - 1];
      if HasPrefix(last, key) && scan(last[|key|..]).Some? then scan(last[|key|..]).value
      else LastKB(lines[..|lines| - 1], key, scan)
  }

  /** Memory figures from total and available kB: used is total minus
      available; the percentage is 0 when the total is 0. */
  function MemFromKB(totalKB: int, availKB: int): (m: MemInfo)
    ensures m.totalGB == Round2(totalKB as real / 1048576.0)
    ensures m.usedGB == Round2((totalKB - availKB) as real / 1048576.0)
    ensures totalKB != 0 ==> m.percent == Round2((totalKB - availKB) as real / totalKB as real * 100.0)
    ensures totalKB == 0 ==> m.percent == 0.0
  {
    var totalGB := totalKB as real / 1048576.0;
    var usedGB := (totalKB - availKB) as real / 1048576.0;
    if totalKB == 0 then MemInfo(Round2(totalGB), Round2(usedGB), 0.0)
    else
      ScaledRatio((totalKB - availKB) as real, totalKB as real, 1048576.0);
      MemInfo(Round2(totalGB), Round2(usedGB), Round2((usedGB / totalGB) * 100.0))
  }

  /** Scaling both sides of a ratio by the same factor keeps the ratio. */
  lemma ScaledRatio(a: real, b: real, c: real)
    requires b != 0.0 && c > 0.0
    ensures (a / c) / (b / c) == a / b
  {
    var x, y := a / c, b / c;
    assert x * c == a && y * c == b;
    assert (a / b) * y * c == a;
  }

  /** With 0 <= available <= total, the used share is a percentage. */
  lemma MemPercentBounded(totalKB: int, availKB: int)
    requires 0 <= availKB <= totalKB
    ensures 0.0 <= MemFromKB(totalKB, availKB).percent <= 100.0
    ensures MemFromKB(totalKB, availKB).usedGB <= MemFromKB(totalKB, availKB).totalGB
  {
    if totalKB != 0 {
      var f := (totalKB - availKB) as real / totalKB as real;
      assert 0.0 <= f <= 1.0;
      Round2KeepsPercent(f * 100.0);
    }
    Round2Monotone((totalKB - availKB) as real / 1048576.0, totalKB as real / 1048576.0);
  }

  lemma Round2Monotone(a: real, b: real)
    requires 0.0 <= a <= b
    ensures Round2(a) <= Round2(b)
  {
    assert (a * 100.0).Floor <= (b * 100.0).Floor;
  }

  /** `getMemory` on Linux: MemTotal and MemAvailable from /proc/meminfo, the
      last line of each kind winning; all zero when the file cannot be read. */
  method LinuxMemory(out: CmdOutput, scan: IntScanner) returns (m: MemInfo)
    ensures out.Failed? ==> m == MemInfo(0.0, 0.0, 0.0)
    ensures out.Output? ==> m == MemFromKB(LastKB(Lines(out.text), "MemTotal:", scan), LastKB(Lines(out.text), "MemAvailable:", scan))
  {
    if out.Failed? {
      return MemInfo(0.0, 0.0, 0.0);
    }
    var lines := Lines(out.text);
    var totalKB, availKB := 0, 0;
    for i := 0 to |lines|
      invariant totalKB == LastKB(lines[..i], "MemTotal:", scan)
      invariant availKB == LastKB(lines[..i], "MemAvailable:", scan)
    {
      assert lines[..i + 1][..i] == lines[..i];
      var line := lines[i];
      if HasPrefix(line, "MemTotal:") {
        var v := scan(line[|"MemTotal:"|..]);
        if v.Some? {
          totalKB := v.value;
        }
      }
      if HasPrefix(line, "MemAvailable:") {
        var v := scan(line[|"MemAvailable:"|..]);
        if v.Some? {
          availKB := v.value;
        }
      }
    }
    assert lines[..|lines|] == lines;
    m := MemFromKB(totalKB, availKB);
  }
}

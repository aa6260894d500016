/** Listening TCP sockets, read from `lsof -iTCP -sTCP:LISTEN -nP` on macOS and
    from `ss -tlnp` on Linux (internal/ports/ports.go). The command's output is
    an input. */
module Ports {
  import opened Wrappers
  import opened GoStrings
  import opened Command

  datatype PortInfo = PortInfo(protocol: string, address: string, port: string, pid: string, process: string)

  /** `splitAddrPort`: address and port split at the last colon, so that IPv6
      addresses keep their own colons; the whole text and no port when there
      is no colon. */
  function SplitAddrPort(s: string): (r: (string, string))
    ensures ':' !in s ==> r == (s, "")
    ensures ':' in s ==> r.0 + ":" + r.1 == s
    ensures ':' !in r.1
  {
    var lastColon := LastIndexChar(s, ':');
    if lastColon < 0 then (s, "")
    else
      assert s == s[..lastColon] + ":" + s[lastColon + 1..];
      (s[..lastColon], s[lastColon + 1..])
  }

  /** A host and a port without colons, joined by ':', split back into the
      same pair: the port is everything after the last colon. */
  lemma SplitAddrPortJoin(host: string, port: string)
    requires ':' !in port
    ensures SplitAddrPort(host + ":" + port) == (host, port)
  {
    var s := host + ":" + port;
    var i := |host|;
    assert s[i] == ':';
    assert s[i + 1..] == port;
    assert s[..i] == host;
    LastIndexCharAt(s, ':', i);
  }

  /** The IPv4, wildcard and port-less examples the Go tests check. */
  lemma SplitAddrPortExamples()
    ensures SplitAddrPort("127.0.0.1:8080") == ("127.0.0.1", "8080")
    ensures SplitAddrPort("*:443") == ("*", "443")
    ensures SplitAddrPort("noport") == ("noport", "")
  {
    SplitAddrPortJoin("127.0.0.1", "8080");
    assert "127.0.0.1" + ":" + "8080" == "127.0.0.1:8080";
    SplitAddrPortJoin("*", "443");
    assert "*" + ":" + "443" == "*:443";
    assert ':' !in "noport";
  }

  /** The IPv6 examples the Go tests check: only the last colon separates
      the port. */
  lemma SplitAddrPortIPv6Examples()
    ensures SplitAddrPort("[::1]:3000") == ("[::1]", "3000")
    ensures SplitAddrPort(":::22") == ("::", "22")
  {
    SplitAddrPortJoin("[::1]", "3000");
    assert "[::1]" + ":" + "3000" == "[::1]:3000";
    SplitAddrPortJoin("::", "22");
    assert "::" + ":" + "22" == ":::22";
  }

  // ---------------------------------------------------------------- macOS

  /** An `lsof` line `listDarwin` reads, by its columns: at least nine, and
      not the header. */
  predicate DarwinRow(fields: seq<string>) {
    |fields| >= 9 && fields[0] != "COMMAND"
  }

  /** The de-duplication key of an `lsof` row: NAME column, "-", PID column. */
  function DarwinKey(fields: seq<string>): string
    requires DarwinRow(fields)
  {
    fields[8] + "-" + fields[1]
  }

  /** The entry an `lsof` row gives: command, PID and the split NAME column. */
  function DarwinEntry(fields: seq<string>): (p: PortInfo)
    requires DarwinRow(fields)
    ensures p.protocol == "tcp"
    ensures p.process == fields[0] && p.pid == fields[1]
    ensures (p.address, p.port) == SplitAddrPort(fields[8])
  {
    var (addr, port) := SplitAddrPort(fields[8]);
    PortInfo("tcp", addr, port, fields[1], fields[0])
  }

  /** What reading some `lsof` rows gives: the entries, the key of each and
      the row each came from. */
  datatype DarwinScan = DarwinScan(ports: seq<PortInfo>, keys: seq<string>, src: seq<nat>)

  /** The rows read in order, a row kept only when its key was not seen on an
      earlier row. Each entry comes from a row, in row order. */
  function ScanDarwin(rows: seq<seq<string>>): (sc: DarwinScan)
    ensures |sc.ports| == |sc.keys| == |sc.src|
    ensures forall k :: 0 <= k < |sc.src| ==>
              sc.src[k] < |rows| && DarwinRow(rows[sc.src[k]])
              && sc.ports[k] == DarwinEntry(rows[sc.src[k]]) && sc.keys[k] == DarwinKey(rows[sc.src[k]])
    ensures forall k, l :: 0 <= k < l < |sc.src| ==> sc.src[k] < sc.src[l]
  {
    if rows == [] then DarwinScan([], [], [])
    else
      var n := |rows| - 1;
      var before := ScanDarwin(rows[..n]);
      var row := rows[n];
      if !DarwinRow(row) || DarwinKey(row) in before.keys then before
      else DarwinScan(before.ports + [DarwinEntry(row)], before.keys + [DarwinKey(row)], before.src + [n])
  }

  /** Nothing is lost but duplicates: the key of every row is among the
      entries' keys. */
  lemma {:induction false} ScanDarwinComplete(rows: seq<seq<string>>, j: nat)
    requires j < |rows| && DarwinRow(rows[j])
    ensures DarwinKey(rows[j]) in ScanDarwin(rows).keys
    decreases |rows|
  {
    var n := |rows| - 1;
    if j < n {
      assert rows[..n][j] == rows[j];
      ScanDarwinComplete(rows[..n], j);
    }
  }

  /** Each entry comes from the first row with its key. */
  lemma {:induction false} ScanDarwinFirst(rows: seq<seq<string>>, k: nat, j: nat)
    requires k < |ScanDarwin(rows).src|
    requires j < ScanDarwin(rows).src[k] && DarwinRow(rows[j])
    ensures DarwinKey(rows[j]) != ScanDarwin(rows).keys[k]
    decreases |rows|
  {
    var n := |rows| - 1;
    var before := ScanDarwin(rows[..n]);
    assert rows[..n][j] == rows[j] by {
      assert j < n;
    }
    if k < |before.src| {
      ScanDarwinFirst(rows[..n], k, j);
    } else {
      ScanDarwinComplete(rows[..n], j);
    }
  }

  /** No two entries share a NAME-PID key. */
  lemma ScanDarwinDistinct(rows: seq<seq<string>>, k: nat, l: nat)
    requires k < l < |ScanDarwin(rows).keys|
    ensures ScanDarwin(rows).keys[k] != ScanDarwin(rows).keys[l]
  {
    var sc := ScanDarwin(rows);
    ScanDarwinFirst(rows, l, sc.src[k]);
  }

  /** Reading row `i` after the rows before it: the row adds its entry when
      it is an `lsof` row whose key was not seen yet. */
  lemma ScanDarwinStep(rows: seq<seq<string>>, i: nat, before: DarwinScan)
    requires i < |rows| && before == ScanDarwin(rows[..i])
    ensures ScanDarwin(rows[..i + 1]) ==
              if !DarwinRow(rows[i]) || DarwinKey(rows[i]) in before.keys then before
              else DarwinScan(before.ports + [DarwinEntry(rows[i])], before.keys + [DarwinKey(rows[i])], before.src + [i])
  {
    assert rows[..i + 1][..i] == rows[..i];
    assert rows[..i + 1][i] == rows[i];
  }

  /** The body of `listDarwin`: every line of the output, skipping short lines
      and the header, keeping the first row of each NAME-PID pair. */
  method ParseDarwin(out: string) returns (ports: seq<PortInfo>)
    ensures ports == ScanDarwin(Rows(out)).ports
  {
    var lines := Lines(out);
    ghost var rows := Rows(out);
    ports := [];
    var seen: set<string> := {};
    ghost var keys: seq<string> := [];
    ghost var src: seq<nat> := [];
    for i := 0 to |lines|
      invariant DarwinScan(ports, keys, src) == ScanDarwin(rows[..i])
      invariant forall k :: k in seen <==> k in keys
    {
      ScanDarwinStep(rows, i, DarwinScan(ports, keys, src));
      var fields := Fields(lines[i]);
      assert fields == rows[i];
      if |fields| < 9 || fields[0] == "COMMAND" {
        continue;
      }
      var process := fields[0];
      var pid := fields[1];
      var addrPort := fields[8];
      var key := addrPort + "-" + pid;
      assert key == DarwinKey(fields);
      if key in seen {
        continue;
      }
      seen := seen + {key};
      var (addr, port) := SplitAddrPort(addrPort);
      assert PortInfo("tcp", addr, port, pid, process) == DarwinEntry(fields);
      ports := ports + [PortInfo("tcp", addr, port, pid, process)];
      keys := keys + [key];
      src := src + [i];
    }
    assert rows[..|lines|] == rows;
  }

  /** `listDarwin`: the parsed entries, or the command's error. */
  method ListDarwin(out: CmdOutput) returns (r: Result<seq<PortInfo>, string>)
    ensures out.Failed? ==> r == Err("failed to list ports: " + out.err)
    ensures out.Output? ==> r == Ok(ScanDarwin(Rows(out.text)).ports)
  {
    if out.Failed? {
      return Err("failed to list ports: " + out.err);
    }
    var ports := ParseDarwin(out.text);
    return Ok(ports);
  }

  // ---------------------------------------------------------------- Linux

  /** An `ss` line `listLinux` reads, by its columns: at least five, and not
      the header. */
  predicate LinuxRow(fields: seq<string>) {
    |fields| >= 5 && fields[0] != "State"
  }

  const ProcessOpen: string := "((\""

  /** The process name in an `ss` users column such as `users:(("nginx",pid=1,fd=6))`:
      the text between the first `(("` and the next `"`, or "" when either is
      missing. */
  function ProcessName(p: string): (name: string)
    ensures '"' !in name
    ensures Index(p, ProcessOpen) < 0 ==> name == ""
    ensures Index(p, ProcessOpen) >= 0 && '"' !in p[Index(p, ProcessOpen) + 3..] ==> name == ""
    ensures Index(p, ProcessOpen) >= 0 && '"' in p[Index(p, ProcessOpen) + 3..] ==>
              OccursAt(p, ProcessOpen + name + "\"", Index(p, ProcessOpen))
  {
    var idx := Index(p, ProcessOpen);
    if idx < 0 then ""
    else
      var rest := p[idx + 3..];
      var end := IndexChar(rest, '"');
      if end < 0 then ""
      else
        assert rest[end] == '"';
        ProcessNameFound(p, idx, end);
        rest[..end]
  }

  /** The opener, the name and its closing quote sit together in the column. */
  lemma ProcessNameFound(p: string, idx: nat, end: nat)
    requires OccursAt(p, ProcessOpen, idx) && idx + 3 + end < |p| && p[idx + 3 + end] == '"'
    ensures OccursAt(p, ProcessOpen + p[idx + 3..idx + 3 + end] + "\"", idx)
  {
    assert p[idx..idx + 3 + end + 1] == p[idx..idx + 3] + p[idx + 3..idx + 3 + end] + [p[idx + 3 + end]];
  }

  /** The contract of ProcessName pins the name: a quote-free text that
      sits between the first `(("` and a quote is the name. */
  lemma ProcessNameIs(p: string, n: string)
    requires Index(p, ProcessOpen) >= 0 && '"' !in n
    requires OccursAt(p, ProcessOpen + n + "\"", Index(p, ProcessOpen))
    ensures ProcessName(p) == n
  {
    var idx := Index(p, ProcessOpen);
    OccursSplit(p, ProcessOpen, n, idx);
    IndexCharAt(p[idx + 3..], '"', |n|);
  }

  /** Where `open + n + "\""` occurs, `n` and then the quote follow the opener. */
  lemma OccursSplit(p: string, open: string, n: string, idx: int)
    requires OccursAt(p, open + n + "\"", idx)
    ensures idx + |open| + |n| < |p|
    ensures p[idx + |open|..][..|n|] == n && p[idx + |open|..][|n|] == '"'
  {
    var w := open + n + "\"";
    assert p[idx..idx + |w|] == w;
    var lo := idx + |open|;
    var name := p[lo..lo + |n|];
    forall k | 0 <= k < |n|
      ensures name[k] == n[k]
    {
      assert p[lo + k] == p[idx..idx + |w|][|open| + k];
    }
    assert name == n;
    assert p[lo..][..|n|] == name;
    assert p[lo + |n|] == p[idx..idx + |w|][|open| + |n|];
  }

  /** The entry an `ss` row gives: the split local address (fourth column),
      no PID, and the process from the sixth column when there is one. */
  function LinuxEntry(fields: seq<string>): (p: PortInfo)
    requires LinuxRow(fields)
    ensures p.protocol == "tcp" && p.pid == ""
    ensures (p.address, p.port) == SplitAddrPort(fields[3])
    ensures |fields| < 6 ==> p.process == ""
    ensures |fields| >= 6 ==> p.process == ProcessName(fields[5])
  {
    var (addr, port) := SplitAddrPort(fields[3]);
    var process := if |fields| >= 6 then ProcessName(fields[5]) else "";
    PortInfo("tcp", addr, port, "", process)
  }

  /** The entries of the `ss` rows among `rows`, in row order. */
  function ScanLinux(rows: seq<seq<string>>): (ports: seq<PortInfo>)
    ensures |ports| <= |rows|
    ensures forall k :: 0 <= k < |ports| ==> ports[k].protocol == "tcp" && ports[k].pid == ""
  {
    if rows == [] then []
    else
      var n := |rows| - 1;
      var before := ScanLinux(rows[..n]);
      if LinuxRow(rows[n]) then before + [LinuxEntry(rows[n])] else before
  }

  /** Every `ss` row gives exactly one entry, at the position given by the
      number of entries before it: no row is dropped and order is kept. */
  lemma {:induction false} ScanLinuxRows(rows: seq<seq<string>>, j: nat)
    requires j < |rows| && LinuxRow(rows[j])
    ensures |ScanLinux(rows[..j])| < |ScanLinux(rows)|
    ensures ScanLinux(rows)[|ScanLinux(rows[..j])|] == LinuxEntry(rows[j])
    decreases |rows|
  {
    var n := |rows| - 1;
    var before := ScanLinux(rows[..n]);
    ScanLinuxLast(rows);
    if j < n {
      assert rows[..n][..j] == rows[..j];
      assert rows[..n][j] == rows[j];
      ScanLinuxRows(rows[..n], j);
      assert before <= ScanLinux(rows);
    } else {
      assert rows[..n] == rows[..j];
    }
  }

  /** The last row adds its entry, when it is an `ss` row. */
  lemma ScanLinuxLast(rows: seq<seq<string>>)
    requires rows != []
    ensures LinuxRow(rows[|rows| - 1]) ==> ScanLinux(rows) == ScanLinux(rows[..|rows| - 1]) + [LinuxEntry(rows[|rows| - 1])]
    ensures !LinuxRow(rows[|rows| - 1]) ==> ScanLinux(rows) == ScanLinux(rows[..|rows| - 1])
  {
  }

  /** The statements of `listLinux` that cut the process name out of the
      users column. */
  method UsersProcess(p: string) returns (process: string)
    ensures process == ProcessName(p)
  {
    process := "";
    var idx := Index(p, ProcessOpen);
    if idx >= 0 {
      var end := IndexChar(p[idx + 3..], '"');
      if end >= 0 {
        process := p[idx + 3..idx + 3 + end];
      }
    }
  }

  /** Reading row `i` after the rows before it adds its entry when it is an
      `ss` row. */
  lemma ScanLinuxStep(rows: seq<seq<string>>, i: nat, before: seq<PortInfo>)
    requires i < |rows| && before == ScanLinux(rows[..i])
    ensures ScanLinux(rows[..i + 1]) == if LinuxRow(rows[i]) then before + [LinuxEntry(rows[i])] else before
  {
    assert rows[..i + 1][..i] == rows[..i];
    assert rows[..i + 1][i] == rows[i];
  }

  /** The body of `listLinux`: one entry per `ss` row, in order. */
  method ParseLinux(out: string) returns (ports: seq<PortInfo>)
    ensures ports == ScanLinux(Rows(out))
  {
    var lines := Lines(out);
    ghost var rows := Rows(out);
    ports := [];
    for i := 0 to |lines|
      invariant ports == ScanLinux(rows[..i])
    {
      ScanLinuxStep(rows, i, ports);
      var fields := Fields(lines[i]);
      assert fields == rows[i];
      var entry := ReadLinuxRow(fields);
      ports := ports + entry;
    }
    assert rows[..|lines|] == rows;
  }

  /** One pass of the loop body of `listLinux`: the header and rows with
      fewer than five columns give nothing, any other row its entry. */
  method ReadLinuxRow(fields: seq<string>) returns (entry: seq<PortInfo>)
    ensures entry == if LinuxRow(fields) then [LinuxEntry(fields)] else []
  {
    if |fields| < 5 || fields[0] == "State" {
      return [];
    }
    var (addr, port) := SplitAddrPort(fields[3]);
    var process := "";
    if |fields| >= 6 {
      process := UsersProcess(fields[5]);
    }
    return [PortInfo("tcp", addr, port, "", process)];
  }

  /** `listLinux`: the parsed entries, or the command's error. */
  method ListLinux(out: CmdOutput) returns (r: Result<seq<PortInfo>, string>)
    ensures out.Failed? ==> r == Err("failed to list ports: " + out.err)
    ensures out.Output? ==> r == Ok(ScanLinux(Rows(out.text)))
  {
    if out.Failed? {
      return Err("failed to list ports: " + out.err);
    }
    var ports := ParseLinux(out.text);
    return Ok(ports);
  }

  /** `List`: the parser for the running system, an error on any other. */
  method List(goos: string, out: CmdOutput) returns (r: Result<seq<PortInfo>, string>)
    ensures goos != "darwin" && goos != "linux" ==> r == Err("unsupported OS: " + goos)
    ensures goos == "darwin" && out.Output? ==> r == Ok(ScanDarwin(Rows(out.text)).ports)
    ensures goos == "linux" && out.Output? ==> r == Ok(ScanLinux(Rows(out.text)))
    ensures (goos == "darwin" || goos == "linux") && out.Failed? ==> r == Err("failed to list ports: " + out.err)
  {
    if goos == "darwin" {
      r := ListDarwin(out);
    } else if goos == "linux" {
      r := ListLinux(out);
    } else {
      r := Err("unsupported OS: " + goos);
    }
  }
}

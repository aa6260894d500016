/** Human-readable output (internal/format/human.go): the container, port and
    device tables, the icon for an alert status, the one-line summaries of
    `--all`, and the lookups those summaries make in decoded JSON. */
module Format {
  import opened GoStrings
  import opened Docker
  import opened Alerts
  import P = Ports

  /** `%-<width>s`: `s` padded on the right with spaces to `width` characters,
      or unchanged when it is already as long. */
  function PadRight(s: string, width: nat): (r: string)
    ensures |r| == if |s| < width then width else |s|
    ensures HasPrefix(r, s)
    ensures forall k :: |s| <= k < |r| ==> r[k] == ' '
  {
    if |s| < width then s + seq(width - |s|, _ => ' ') else s
  }

  /** A table body: the row of each element, in order. */
  function RowsText<T>(xs: seq<T>, row: T -> string): string {
    if xs == [] then "" else RowsText(xs[..|xs| - 1], row) + row(xs[|xs| - 1])
  }

  lemma RowsTextSnoc<T>(xs: seq<T>, i: nat, row: T -> string)
    requires i < |xs|
    ensures RowsText(xs[..i + 1], row) == RowsText(xs[..i], row) + row(xs[i])
  {
    assert xs[..i + 1][..i] == xs[..i];
  }

  /** One turn of a formatter's loop: appending the next row keeps the text
      equal to the header and the rows so far. */
  lemma RowsStep<T>(header: string, out: string, xs: seq<T>, i: nat, row: T -> string)
    requires i < |xs| && out == header + RowsText(xs[..i], row)
    ensures out + row(xs[i]) == header + RowsText(xs[..i + 1], row)
  {
    RowsTextSnoc(xs, i, row);
  }

  lemma {:induction false} RowsTextPrefix<T>(xs: seq<T>, i: nat, row: T -> string)
    requires i <= |xs|
    ensures HasPrefix(RowsText(xs, row), RowsText(xs[..i], row))
    decreases |xs|
  {
    if i < |xs| {
      var n := |xs| - 1;
      assert xs[..n][..i] == xs[..i];
      RowsTextPrefix(xs[..n], i, row);
    } else {
      assert xs[..i] == xs;
    }
  }

  lemma OccursContains(s: string, sub: string, i: int)
    requires OccursAt(s, sub, i)
    ensures Contains(s, sub)
  {
  }

  /** Every element's row is in the table. */
  lemma RowsTextContains<T>(xs: seq<T>, i: nat, row: T -> string)
    requires i < |xs|
    ensures Contains(RowsText(xs, row), row(xs[i]))
  {
    RowsTextSnoc(xs, i, row);
    RowsTextPrefix(xs, i + 1, row);
    var before, r := RowsText(xs[..i], row), row(xs[i]);
    var upTo, whole := before + r, RowsText(xs, row);
    assert whole[..|upTo|] == upTo;
    assert upTo[|before|..] == r;
    assert whole[|before|..|upTo|] == r;
    OccursContains(whole, r, |before|);
  }

  /** `sub` somewhere in a part of a text is in the text. */
  lemma ContainsIn(a: string, b: string, c: string, sub: string)
    requires Contains(b, sub)
    ensures Contains(a + b + c, sub)
  {
    var i := Index(b, sub);
    assert (a + b + c)[|a| + i..|a| + i + |sub|] == b[i..i + |sub|];
    OccursContains(a + b + c, sub, |a| + i);
  }

  // ---- DockerList ----

  const DockerHeader: string :=
    PadRight("CONTAINER", 20) + " " + PadRight("IMAGE", 30) + " " + PadRight("STATE", 10) + " STATUS\n"

  function ContainerRow(c: Container): (row: string)
    ensures HasPrefix(row, c.name)
  {
    PadRight(c.name, 20) + " " + PadRight(c.image, 30) + " " + PadRight(c.state, 10) + " " + c.status + "\n"
  }

  /** `DockerList`: a fixed message when there are no containers, otherwise a
      header and one row per container, in order. */
  function DockerListText(cs: seq<Container>): string {
    if |cs| == 0 then "No containers found.\n" else DockerHeader + RowsText(cs, ContainerRow)
  }

  method DockerList(cs: seq<Container>) returns (out: string)
    ensures out == DockerListText(cs)
  {
    if |cs| == 0 {
      return "No containers found.\n";
    }
    out := DockerHeader;
    for i := 0 to |cs|
      invariant out == DockerHeader + RowsText(cs[..i], ContainerRow)
    {
      RowsStep(DockerHeader, out, cs, i, ContainerRow);
      out := out + ContainerRow(cs[i]);
    }
    assert cs[..|cs|] == cs;
  }

  /** The container table names every container; an empty list is the
      message alone. */
  lemma DockerListShowsEvery(cs: seq<Container>, i: nat)
    requires i < |cs|
    ensures HasPrefix(DockerListText(cs), DockerHeader)
    ensures Contains(DockerListText(cs), cs[i].name)
    ensures DockerListText([]) == "No containers found.\n"
  {
    RowsTextContains(cs, i, ContainerRow);
    var row := ContainerRow(cs[i]);
    assert row[..|cs[i].name|] == cs[i].name;
    OccursContains(row, cs[i].name, 0);
    var rows := RowsText(cs, ContainerRow);
    var j := Index(rows, row);
    assert rows[j..j + |row|] == row;
    assert rows[j..j + |cs[i].name|] == cs[i].name;
    OccursContains(rows, cs[i].name, j);
    ContainsIn(DockerHeader, rows, "", cs[i].name);
    assert DockerHeader + rows + "" == DockerListText(cs);
  }

  // ---- Ports ----

  const PortsHeader: string :=
    PadRight("PROTO", 6) + " " + PadRight("ADDRESS", 20) + " " + PadRight("PORT", 8) + " PROCESS\n"

  /** The process column: "process/pid" when the PID is known, the process
      alone otherwise. */
  function ProcessColumn(p: P.PortInfo): (col: string)
    ensures p.pid != "" ==> col == p.process + "/" + p.pid
    ensures p.pid == "" ==> col == p.process
  {
    if p.pid != "" then p.process + "/" + p.pid else p.process
  }

  /** A port's row, given its process column. */
  function PortLine(p: P.PortInfo, process: string): string {
    PadRight(p.protocol, 6) + " " + PadRight(p.address, 20) + " " + PadRight(p.port, 8) + " " + process + "\n"
  }

  function PortRow(p: P.PortInfo): string {
    PortLine(p, ProcessColumn(p))
  }

  /** `Ports`: a fixed message when no port is open, otherwise a header and
      one row per port, in order. */
  function PortsText(ps: seq<P.PortInfo>): string {
    if |ps| == 0 then "No open ports found.\n" else PortsHeader + RowsText(ps, PortRow)
  }

  method Ports(ps: seq<P.PortInfo>) returns (out: string)
    ensures out == PortsText(ps)
  {
    if |ps| == 0 {
      return "No open ports found.\n";
    }
    out := PortsHeader;
    for i := 0 to |ps|
      invariant out == PortsHeader + RowsText(ps[..i], PortRow)
    {
      var process := ps[i].process;
      if ps[i].pid != "" {
        process := ps[i].process + "/" + ps[i].pid;
      }
      RowsStep(PortsHeader, out, ps, i, PortRow);
      out := out + PortLine(ps[i], process);
    }
    assert ps[..|ps|] == ps;
  }

  /** Every port's row, with its process column, is in the table. */
  lemma PortsShowsEvery(ps: seq<P.PortInfo>, i: nat)
    requires i < |ps|
    ensures Contains(PortsText(ps), PortRow(ps[i]))
    ensures ps[i].pid != "" ==> Contains(PortRow(ps[i]), ps[i].process + "/" + ps[i].pid)
    ensures PortsText([]) == "No open ports found.\n"
  {
    RowsTextContains(ps, i, PortRow);
    ContainsIn(PortsHeader, RowsText(ps, PortRow), "", PortRow(ps[i]));
    assert PortsHeader + RowsText(ps, PortRow) + "" == PortsText(ps);
    var p := ps[i];
    var front := PadRight(p.protocol, 6) + " " + PadRight(p.address, 20) + " " + PadRight(p.port, 8) + " ";
    assert PortRow(p) == front + ProcessColumn(p) + "\n";
    assert PortRow(p)[|front|..|front| + |ProcessColumn(p)|] == ProcessColumn(p);
    OccursContains(PortRow(p), ProcessColumn(p), |front|);
  }

  // ---- NetworkScan ----

  /** A device found on the local network. The scanner that finds them is
      not part of this model. */
  datatype Device = Device(ip: string, mac: string, hostname: string)

  const NetworkHeader: string := PadRight("IP", 18) + " " + PadRight("MAC", 20) + " HOSTNAME\n"

  /** The host name column: "-" for a device without a name. */
  function HostnameColumn(d: Device): (col: string)
    ensures d.hostname == "" ==> col == "-"
    ensures d.hostname != "" ==> col == d.hostname
    ensures col != ""
  {
    if d.hostname == "" then "-" else d.hostname
  }

  /** A device's row, given its host name column. */
  function DeviceLine(d: Device, hostname: string): string {
    PadRight(d.ip, 18) + " " + PadRight(d.mac, 20) + " " + hostname + "\n"
  }

  function DeviceRow(d: Device): string {
    DeviceLine(d, HostnameColumn(d))
  }

  /** The line that closes the device table. */
  function DeviceCount(n: nat): string {
    "\n" + Itoa(n) + " devices found.\n"
  }

  /** `NetworkScan`: a fixed message when no device was found, otherwise a
      header, one row per device in order, and the number of devices. */
  function NetworkScanText(ds: seq<Device>): string {
    if |ds| == 0 then "No devices found.\n" else NetworkHeader + RowsText(ds, DeviceRow) + DeviceCount(|ds|)
  }

  method NetworkScan(ds: seq<Device>) returns (out: string)
    ensures out == NetworkScanText(ds)
  {
    if |ds| == 0 {
      return "No devices found.\n";
    }
    out := NetworkHeader;
    for i := 0 to |ds|
      invariant out == NetworkHeader + RowsText(ds[..i], DeviceRow)
    {
      var hostname := ds[i].hostname;
      if hostname == "" {
        hostname := "-";
      }
      RowsStep(NetworkHeader, out, ds, i, DeviceRow);
      out := out + DeviceLine(ds[i], hostname);
    }
    assert ds[..|ds|] == ds;
    out := out + DeviceCount(|ds|);
  }

  /** The device table ends with the number of devices, and shows every
      device's row. */
  lemma NetworkScanShowsEvery(ds: seq<Device>, i: nat)
    requires i < |ds|
    ensures HasSuffix(NetworkScanText(ds), DeviceCount(|ds|))
    ensures Contains(NetworkScanText(ds), DeviceRow(ds[i]))
    ensures NetworkScanText([]) == "No devices found.\n"
  {
    RowsTextContains(ds, i, DeviceRow);
    ContainsIn(NetworkHeader, RowsText(ds, DeviceRow), DeviceCount(|ds|), DeviceRow(ds[i]));
  }

  // ---- statusIcon ----

  const OkIcon: string := "\U{2705}"
  const WarningIcon: string := "\U{26A0}\U{FE0F}"
  const CriticalIcon: string := "\U{1F534}"

  /** `statusIcon`: an icon for each alert status, any other text unchanged. */
  function StatusIcon(status: string): (icon: string)
    ensures status == "ok" ==> icon == OkIcon
    ensures status == "warning" ==> icon == WarningIcon
    ensures status == "critical" ==> icon == CriticalIcon
    ensures status != "ok" && status != "warning" && status != "critical" ==> icon == status
  {
    if status == "ok" then OkIcon
    else if status == "warning" then WarningIcon
    else if status == "critical" then CriticalIcon
    else status
  }

  /** Every alert an `Alerts` report shows gets one of the three icons, a
      different one for each status, so the icon tells the status apart. */
  lemma AlertIconTellsStatus(c1: real, t1: real, c2: real, t2: real)
    ensures StatusIcon(StatusFor(c1, t1)) in {OkIcon, WarningIcon, CriticalIcon}
    ensures StatusIcon(StatusFor(c1, t1)) == StatusIcon(StatusFor(c2, t2)) <==> StatusFor(c1, t1) == StatusFor(c2, t2)
  {
    assert OkIcon != WarningIcon && OkIcon != CriticalIcon && WarningIcon != CriticalIcon by {
      assert |OkIcon| == 1 && |WarningIcon| == 2 && OkIcon[0] != CriticalIcon[0];
    }
  }

  // ---- JSON lookups ----

  /** A value decoded from JSON into Go's `interface{}`. */
  datatype Json = Null | Bool(b: bool) | Number(n: real) | Str(s: string) | Array(items: seq<Json>) | Object(fields: map<string, Json>)

  /** The number at the end of a path of keys through nested objects, and 0
      when a key is missing, a step is not an object, the end is not a
      number, or the path is empty. */
  function NestedFloat(data: map<string, Json>, keys: seq<string>): real
    decreases |keys|
  {
    if keys == [] then 0.0
    else if |keys| == 1 then
      if keys[0] in data && data[keys[0]].Number? then data[keys[0]].n else 0.0
    else if keys[0] in data && data[keys[0]].Object? then NestedFloat(data[keys[0]].fields, keys[1..])
    else 0.0
  }

  /** `getNestedFloat`: walks down the objects key by key. */
  method GetNestedFloat(data: map<string, Json>, keys: seq<string>) returns (v: real)
    ensures v == NestedFloat(data, keys)
  {
    var current := data;
    for i := 0 to |keys|
      invariant NestedFloat(current, keys[i..]) == NestedFloat(data, keys)
    {
      var key := keys[i];
      assert keys[i..][1..] == keys[i + 1..];
      if i == |keys| - 1 {
        if key in current && current[key].Number? {
          return current[key].n;
        }
        return 0.0;
      }
      if key in current && current[key].Object? {
        current := current[key].fields;
      } else {
        return 0.0;
      }
    }
    return 0.0;
  }

  /** The objects nested along `keys`, ending with the number `x`. */
  function Nest(keys: seq<string>, x: real): map<string, Json>
    requires keys != []
    decreases |keys|
  {
    if |keys| == 1 then map[keys[0] := Number(x)]
    else map[keys[0] := Object(Nest(keys[1..], x))]
  }

  /** Looking a path up in the objects built along it gives back the number
      put at its end. */
  lemma {:induction false} NestedFloatOfNest(keys: seq<string>, x: real)
    requires keys != []
    ensures NestedFloat(Nest(keys, x), keys) == x
    decreases |keys|
  {
    if |keys| > 1 {
      NestedFloatOfNest(keys[1..], x);
    }
  }

  /** A missing first key, or a first step that is not an object on a longer
      path, gives 0. */
  lemma NestedFloatMissing(data: map<string, Json>, keys: seq<string>)
    requires keys != []
    requires keys[0] !in data || (|keys| > 1 && !data[keys[0]].Object?) || (|keys| == 1 && !data[keys[0]].Number?)
    ensures NestedFloat(data, keys) == 0.0
  {
  }

  /** `getFirstDiskPercent`: the "usage_percent" number of the first entry of
      the "disks" array, and 0 when any of those is missing or of another
      kind. */
  function FirstDiskPercent(data: map<string, Json>): (v: real)
    ensures v != 0.0 ==> "disks" in data && data["disks"].Array? && |data["disks"].items| > 0
                         && data["disks"].items[0].Object?
                         && "usage_percent" in data["disks"].items[0].fields
                         && data["disks"].items[0].fields["usage_percent"] == Number(v)
  {
    if "disks" in data && data["disks"].Array? && |data["disks"].items| > 0 then
      var d := data["disks"].items[0];
      if d.Object? && "usage_percent" in d.fields && d.fields["usage_percent"].Number? then
        d.fields["usage_percent"].n
      else 0.0
    else 0.0
  }

  /** The first disk's percent is the one-key lookup in its object, and 0
      when there is no first disk. */
  lemma FirstDiskPercentIsLookup(data: map<string, Json>)
    ensures "disks" in data && data["disks"].Array? && |data["disks"].items| > 0 && data["disks"].items[0].Object? ==>
              FirstDiskPercent(data) == NestedFloat(data["disks"].items[0].fields, ["usage_percent"])
    ensures !("disks" in data && data["disks"].Array? && |data["disks"].items| > 0) ==> FirstDiskPercent(data) == 0.0
  {
  }

  // ---- MultiServer ----

  /** One line of the `--all` summary; the numbers are shown with `%4.0f`. */
  datatype ServerLine =
    | ErrorLine(server: string, err: string)
    | NoData(server: string)
    | Metrics(server: string, cpu: real, mem: real, disk: real, uptime: string)

  /** The string under `key`, or "" when it is missing or not a string; the
      demo tools read their arguments the same way (`stringArg`). */
  function StringField(r: map<string, Json>, key: string): (s: string)
    ensures key in r && r[key].Str? ==> s == r[key].s
    ensures !(key in r && r[key].Str?) ==> s == ""
  {
    if key in r && r[key].Str? then r[key].s else ""
  }

  /** The line for one server's result: its error when it has a non-empty
      one, "(no data)" when its data is not an object, otherwise CPU, memory
      and first-disk percent and the uptime. */
  function LineOf(r: map<string, Json>): (line: ServerLine)
    ensures line.server == StringField(r, "server")
    ensures line.ErrorLine? <==> StringField(r, "error") != ""
    ensures line.ErrorLine? ==> line.err == StringField(r, "error")
    ensures line.NoData? <==> StringField(r, "error") == "" && !("data" in r && r["data"].Object?)
    ensures line.Metrics? ==> var data := r["data"].fields;
              line.cpu == NestedFloat(data, ["cpu", "usage_percent"])
              && line.mem == NestedFloat(data, ["memory", "usage_percent"])
              && line.disk == FirstDiskPercent(data)
              && line.uptime == StringField(data, "uptime")
  {
    var server := StringField(r, "server");
    var err := StringField(r, "error");
    if err != "" then ErrorLine(server, err)
    else if !("data" in r && r["data"].Object?) then NoData(server)
    else
      var data := r["data"].fields;
      Metrics(server, NestedFloat(data, ["cpu", "usage_percent"]), NestedFloat(data, ["memory", "usage_percent"]),
              FirstDiskPercent(data), StringField(data, "uptime"))
  }

  /** `MultiServer`: one line per result, in order. */
  method MultiServer(results: seq<map<string, Json>>) returns (lines: seq<ServerLine>)
    ensures |lines| == |results|
    ensures forall i :: 0 <= i < |results| ==> lines[i] == LineOf(results[i])
  {
    lines := [];
    for i := 0 to |results|
      invariant |lines| == i
      invariant forall k :: 0 <= k < i ==> lines[k] == LineOf(results[k])
    {
      var r := results[i];
      var server := StringField(r, "server");
      var line;
      if "error" in r && r["error"].Str? && r["error"].s != "" {
        line := ErrorLine(server, r["error"].s);
      } else if !("data" in r && r["data"].Object?) {
        line := NoData(server);
      } else {
        var data := r["data"].fields;
        var cpu := GetNestedFloat(data, ["cpu", "usage_percent"]);
        var mem := GetNestedFloat(data, ["memory", "usage_percent"]);
        line := Metrics(server, cpu, mem, FirstDiskPercent(data), StringField(data, "uptime"));
      }
      lines := lines + [line];
    }
  }
}

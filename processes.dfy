/** The busiest processes, read from `ps -eo pid,pcpu,pmem,comm` sorted by CPU
    (internal/system/processes.go). The command's output is an input. */
module Processes {
  import opened Wrappers
  import opened GoStrings
  import opened Command

  datatype ProcessInfo = ProcessInfo(pid: int, name: string, cpu: real, mem: real)

  function Max(a: int, b: int): int {
    if a >= b then a else b
  }

  function Min(a: int, b: int): int {
    if a <= b then a else b
  }

  /** A `ps` line that describes a process: not blank once trimmed, not the
      header (which starts with "PID"), and at least four columns. */
  predicate ProcessLine(line: string) {
    var t := TrimSpace(line);
    t != "" && !HasPrefix(t, "PID") && |Fields(t)| >= 4
  }

  /** The command column: the remaining columns joined by single spaces (a
      path may contain spaces), cut to its last path element when it has a
      slash. */
  function CommandName(comm: seq<string>): (name: string)
    requires comm != [] && forall i :: 0 <= i < |comm| ==> comm[i] != []
    ensures name != []
    ensures Contains(Join(comm, " "), "/") ==> name == Base(Join(comm, " "))
    ensures !Contains(Join(comm, " "), "/") ==> name == Join(comm, " ")
  {
    var name := Join(comm, " ");
    JoinNonEmpty(comm, " ");
    if Contains(name, "/") then Base(name) else name
  }

  /** Three columns are joined back with single spaces; a first column
      starting with a slash makes the result a path. */
  lemma JoinThree(a: string, b: string, c: string)
    requires a != [] && a[0] == '/'
    ensures Join([a, b, c], " ") == a + " " + b + " " + c
    ensures Contains(a + " " + b + " " + c, "/")
  {
    assert [b, c][1..] == [c];
    assert Join([b, c], " ") == b + " " + c;
    assert [a, b, c][1..] == [b, c];
    var path := a + " " + b + " " + c;
    assert path[0..1] == "/";
    assert OccursAt(path, "/", 0);
  }

  /** When the last slash of the joined columns falls inside the second
      column, the name is everything after it, spaces included. */
  lemma BaseAfterSlash(a: string, dir: string, file: string, c: string)
    requires file + " " + c != [] && '/' !in file + " " + c
    ensures Base(a + " " + (dir + "/" + file) + " " + c) == file + " " + c
  {
    assert a + " " + (dir + "/" + file) + " " + c == (a + " " + dir) + "/" + (file + " " + c);
    BaseOfJoin(a + " " + dir, file + " " + c);
  }

  /** A macOS application path with spaces keeps its spaces in the name:
      `/Applications/Google Chrome.app/Contents/MacOS/Google Chrome`, split by
      `ps` into three columns, is read as "Google Chrome". */
  lemma CommandNameWithSpaces()
    ensures CommandName(["/Applications/Google", "Chrome.app/Contents/MacOS/Google", "Chrome"]) == "Google Chrome"
  {
    var a, dir, file, c := "/Applications/Google", "Chrome.app/Contents/MacOS", "Google", "Chrome";
    assert dir + "/" + file == "Chrome.app/Contents/MacOS/Google";
    JoinThree(a, dir + "/" + file, c);
    assert file + " " + c == "Google Chrome";
    BaseAfterSlash(a, dir, file, c);
  }

  /** Empty output describes no process. */
  lemma EmptyOutputHasNoProcesses(scanInt: IntScanner, scanReal: RealScanner)
    ensures Candidates(Lines(""), Parser(scanInt, scanReal)) == []
  {
    assert Lines("") == [""];
    assert TrimSpace("") == "";
  }

  lemma {:induction false} JoinNonEmpty(parts: seq<string>, sep: string)
    requires parts != [] && parts[0] != []
    ensures Join(parts, sep) != []
  {
  }

  /** The process a `ps` line describes: PID, CPU and memory from the first
      three columns (zero when they do not scan), the name from the rest. */
  function ProcessOf(line: string, scanInt: IntScanner, scanReal: RealScanner): (p: ProcessInfo)
    requires ProcessLine(line)
    ensures p.name != []
    ensures p.pid == IntOrZero(scanInt, Fields(TrimSpace(line))[0])
    ensures p.cpu == RealOrZero(scanReal, Fields(TrimSpace(line))[1])
    ensures p.mem == RealOrZero(scanReal, Fields(TrimSpace(line))[2])
    ensures p.name == CommandName(Fields(TrimSpace(line))[3..])
  {
    var fields := Fields(TrimSpace(line));
    ProcessInfo(IntOrZero(scanInt, fields[0]), CommandName(fields[3..]),
                RealOrZero(scanReal, fields[1]), RealOrZero(scanReal, fields[2]))
  }

  /** What one `ps` line gives: its process, or nothing. */
  function ParseLine(line: string, scanInt: IntScanner, scanReal: RealScanner): (p: Option<ProcessInfo>)
    ensures p.Some? <==> ProcessLine(line)
    ensures p.Some? ==> p.value == ProcessOf(line, scanInt, scanReal)
  {
    if ProcessLine(line) then Some(ProcessOf(line, scanInt, scanReal)) else None
  }

  /** How one line is read; `Parser` gives the reading `parseProcesses` does. */
  type LineParser = string -> Option<ProcessInfo>

  function Parser(scanInt: IntScanner, scanReal: RealScanner): LineParser {
    line => ParseLine(line, scanInt, scanReal)
  }

  /** Every process the lines describe, in line order. */
  function Candidates(lines: seq<string>, parse: LineParser): (procs: seq<ProcessInfo>)
    ensures |procs| <= |lines|
  {
    if lines == [] then []
    else
      var n := |lines| - 1;
      var before := Candidates(lines[..n], parse);
      match parse(lines[n])
      case Some(p) => before + [p]
      case None => before
  }

  /** Reading one more line adds its process, if any, at the end. */
  lemma CandidatesSnoc(lines: seq<string>, i: nat, parse: LineParser)
    requires i < |lines|
    ensures Candidates(lines[..i + 1], parse) == Candidates(lines[..i], parse) + (if parse(lines[i]).Some? then [parse(lines[i]).value] else [])
  {
    assert lines[..i + 1][..i] == lines[..i];
  }

  /** Reading more lines only adds processes after those already read. */
  lemma {:induction false} CandidatesPrefix(lines: seq<string>, i: nat, parse: LineParser)
    requires i <= |lines|
    ensures Candidates(lines[..i], parse) <= Candidates(lines, parse)
    decreases |lines|
  {
    if i < |lines| {
      var n := |lines| - 1;
      assert lines[..n][..i] == lines[..i];
      CandidatesPrefix(lines[..n], i, parse);
    } else {
      assert lines[..i] == lines;
    }
  }

  /** Stopping once the limit is reached, or at the end of the lines, leaves
      exactly the first processes up to the limit. */
  lemma CandidatesTake(lines: seq<string>, i: nat, parse: LineParser, limit: int)
    requires i <= |lines|
    requires |Candidates(lines[..i], parse)| <= limit
    requires i == |lines| || |Candidates(lines[..i], parse)| == limit
    ensures var all := Candidates(lines, parse);
            Candidates(lines[..i], parse) == all[..Min(|all|, limit)]
  {
    CandidatesPrefix(lines, i, parse);
    if i == |lines| {
      assert lines[..i] == lines;
    }
  }

  /** The body of the loop in `parseProcesses` for one line: trim it, skip it
      when blank, the header or too short, otherwise read its columns. */
  method ReadLine(raw: string, scanInt: IntScanner, scanReal: RealScanner) returns (p: Option<ProcessInfo>)
    ensures p == Parser(scanInt, scanReal)(raw)
  {
    var line := TrimSpace(raw);
    if line == "" {
      return None;
    }
    if HasPrefix(line, "PID") {
      return None;
    }
    var fields := Fields(line);
    if |fields| < 4 {
      return None;
    }
    var pid := IntOrZero(scanInt, fields[0]);
    var cpu := RealOrZero(scanReal, fields[1]);
    var mem := RealOrZero(scanReal, fields[2]);
    var name := Join(fields[3..], " ");
    if Contains(name, "/") {
      name := Base(name);
    }
    return Some(ProcessInfo(pid, name, cpu, mem));
  }

  /** `parseProcesses`: the first processes of the output, in order, stopping
      once `n` have been read; at least one is read when there is one, so a
      limit below 1 acts as 1. */
  method ParseProcesses(output: string, n: int, scanInt: IntScanner, scanReal: RealScanner) returns (procs: seq<ProcessInfo>)
    ensures var all := Candidates(Lines(output), Parser(scanInt, scanReal));
            procs == all[..Min(|all|, Max(n, 1))]
  {
    var lines := Lines(output);
    ghost var parse := Parser(scanInt, scanReal);
    procs := [];
    var i := 0;
    while i < |lines|
      invariant 0 <= i <= |lines|
      invariant procs == Candidates(lines[..i], parse)
      invariant |procs| < Max(n, 1)
    {
      var p := ReadLine(lines[i], scanInt, scanReal);
      CandidatesSnoc(lines, i, parse);
      if p.Some? {
        procs := procs + [p.value];
        if |procs| >= n {
          CandidatesTake(lines, i + 1, parse, Max(n, 1));
          return;
        }
      }
      i := i + 1;
    }
    CandidatesTake(lines, i, parse, Max(n, 1));
  }

  /** `TopProcesses`: the parsed processes, the command's error, or an error on
      a system other than macOS and Linux. */
  method TopProcesses(goos: string, out: CmdOutput, n: int, scanInt: IntScanner, scanReal: RealScanner)
    returns (r: Result<seq<ProcessInfo>, string>)
    ensures goos != "darwin" && goos != "linux" ==> r == Err("unsupported platform: " + goos)
    ensures (goos == "darwin" || goos == "linux") && out.Failed? ==> r == Err(out.err)
    ensures (goos == "darwin" || goos == "linux") && out.Output? ==>
              var all := Candidates(Lines(out.text), Parser(scanInt, scanReal));
              r == Ok(all[..Min(|all|, Max(n, 1))])
  {
    if goos != "darwin" && goos != "linux" {
      return Err("unsupported platform: " + goos);
    }
    if out.Failed? {
      return Err(out.err);
    }
    var procs := ParseProcesses(out.text, n, scanInt, scanReal);
    return Ok(procs);
  }
}

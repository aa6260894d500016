/** The MCP server's demo mode (internal/mcp/demo.go): tool calls answered
    with canned data for three made-up hosts instead of real commands. The
    canned numbers and texts are not modelled; a payload records which canned
    answer is given and the values the call echoes. */
module Demo {
  import opened Wrappers
  import opened Format

  /** `requireString`: the argument when it is a non-empty string. */
  function RequireString(args: map<string, Json>, key: string): (r: Option<string>)
    ensures r.Some? <==> key in args && args[key].Str? && args[key].s != ""
    ensures r.Some? ==> r.value == args[key].s && r.value != ""
  {
    if key in args && args[key].Str? && args[key].s != "" then Some(args[key].s) else None
  }

  /** The three demo hosts. */
  datatype Host = NasBox | RaspberryPi | HomelabServer

  /** The host whose canned data a `server` argument selects: any name other
      than "nas-box" and "raspberry-pi" (the empty one included) selects
      "homelab-server". */
  function HostFor(server: string): (h: Host)
    ensures server == "nas-box" <==> h == NasBox
    ensures server == "raspberry-pi" <==> h == RaspberryPi
    ensures h == HomelabServer <==> server != "nas-box" && server != "raspberry-pi"
  {
    if server == "nas-box" then NasBox
    else if server == "raspberry-pi" then RaspberryPi
    else HomelabServer
  }

  /** The containers whose logs are canned. */
  const CannedLogs: set<string> := {"nginx", "postgres", "backup"}

  /** The logs text of `demoLogs`: canned for a known container, otherwise a
      message naming the container. */
  datatype LogsText = Canned(of: string) | NoRecentLogs(msg: string)

  /** What a demo tool call returns. */
  datatype Payload =
    | StatusOf(host: Host)
    | DockerOf(host: Host)
    | PortsOf(host: Host)
    | NetworkDevices
    | AlertsOf(host: Host)
    | Action(action: string, container: string, status: string)
    | Logs(container: string, logs: LogsText)
    | Woken(target: string, broadcast: string, status: string)

  /** `%q` of a name without quotes, backslashes or unprintable characters. */
  function Quote(s: string): (q: string)
    ensures |q| == |s| + 2
  {
    "\"" + s + "\""
  }

  /** `demoLogs`: the canned logs of a known container, or a non-empty
      "No recent logs" message; the container is always echoed. */
  function DemoLogs(container: string): (p: Payload)
    ensures p.Logs? && p.container == container
    ensures container in CannedLogs ==> p.logs == Canned(container)
    ensures container !in CannedLogs ==> p.logs == NoRecentLogs("No recent logs for container " + Quote(container))
    ensures p.logs.NoRecentLogs? ==> p.logs.msg != ""
  {
    if container in CannedLogs then Logs(container, Canned(container))
    else Logs(container, NoRecentLogs("No recent logs for container " + Quote(container)))
  }

  /** The tools that answer from the `server` argument alone. */
  const ServerTools: set<string> := {"system_status", "docker_list", "open_ports", "network_scan", "alerts"}

  /** The tools that need a container name. */
  const ContainerTools: set<string> := {"docker_restart", "docker_stop", "docker_logs"}

  /** `executeDemoTool`: dispatch on the tool name. Container tools without a
      "name", and "wake" without a "target", are refused; restart and stop
      echo the container; an unknown tool is an error. */
  function ExecuteDemoTool(name: string, args: map<string, Json>): (r: Result<Payload, string>)
    ensures name !in ServerTools && name !in ContainerTools && name != "wake" ==> r == Err("unknown tool: " + name)
    ensures name in ContainerTools && RequireString(args, "name").None? ==> r == Err("missing required parameter: name")
    ensures name == "wake" && RequireString(args, "target").None? ==> r == Err("missing required parameter: target")
    ensures name in ServerTools ==> r.Ok?
  {
    var server := StringField(args, "server");
    if name == "system_status" then Ok(StatusOf(HostFor(server)))
    else if name == "docker_list" then Ok(DockerOf(HostFor(server)))
    else if name == "docker_restart" then
      match RequireString(args, "name")
      case None => Err("missing required parameter: name")
      case Some(c) => Ok(Action("restart", c, "restarted"))
    else if name == "docker_stop" then
      match RequireString(args, "name")
      case None => Err("missing required parameter: name")
      case Some(c) => Ok(Action("stop", c, "stopped"))
    else if name == "docker_logs" then
      match RequireString(args, "name")
      case None => Err("missing required parameter: name")
      case Some(c) => Ok(DemoLogs(c))
    else if name == "wake" then
      match RequireString(args, "target")
      case None => Err("missing required parameter: target")
      case Some(t) => Ok(Woken(t, "255.255.255.255", "sent"))
    else if name == "open_ports" then Ok(PortsOf(HostFor(server)))
    else if name == "network_scan" then Ok(NetworkDevices)
    else if name == "alerts" then Ok(AlertsOf(HostFor(server)))
    else Err("unknown tool: " + name)
  }

  /** Given their argument, the container tools and wake succeed and echo
      it: restart and stop report the action, logs the container's logs,
      and wake the target with the broadcast address. */
  lemma ActionsEchoArgument(name: string, args: map<string, Json>)
    ensures name == "docker_restart" && RequireString(args, "name").Some? ==>
              ExecuteDemoTool(name, args) == Ok(Action("restart", RequireString(args, "name").value, "restarted"))
    ensures name == "docker_stop" && RequireString(args, "name").Some? ==>
              ExecuteDemoTool(name, args) == Ok(Action("stop", RequireString(args, "name").value, "stopped"))
    ensures name == "docker_logs" && RequireString(args, "name").Some? ==>
              ExecuteDemoTool(name, args) == Ok(DemoLogs(RequireString(args, "name").value))
    ensures name == "wake" && RequireString(args, "target").Some? ==>
              ExecuteDemoTool(name, args) == Ok(Woken(RequireString(args, "target").value, "255.255.255.255", "sent"))
  {
  }

  /** The server tools answer with the demo data of the server named by the
      "server" argument: status, containers, ports and alerts of that host,
      and the fixed device list for a network scan. */
  lemma ServerToolsAnswer(name: string, args: map<string, Json>)
    ensures name == "system_status" ==> ExecuteDemoTool(name, args) == Ok(StatusOf(HostFor(StringField(args, "server"))))
    ensures name == "docker_list" ==> ExecuteDemoTool(name, args) == Ok(DockerOf(HostFor(StringField(args, "server"))))
    ensures name == "open_ports" ==> ExecuteDemoTool(name, args) == Ok(PortsOf(HostFor(StringField(args, "server"))))
    ensures name == "network_scan" ==> ExecuteDemoTool(name, args) == Ok(NetworkDevices)
    ensures name == "alerts" ==> ExecuteDemoTool(name, args) == Ok(AlertsOf(HostFor(StringField(args, "server"))))
  {
  }

  /** A demo call fails exactly when the tool is unknown or its required
      argument is missing. */
  lemma ExecuteDemoToolFails(name: string, args: map<string, Json>)
    ensures ExecuteDemoTool(name, args).Err? <==>
              (name !in ServerTools && name !in ContainerTools && name != "wake")
              || (name in ContainerTools && RequireString(args, "name").None?)
              || (name == "wake" && RequireString(args, "target").None?)
  {
  }

  /** Called without arguments, the tools that need one all fail and the
      others all answer. */
  lemma NoArguments(name: string)
    ensures name in ContainerTools || name == "wake" ==> ExecuteDemoTool(name, map[]).Err?
    ensures name in ServerTools ==> ExecuteDemoTool(name, map[]).Ok?
  {
  }

  /** A server the demo does not know, or no server at all, gets the data
      of "homelab-server". */
  lemma UnknownServerIsHomelab(name: string, args: map<string, Json>)
    requires name in {"system_status", "docker_list", "open_ports", "alerts"}
    requires StringField(args, "server") != "nas-box" && StringField(args, "server") != "raspberry-pi"
    ensures ExecuteDemoTool(name, args) == ExecuteDemoTool(name, map["server" := Str("homelab-server")])
  {
  }
}

/** Configuration: the file layout, the config-path lookup and the wake-target
    search (internal/config/config.go). The filesystem and the environment are
    taken as inputs; YAML decoding is an abstract outcome. */
module Config {
  import opened Wrappers

  datatype ServerConfig = ServerConfig(name: string, host: string, ssh: string)

  datatype WakeTarget = WakeTarget(name: string, mac: string, broadcast: string)

  /** Alert thresholds, in percent. */
  datatype AlertConfig = AlertConfig(cpu: real, memory: real, disk: real)

  datatype Config = Config(servers: seq<ServerConfig>, wake: seq<WakeTarget>, alerts: AlertConfig, output: string)

  /** The index of the first wake target called `name`, or -1. */
  function FirstNamed(wake: seq<WakeTarget>, name: string): (i: int)
    ensures -1 <= i < |wake|
    ensures i >= 0 ==> wake[i].name == name
    ensures forall k :: 0 <= k < |wake| && (i < 0 || k < i) ==> wake[k].name != name
  {
    if wake == [] then -1
    else if wake[0].name == name then 0
    else
      var j := FirstNamed(wake[1..], name);
      if j < 0 then -1 else j + 1
  }

  /** `FindWakeTarget`: the first configured target with the given name, or
      None when there is none. */
  method FindWakeTarget(c: Config, name: string) returns (t: Option<WakeTarget>)
    ensures t.None? <==> forall k :: 0 <= k < |c.wake| ==> c.wake[k].name != name
    ensures t.Some? ==> t.value.name == name
    ensures t.Some? ==> exists k :: 0 <= k < |c.wake| && c.wake[k] == t.value
                                    && forall j :: 0 <= j < k ==> c.wake[j].name != name
    ensures t.Some? <==> FirstNamed(c.wake, name) >= 0
    ensures t.Some? ==> t.value == c.wake[FirstNamed(c.wake, name)]
  {
    for i := 0 to |c.wake|
      invariant forall k :: 0 <= k < i ==> c.wake[k].name != name
    {
      if c.wake[i].name == name {
        return Some(c.wake[i]);
      }
    }
    return None;
  }

  /** What the filesystem and the environment tell `Resolve`. */
  datatype Probe = Probe(
    env: string,          // $HOMEBUTLER_CONFIG, "" when unset
    home: Option<string>, // the user's home directory, when it can be found
    xdgExists: bool,      // ~/.config/homebutler/config.yaml exists
    localExists: bool)    // ./homebutler.yaml exists

  /** `filepath.Join(home, ".config", "homebutler", "config.yaml")` for a home
      directory without a trailing slash. */
  function XdgPath(home: string): string {
    home + "/.config/homebutler/config.yaml"
  }

  const LocalPath: string := "homebutler.yaml"

  /** `Resolve`: the config file to read, in priority order: the explicit
      path, the environment variable, the XDG file, the file in the current
      directory, and "" when none applies. */
  function Resolve(explicit: string, p: Probe): (path: string)
    ensures explicit != "" ==> path == explicit
    ensures explicit == "" && p.env != "" ==> path == p.env
    ensures explicit == "" && p.env == "" && p.home.Some? && p.xdgExists ==> path == XdgPath(p.home.value)
    ensures explicit == "" && p.env == "" && !(p.home.Some? && p.xdgExists) && p.localExists ==> path == LocalPath
    ensures path == "" <==> explicit == "" && p.env == "" && !(p.home.Some? && p.xdgExists) && !p.localExists
  {
    if explicit != "" then explicit
    else if p.env != "" then p.env
    else if p.home.Some? && p.xdgExists then XdgPath(p.home.value)
    else if p.localExists then LocalPath
    else ""
  }

  /** An earlier source that applies hides every later one: once a source
      is given, what the later ones say does not matter. */
  lemma ResolvePriority(explicit: string, p: Probe, q: Probe)
    ensures explicit != "" ==> Resolve(explicit, p) == Resolve(explicit, q)
    ensures explicit == "" && p.env != "" && p.env == q.env ==> Resolve(explicit, p) == Resolve(explicit, q)
    ensures (explicit == "" && p.env == "" && q.env == "" && p.home.Some? && p.xdgExists && q.home == p.home && q.xdgExists)
              ==> Resolve(explicit, p) == Resolve(explicit, q)
  {
  }

  /** The configuration used when no file is read: thresholds CPU 90, memory
      85, disk 90, JSON output, no servers and no wake targets. */
  function Defaults(): (c: Config)
    ensures c.alerts == AlertConfig(90.0, 85.0, 90.0)
    ensures c.output == "json"
    ensures c.servers == [] && c.wake == []
  {
    Config([], [], AlertConfig(90.0, 85.0, 90.0), "json")
  }

  /** Reading the config file: missing, unreadable for another reason, or its
      contents. */
  datatype ReadOutcome = NotExist | ReadError(msg: string) | Contents(data: string)

  /** Decoding YAML over the defaults: the decoded configuration, or an error. */
  type YamlDecoder = (string, Config) -> Result<Config, string>

  /** `Load`: the defaults when the file does not exist, an error when it
      cannot be read or parsed, otherwise the file decoded over the defaults. */
  function Load(read: ReadOutcome, decode: YamlDecoder): (r: Result<Config, string>)
    ensures read.NotExist? ==> r == Ok(Defaults())
    ensures read.ReadError? ==> r == Err("failed to read config: " + read.msg)
    ensures read.Contents? && decode(read.data, Defaults()).Err? ==>
              r == Err("failed to parse config: " + decode(read.data, Defaults()).error)
    ensures read.Contents? && decode(read.data, Defaults()).Ok? ==> r == decode(read.data, Defaults())
    ensures r.Err? ==> !read.NotExist?
  {
    match read
    case NotExist => Ok(Defaults())
    case ReadError(msg) => Err("failed to read config: " + msg)
    case Contents(data) =>
      match decode(data, Defaults())
      case Err(e) => Err("failed to parse config: " + e)
      case Ok(c) => Ok(c)
  }
}

/** Data collection for the terminal dashboard (internal/tui/fetch.go): how a
    Docker failure is classified, the single-flight Docker cache, and which
    fields of a server's data each remote call fills in. Goroutines, channels
    and timers are left out: which of two racing events came first is an
    input. */
module Fetch {
  import opened Wrappers
  import opened GoStrings
  import opened Docker
  import opened SystemStatus
  import opened Alerts

  /** What a failed container listing means: Docker is missing when the
      error says "not installed" or "not found", otherwise it is unavailable. */
  function ClassifyDockerError(msg: string): (status: string)
    ensures status == "not_installed" <==> Contains(msg, "not installed") || Contains(msg, "not found")
    ensures status == "unavailable" <==> !Contains(msg, "not installed") && !Contains(msg, "not found")
  {
    if Contains(msg, "not installed") || Contains(msg, "not found") then "not_installed" else "unavailable"
  }

  /** The outcome of listing containers. */
  datatype ListOutcome = Listed(containers: seq<Container>) | ListFailed(err: string)

  /** The containers and status a completed listing gives: the containers
      and "ok", or no containers and the classified error. */
  function DockerPair(res: ListOutcome): (pair: (seq<Container>, string))
    ensures res.Listed? ==> pair == (res.containers, "ok")
    ensures res.ListFailed? ==> pair.0 == [] && pair.1 == ClassifyDockerError(res.err)
    ensures pair.1 in {"ok", "not_installed", "unavailable"}
    ensures pair.1 != "ok" ==> pair.0 == []
  {
    match res
    case Listed(cs) => (cs, "ok")
    case ListFailed(e) => ([], ClassifyDockerError(e))
  }

  /** Which came first in `fetchDocker`'s `select`: the listing, or the
      two-second timer. */
  datatype Wait = Completed(res: ListOutcome) | TimedOut

  /** The package-level Docker cache: whether a listing is in flight, and the
      last containers and status published ("" before the first). */
  class DockerCache {
    var running: bool
    var containers: seq<Container>
    var status: string

    /** Every published status is one `fetchDocker` can return, and only "ok"
        comes with containers. */
    predicate Valid()
      reads this
    {
      status in {"", "ok", "not_installed", "unavailable"} && (status != "ok" ==> containers == [])
    }

    constructor()
      ensures Valid()
      ensures !running && containers == [] && status == ""
    {
      running := false;
      containers := [];
      status := "";
    }

    /** What a caller gets while a listing is in flight: the cached pair, or
        no containers and "unavailable" when nothing was published yet. */
    function Cached(): (pair: (seq<Container>, string))
      reads this
      ensures status == "" ==> pair == ([], "unavailable")
      ensures status != "" ==> pair == (containers, status)
      ensures pair.1 != ""
      ensures Valid() ==> pair.1 in {"ok", "not_installed", "unavailable"} && (pair.1 != "ok" ==> pair.0 == [])
    {
      if status == "" then ([], "unavailable") else (containers, status)
    }

    /** `CompareAndSwap(false, true)` on the in-flight flag: succeeds when no
        listing is in flight, and leaves the flag set either way. */
    method TryClaim() returns (claimed: bool)
      modifies this
      ensures claimed == !old(running)
      ensures running
      ensures containers == old(containers) && status == old(status)
    {
      claimed := !running;
      running := true;
    }

    /** Store a pair in the cache, under the lock. Only a pair `fetchDocker`
        can produce is published, so the cache stays valid. */
    method Publish(c: seq<Container>, s: string)
      requires s in {"ok", "not_installed", "unavailable"} && (s != "ok" ==> c == [])
      modifies this
      ensures Valid()
      ensures containers == c && status == s
      ensures running == old(running)
    {
      containers, status := c, s;
    }

    /** The listing goroutine's deferred `dockerRunning.Store(false)`. It
        touches nothing else: a listing that finishes after the timeout is
        dropped, and the cache keeps the "unavailable" the timeout published. */
    method WorkerFinished()
      modifies this
      ensures !running
      ensures containers == old(containers) && status == old(status)
    {
      running := false;
    }

    /** `fetchDocker`. With a listing in flight, the cached pair is returned
        and nothing changes. Otherwise the flag is claimed for a new listing
        (released later by `WorkerFinished`), and the pair it gives, or no
        containers and "unavailable" on a timeout, is both returned and
        published. */
    method FetchDocker(wait: Wait) returns (c: seq<Container>, s: string)
      requires Valid()
      modifies this
      ensures Valid()
      ensures running
      ensures old(running) ==> (c, s) == old(Cached()) && containers == old(containers) && status == old(status)
      ensures !old(running) && wait.Completed? ==> (c, s) == DockerPair(wait.res)
      ensures !old(running) && wait.TimedOut? ==> c == [] && s == "unavailable"
      ensures !old(running) ==> containers == c && status == s
      ensures s != "" && Cached() == (c, s)
    {
      var claimed := TryClaim();
      if !claimed {
        var pair := Cached();
        c, s := pair.0, pair.1;
        return;
      }
      match wait
      case Completed(res) =>
        if res.ListFailed? {
          c := [];
          s := ClassifyDockerError(res.err);
        } else {
          c := res.containers;
          s := "ok";
        }
        Publish(c, s);
      case TimedOut =>
        Publish([], "unavailable");
        c, s := [], "unavailable";
    }
  }

  /** One server's data on the dashboard. The error is kept as its message;
      the time of the update is left out. */
  datatype ServerData = ServerData(
    name: string,
    status: Option<StatusInfo>,
    containers: seq<Container>,
    dockerStatus: string,
    alerts: Option<AlertResult>,
    error: Option<string>)

  /** The outcome of one `homebutler ... --json` call over SSH, decoded. */
  datatype Call<T> = RunFailed(err: string) | NotDecoded(err: string) | Value(value: T)

  /** `fetchRemote`: a failed or undecodable status call is fatal and leaves
      only the server's name and the error. Otherwise the status is kept; a
      failed container listing is classified (an undecodable one is
      "unavailable") and a failed alerts call leaves the alerts unset. */
  function FetchRemote(name: string, status: Call<StatusInfo>, docker: Call<seq<Container>>, alerts: Call<AlertResult>): (d: ServerData)
    ensures d.name == name
    ensures !status.Value? ==> d == ServerData(name, None, [], "", None, Some(status.err))
    ensures status.Value? ==> d.error == None && d.status == Some(status.value)
    ensures status.Value? && docker.RunFailed? ==> d.containers == [] && d.dockerStatus == ClassifyDockerError(docker.err)
    ensures status.Value? && docker.NotDecoded? ==> d.containers == [] && d.dockerStatus == "unavailable"
    ensures status.Value? && docker.Value? ==> d.containers == docker.value && d.dockerStatus == "ok"
    ensures status.Value? ==> (d.alerts.Some? <==> alerts.Value?)
    ensures status.Value? && alerts.Value? ==> d.alerts == Some(alerts.value)
  {
    match status
    case RunFailed(e) => ServerData(name, None, [], "", None, Some(e))
    case NotDecoded(e) => ServerData(name, None, [], "", None, Some(e))
    case Value(info) =>
      var (cs, ds) :=
        match docker
        case RunFailed(e) => ([], ClassifyDockerError(e))
        case NotDecoded(_) => ([], "unavailable")
        case Value(list) => (list, "ok");
      var al := if alerts.Value? then Some(alerts.value) else None;
      ServerData(name, Some(info), cs, ds, al, None)
  }

  /** Docker and alerts failures are not fatal: once the status call
      succeeds, they change neither the status nor the error. */
  lemma RemoteFailuresNonFatal(name: string, info: StatusInfo,
                               d1: Call<seq<Container>>, a1: Call<AlertResult>,
                               d2: Call<seq<Container>>, a2: Call<AlertResult>)
    ensures var x, y := FetchRemote(name, Value(info), d1, a1), FetchRemote(name, Value(info), d2, a2);
            x.status == y.status == Some(info) && x.error == y.error == None
  {
  }

  /** A server's data carries an error exactly when its status call failed,
      and a status exactly when it did not. */
  lemma RemoteErrorIffStatusFailed(name: string, status: Call<StatusInfo>, docker: Call<seq<Container>>, alerts: Call<AlertResult>)
    ensures var d := FetchRemote(name, status, docker, alerts);
            (d.error.Some? <==> !status.Value?) && (d.status.Some? <==> d.error.None?)
            && (d.dockerStatus in {"", "ok", "not_installed", "unavailable"})
            && (d.dockerStatus != "ok" ==> d.containers == [])
  {
  }

  /** `fetchLocal`: a status error is kept and nothing else is filled in;
      otherwise the status, the host name it reports and the alerts, when
      they could be checked. Containers are fetched separately. */
  function FetchLocal(status: Result<StatusInfo, string>, alerts: Result<AlertResult, string>): (d: ServerData)
    ensures status.Err? ==> d == ServerData("", None, [], "", None, Some(status.error))
    ensures status.Ok? ==> d.error == None && d.status == Some(status.value) && d.name == status.value.hostname
    ensures status.Ok? ==> d.containers == [] && d.dockerStatus == ""
    ensures status.Ok? ==> (d.alerts.Some? <==> alerts.Ok?) && (alerts.Ok? ==> d.alerts == Some(alerts.value))
  {
    match status
    case Err(e) => ServerData("", None, [], "", None, Some(e))
    case Ok(info) =>
      ServerData(info.hostname, Some(info), [], "", if alerts.Ok? then Some(alerts.value) else None, None)
  }

  /** Which came first in `fetchServer`: the collected data or the ten-second
      timeout. */
  datatype Race = Arrived | Expired

  /** `fetchServer`: the data collected locally or over SSH (whether the
      server is local is an input), or, on timeout, the server's name and a
      timeout error. */
  function FetchServer(name: string, isLocal: bool, race: Race, local: ServerData, remote: ServerData): (d: ServerData)
    ensures race.Expired? ==> d == ServerData(name, None, [], "", None, Some("fetch timeout (10s)"))
    ensures race.Arrived? && isLocal ==> d == local
    ensures race.Arrived? && !isLocal ==> d == remote
  {
    match race
    case Expired => ServerData(name, None, [], "", None, Some("fetch timeout (10s)"))
    case Arrived => if isLocal then local else remote
  }
}

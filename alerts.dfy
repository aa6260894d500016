/** Threshold alerts on CPU, memory and disk usage (internal/alerts/alerts.go).
    The host status that `Check` collects is taken as an input. */
module Alerts {
  import opened Wrappers
  import opened SystemStatus
  import opened Config

  datatype AlertItem = AlertItem(status: string, current: real, threshold: real)

  datatype DiskAlert = DiskAlert(mount: string, status: string, current: real, threshold: real)

  datatype AlertResult = AlertResult(cpu: AlertItem, memory: AlertItem, disks: seq<DiskAlert>)

  /** `statusFor`: "critical" at or above the threshold, "warning" at or above
      nine tenths of it, "ok" below both. */
  function StatusFor(current: real, threshold: real): (s: string)
    ensures s == "critical" <==> current >= threshold
    ensures s == "warning" <==> threshold * 0.9 <= current < threshold
    ensures s == "ok" <==> current < threshold && current < threshold * 0.9
    ensures threshold >= 0.0 ==> (s == "ok" <==> current < threshold * 0.9)
    ensures s == "critical" || s == "warning" || s == "ok"
  {
    if current >= threshold then "critical"
    else if current >= threshold * 0.9 then "warning"
    else "ok"
  }

  /** How serious a status is: ok, then warning, then critical. */
  function Severity(status: string): nat {
    if status == "critical" then 2 else if status == "warning" then 1 else 0
  }

  /** For a fixed threshold, a higher reading is never less serious. */
  lemma StatusForMonotone(c1: real, c2: real, threshold: real)
    requires c1 <= c2
    ensures Severity(StatusFor(c1, threshold)) <= Severity(StatusFor(c2, threshold))
  {
  }

  /** The alert for one disk against the disk threshold. */
  function DiskAlertOf(d: DiskInfo, threshold: real): (a: DiskAlert)
    ensures a.mount == d.mount && a.current == d.percent && a.threshold == threshold
    ensures a.status == StatusFor(d.percent, threshold)
  {
    DiskAlert(d.mount, StatusFor(d.percent, threshold), d.percent, threshold)
  }

  /** `Check`: the status source's error, or one item for CPU, one for memory
      and one alert per disk in the order the disks were reported, each against
      its configured threshold. */
  method Check(cfg: AlertConfig, status: Result<StatusInfo, string>) returns (r: Result<AlertResult, string>)
    ensures status.Err? ==> r == Err(status.error)
    ensures status.Ok? ==> r.Ok?
    ensures status.Ok? ==> r.value.cpu == AlertItem(StatusFor(status.value.cpu.usagePercent, cfg.cpu), status.value.cpu.usagePercent, cfg.cpu)
    ensures status.Ok? ==> r.value.memory == AlertItem(StatusFor(status.value.memory.percent, cfg.memory), status.value.memory.percent, cfg.memory)
    ensures status.Ok? ==> |r.value.disks| == |status.value.disks|
    ensures status.Ok? ==> forall i :: 0 <= i < |r.value.disks| ==> r.value.disks[i] == DiskAlertOf(status.value.disks[i], cfg.disk)
  {
    if status.Err? {
      return Err(status.error);
    }
    var info := status.value;
    var cpu := AlertItem(StatusFor(info.cpu.usagePercent, cfg.cpu), info.cpu.usagePercent, cfg.cpu);
    var memory := AlertItem(StatusFor(info.memory.percent, cfg.memory), info.memory.percent, cfg.memory);
    var disks: seq<DiskAlert> := [];
    for i := 0 to |info.disks|
      invariant |disks| == i
      invariant forall k :: 0 <= k < i ==> disks[k] == DiskAlertOf(info.disks[k], cfg.disk)
    {
      var d := info.disks[i];
      disks := disks + [DiskAlert(d.mount, StatusFor(d.percent, cfg.disk), d.percent, cfg.disk)];
    }
    return Ok(AlertResult(cpu, memory, disks));
  }
}

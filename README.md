# homebutler core, modelled in Dafny

homebutler is a command-line and terminal-dashboard tool for a home lab.
It reports a machine's status, raises threshold alerts, lists listening
ports and the busiest processes, and sends Wake-on-LAN magic packets. It
also formats all of these for people and answers MCP tool calls in a demo
mode. This project models the logic at its core: one Dafny module per Go
file.

| module | Go file | form |
|---|---|---|
| `Sparkline` | internal/tui/sparkline.go | functions: the block-character sparkline, its colour, the 60-sample history |
| `Alerts` | internal/alerts/alerts.go | threshold classification and the alert report |
| `Ports` | internal/ports/ports.go | `lsof`/`ss` parsing; the `lsof` de-duplication is a loop proved against a scan function |
| `Processes` | internal/system/processes.go | `ps` parsing as a loop that stops at the limit |
| `WakeOnLan` | internal/wake/wol.go | MAC validation, hex decoding, magic-packet construction, the send's error paths |
| `Fetch` | internal/tui/fetch.go | the dashboard's data collection, with the single-flight Docker cache as a class |
| `SystemStatus` | internal/system/status.go | `df`, `/proc/uptime`, `kern.boottime`, `/proc/stat`, `/proc/meminfo` parsing; size units; `round2` |
| `Format` | internal/format/human.go | the human-readable tables and the multi-server summary |
| `Config` | internal/config/config.go | config path resolution, defaults, loading, wake-target lookup |
| `Demo` | internal/mcp/demo.go | demo-mode tool dispatch |

Support modules:

- `Wrappers` holds `Option` and `Result`.
- `Command` holds the outcome of running an external command and the number scanners.
- `GoStrings` holds the Go standard-library string functions the core calls: `strings.Fields`, `Split`, `TrimSpace`, `Index`, `Contains`, `Join`, `filepath.Base` and `strconv.Itoa`, each with a contract.
- `Docker` holds the container record.

Modelling conventions:

- Go's `float64` is `real`.
- An external command's result (`util.RunCmd`) is an input: `Output(text)` or `Failed(err)`.
- `fmt.Sscanf` of a number is a scanner function passed in. A scan that fails leaves Go's zero value, so the model gives 0 (`RealOrZero`, `IntOrZero`).
- Go's truncating `int(...)`, `/` and `%` are written out (`Trunc`, `Quot`, `Rem`). Dafny's own operators on negative numbers are Euclidean.
- Which of two racing events comes first (a goroutine's result or a timer) is an input (`Wait`, `Race`).

Where the code and its comments disagree, the model follows the code. In
`fetchDocker` (internal/tui/fetch.go:130-135), the comment on the timeout
branch says the late worker "will finish eventually and update cache".
The worker only runs `defer dockerRunning.Store(false)` and sends on a
channel that no one reads any more (lines 105-109). So after a timeout the
cache keeps the `"unavailable"` the timeout published until the next
successful claim. `Fetch.DockerCache.WorkerFinished` models exactly that.

## Model

| member | source | states |
|---|---|---|
| Sparkline.Level | internal/tui/sparkline.go:29-38 | the block index is at most 7; values at or below 0 give the lowest block and values at or above 100 the highest; in between, the index is the whole part of 7·v/100 |
| Sparkline.LevelMonotone | internal/tui/sparkline.go:29-39 | a larger sample never gets a lower block |
| Sparkline.Render | internal/tui/sparkline.go:16-43 | no data or a non-positive width gives ""; otherwise exactly min(len, width) glyphs, the k-th being the glyph of the k-th of the newest samples |
| Sparkline.SampleGlyph | internal/tui/sparkline.go:29-39 | one pass of the loop body draws the glyph of the clamped, scaled sample |
| Sparkline.SparklineColor | internal/tui/sparkline.go:47-59 | no data is green; otherwise red iff the last sample is above 80, yellow iff it is in [50, 80], green iff it is below 50 |
| Sparkline.ColorMonotone | internal/tui/sparkline.go:47-59 | a higher last sample never gives a calmer colour |
| Sparkline.AppendHistory | internal/tui/sparkline.go:63-69 | the result has min(n+1, 60) samples, is the newest end of history+[value], and ends with the new value |
| Sparkline.AppendAllKeepsNewest | internal/tui/sparkline.go:63-69 | appending samples one by one to a capped history keeps exactly the newest 60 of all samples |
| Sparkline.AppendSeventyKeepsLastSixty | internal/tui/sparkline.go:63-69 | any 70 samples appended to an empty history leave exactly the last 60, in order |
| Alerts.StatusFor | internal/alerts/alerts.go:58-66 | "critical" iff current >= threshold; "warning" iff 0.9·threshold <= current < threshold; "ok" otherwise; always one of the three |
| Alerts.StatusForMonotone | internal/alerts/alerts.go:58-66 | a higher reading never gets a lower severity under the same threshold |
| Alerts.DiskAlertOf | internal/alerts/alerts.go:46-53 | a disk's alert keeps its mount and percent, carries the disk threshold, and its status is StatusFor of the two |
| Alerts.Check | internal/alerts/alerts.go:27-56 | a status error is returned unchanged; otherwise CPU and memory are classified against their thresholds and there is one disk alert per disk, in order |
| SystemStatus.Trunc | internal/system/status.go:265-267 | Go's float-to-int conversion: the whole part, toward zero |
| SystemStatus.Round2 | internal/system/status.go:265-267 | the result has at most two decimals and lies within 0.01 of the input, toward zero |
| SystemStatus.Round2Idempotent | internal/system/status.go:265-267 | rounding a rounded value changes nothing |
| SystemStatus.Round2KeepsPercent | internal/system/status.go:265-267 | a percentage stays within [0, 100] once rounded |
| SystemStatus.Round2Monotone | internal/system/status.go:265-267 | rounding keeps the order of non-negative values |
| SystemStatus.NumberWithUnit | internal/system/status.go:247-257 | for a number followed by one unit, the suffix tests of parseSize select exactly that unit |
| SystemStatus.ParseSizeUnit | internal/system/status.go:246-263 | a size with unit T/Ti is scaled by 1024, G/Gi by 1, M/Mi by 1/1024, no unit by 1 |
| SystemStatus.ParseSizeOtherUnit | internal/system/status.go:246-263 | any other one-letter unit, K included, is not scaled: "512K" reads as 512 gigabytes |
| SystemStatus.DiskOf | internal/system/status.go:225-239 | the mount is the last column, size and used are the second and third columns in gigabytes rounded to two decimals, and the percent is the fifth column without its "%" |
| SystemStatus.DiskRow | internal/system/status.go:221-241 | a `df` line gives a disk iff it has at least six columns and a relevant mount, and then the disk its columns describe |
| SystemStatus.DiskRows | internal/system/status.go:220-243 | every disk reported is on "/" or under /home, /mnt or /Volumes |
| SystemStatus.DiskRowsKeeps | internal/system/status.go:220-242 | every kept line is reported, in line order: its disk follows the disks of the lines before it |
| SystemStatus.DiskRowsAppend | internal/system/status.go:220-243 | the disks of two blocks of lines are those of each block, concatenated |
| SystemStatus.GetDisks | internal/system/status.go:213-243 | a failed `df` gives no disks; otherwise the disks of its lines, in order |
| SystemStatus.ReadDisk | internal/system/status.go:221-241 | one pass of the loop body gives exactly the disks DiskRow reads from the line |
| SystemStatus.Quot | internal/system/status.go:76-77 | Go's integer `/`: the quotient is truncated toward zero, so `q·b` is the multiple of b nearest zero without passing the dividend |
| SystemStatus.Rem | internal/system/status.go:77 | Go's `%`: the quotient and remainder recompose the dividend; the remainder lies in [0, b) for a non-negative dividend and in (−b, 0] for a negative one, taking the dividend's sign |
| SystemStatus.UptimeOfBounds | internal/system/status.go:89-95 | from a day on, whole days and leftover hours (h < 24) bracket the duration; under a day, hours and minutes (m < 60) do |
| SystemStatus.LinuxUptime | internal/system/status.go:82-95 | an unreadable /proc/uptime gives "unknown" |
| SystemStatus.DarwinUptime | internal/system/status.go:61-81 | a failed sysctl or an output without "=" gives "unknown" |
| SystemStatus.LinuxCpuUsage | internal/system/status.go:123-138 | a failed read or fewer than eight columns give 0; with user, nice, system and idle from columns 1-4, a non-positive total gives 0 and otherwise usage × total = (total − idle) × 100 |
| SystemStatus.BusyPercent | internal/system/status.go:133-137 | the busy share of a positive total as a percentage (p × total = busy × 100); 0 when the total is not positive |
| SystemStatus.LinuxCpu | internal/system/status.go:101-145 | the core count is kept and the usage is the /proc/stat usage rounded to two decimals |
| SystemStatus.LinuxCpuUsageIsPercent | internal/system/status.go:123-138 | with non-negative counters the usage lies in [0, 100]; fewer than eight columns give 0 |
| SystemStatus.MemFromKB | internal/system/status.go:201-207 | total and used are the kB figures in GiB, rounded; the percent is used/total·100, rounded, for a non-zero total, and 0 for a zero total (see "## Left out") |
| SystemStatus.MemPercentBounded | internal/system/status.go:201-207 | when available <= total, the percent lies in [0, 100] and used <= total |
| SystemStatus.LinuxMemory | internal/system/status.go:187-207 | an unreadable /proc/meminfo gives zeros; otherwise the last MemTotal and MemAvailable lines are used |
| Config.FirstNamed | internal/config/config.go:87-94 | the index of the first wake target with the name, or -1 when none has it |
| Config.FindWakeTarget | internal/config/config.go:87-94 | none iff no target has the name; otherwise the first target with that name |
| Config.Resolve | internal/config/config.go:43-60 | explicit path, then $HOMEBUTLER_CONFIG, then an existing XDG file, then an existing ./homebutler.yaml; "" iff none applies |
| Config.ResolvePriority | internal/config/config.go:36-60 | a source higher in the order decides the path whatever the lower sources are |
| Config.Defaults | internal/config/config.go:63-70 | alert thresholds 90/85/90, output "json", no servers and no wake targets |
| Config.Load | internal/config/config.go:62-85 | a missing file gives the defaults; a read error and a parse error are wrapped with their own prefixes; otherwise the YAML decoded over the defaults |
| Ports.SplitAddrPort | internal/ports/ports.go:104-111 | no colon gives (s, ""); otherwise address + ":" + port recomposes s, split at the last colon |
| Ports.SplitAddrPortJoin | internal/ports/ports.go:104-111 | a host and a colon-free port joined by ":" split back into the same pair |
| Ports.SplitAddrPortExamples | internal/ports/ports.go:104-111 | an IPv4 address, the wildcard "*:443" and a string without a port split as expected |
| Ports.SplitAddrPortIPv6Examples | internal/ports/ports.go:104-111 | bracketed and bare IPv6 addresses split at their last colon |
| Ports.DarwinEntry | internal/ports/ports.go:44-62 | an `lsof` row gives a TCP entry with its command, PID and split NAME column |
| Ports.ScanDarwin | internal/ports/ports.go:39-63 | every entry comes from a valid row and matches it, in row order |
| Ports.ScanDarwinComplete | internal/ports/ports.go:48-53 | every valid row's address-PID key is among the kept entries |
| Ports.ScanDarwinFirst | internal/ports/ports.go:48-53 | each entry comes from the first row with its key |
| Ports.ScanDarwinDistinct | internal/ports/ports.go:48-53 | no two kept entries share a key |
| Ports.ParseDarwin | internal/ports/ports.go:36-64 | the loop with its seen-set gives exactly the de-duplicated scan |
| Ports.ListDarwin | internal/ports/ports.go:30-65 | a failed `lsof` gives the "failed to list ports: " error; otherwise the scan |
| Ports.ProcessName | internal/ports/ports.go:82-92 | quote-free; "" when there is no `(("` or no quote after it; otherwise `((\"` + name + `"` occurs at the first `(("` |
| Ports.ProcessNameIs | internal/ports/ports.go:85-90 | a quote-free text that stands between the first `(("` and a quote is the name read |
| Ports.UsersProcess | internal/ports/ports.go:85-90 | the statements cutting the name out of the users column compute ProcessName |
| Ports.LinuxEntry | internal/ports/ports.go:79-99 | an `ss` row gives a TCP entry without a PID, with the split local address, and a process name only with a sixth column |
| Ports.ScanLinux | internal/ports/ports.go:73-100 | at most one entry per line, all TCP without a PID |
| Ports.ScanLinuxRows | internal/ports/ports.go:74-99 | every valid row gives its entry, at the position after the entries of the rows before it |
| Ports.ParseLinux | internal/ports/ports.go:73-101 | the loop gives exactly the scan of the lines |
| Ports.ReadLinuxRow | internal/ports/ports.go:76-99 | one pass of the loop body: the header and short rows give nothing, any other row exactly its LinuxEntry |
| Ports.ListLinux | internal/ports/ports.go:67-102 | a failed `ss` gives the "failed to list ports: " error; otherwise the scan |
| Ports.List | internal/ports/ports.go:19-28 | macOS and Linux get their own listing; any other OS gets "unsupported OS: " |
| Processes.CommandName | internal/system/processes.go:66-70 | the remaining columns joined by spaces, cut to the last path element when it has a slash; never empty |
| Processes.CommandNameWithSpaces | internal/system/processes.go:66-70 | a macOS application path split by spaces is read back as "Google Chrome" |
| Processes.EmptyOutputHasNoProcesses | internal/system/processes.go:41-58 | empty output describes no process |
| GoStrings.FieldsAreRuns | internal/system/processes.go:55 | the fields of a line hold all its non-space characters, in order, one field per run of non-space characters |
| Processes.ProcessOf | internal/system/processes.go:60-77 | PID, CPU and memory are the first three columns scanned (zero when they do not scan); the name is the command name of the remaining columns |
| Processes.ParseLine | internal/system/processes.go:45-77 | a line gives a process iff, once trimmed, it is non-blank, not the PID header and has at least four columns |
| Processes.CandidatesPrefix | internal/system/processes.go:45-81 | reading more lines only adds processes after those already read |
| Processes.CandidatesTake | internal/system/processes.go:79-81 | stopping at the limit or at the end leaves exactly the first processes up to the limit |
| Processes.ReadLine | internal/system/processes.go:46-77 | one pass of the loop body reads a line as ParseLine does |
| Processes.ParseProcesses | internal/system/processes.go:41-85 | the first max(n, 1) processes of the output, in order |
| Processes.TopProcesses | internal/system/processes.go:21-38 | unsupported platforms and command errors are reported; otherwise the parsed processes |
| WakeOnLan.HexDecode | internal/wake/wol.go:52 | decodes iff the length is even and every character is hex; byte i is the value of characters 2i and 2i+1; an error names a non-hex character, or the odd length |
| WakeOnLan.ParseMac | internal/wake/wol.go:49-53 | decoding fails iff the MAC without ":" and "-" is not an even-length run of hex digits; a MAC the pattern accepts gives the six bytes its six hex pairs spell |
| WakeOnLan.CleanGrouped | internal/wake/wol.go:49-51 | removing the separators from hex pairs separated by ":" or "-" leaves exactly the pairs' digits |
| WakeOnLan.ValidMacDecodes | internal/wake/wol.go:11-22 | every MAC the pattern accepts, with its separators removed, hex-decodes to the six bytes its six hex pairs spell |
| WakeOnLan.HexDecodeIgnoresCase | internal/wake/wol.go:52 | lower-casing the digits changes neither whether the input decodes nor its bytes |
| WakeOnLan.ParseMacIgnoresCase | internal/wake/wol.go:11-19 | an accepted MAC stays accepted lower-cased, and gives the same bytes |
| WakeOnLan.SeparatorsRequired | internal/wake/wol.go:11-17 | any twelve bare hex digits decode, yet the pattern refuses them |
| WakeOnLan.Copies | internal/wake/wol.go:29-31 | n copies of the MAC are n times its length |
| WakeOnLan.MagicPacketLayout | internal/wake/wol.go:24-31 | the packet is 6 + 16·len bytes (102 for a MAC); the first six are 0xFF and then the MAC repeats |
| WakeOnLan.MagicPacketCopy | internal/wake/wol.go:29-31 | byte j of the r-th copy is byte j of the MAC |
| WakeOnLan.BuildPacket | internal/wake/wol.go:24-31 | the two loops build exactly the magic packet |
| WakeOnLan.Send | internal/wake/wol.go:14-47 | invalid MAC, connect and write errors are reported with their messages; the packet is sent, to port 9 of the broadcast address, iff none occurs, and is the 102-byte packet of the MAC |
| Fetch.ClassifyDockerError | internal/tui/fetch.go:115-121 | "not_installed" iff the error mentions "not installed" or "not found", "unavailable" otherwise |
| Fetch.DockerPair | internal/tui/fetch.go:112-125 | a listing gives its containers and "ok"; a failure gives no containers and its classification |
| Fetch.DockerCache.constructor | internal/tui/fetch.go:79-84 | nothing in flight and nothing cached |
| Fetch.DockerCache.Cached | internal/tui/fetch.go:90-97 | the cached pair, or no containers and "unavailable" before anything is cached |
| Fetch.DockerCache.TryClaim | internal/tui/fetch.go:90 | the claim succeeds iff nothing was in flight, and the flag is set afterwards |
| Fetch.DockerCache.Publish | internal/tui/fetch.go:126-128 | given a pair `fetchDocker` can produce, the cache holds it and stays valid; the flag is unchanged |
| Fetch.DockerCache.WorkerFinished | internal/tui/fetch.go:105-106 | the flag is cleared and the cache is left alone |
| Fetch.DockerCache.FetchDocker | internal/tui/fetch.go:88-137 | while a listing is in flight, the cached pair is returned and nothing changes; otherwise the listing's pair, or "unavailable" on timeout, is returned and cached; the cache stays valid |
| Fetch.FetchRemote | internal/tui/fetch.go:140-187 | a failed status call leaves only the name and the error; otherwise the status is kept, Docker failures are classified and failed alerts are left unset |
| Fetch.RemoteFailuresNonFatal | internal/tui/fetch.go:158-184 | Docker and alerts outcomes change neither the status nor the error |
| Fetch.RemoteErrorIffStatusFailed | internal/tui/fetch.go:146-175 | an error iff the status call failed; a status iff no error; the Docker status is one of the four and only "ok" has containers |
| Fetch.FetchLocal | internal/tui/fetch.go:60-75 | a status error is kept alone; otherwise the status, its host name and the alerts when they could be checked |
| Fetch.FetchServer | internal/tui/fetch.go:33-56 | on timeout the name and "fetch timeout (10s)"; otherwise the local or remote data |
| Format.PadRight | internal/format/human.go:33-35 | `%-Ns`: the text followed by spaces up to the width, never cut |
| Format.ContainerRow | internal/format/human.go:35 | a container's row starts with its name |
| Format.DockerList | internal/format/human.go:28-38 | the loop builds the header and one row per container; no containers gives its own message |
| Format.DockerListShowsEvery | internal/format/human.go:28-38 | the table starts with the header and shows every container's name |
| Format.ProcessColumn | internal/format/human.go:64-67 | "process/pid" when the PID is known, the process alone otherwise |
| Format.Ports | internal/format/human.go:57-71 | the loop builds the header and one row per port; no ports gives its own message |
| Format.PortsShowsEvery | internal/format/human.go:57-71 | every port's row appears, with "process/pid" when the PID is known |
| Format.HostnameColumn | internal/format/human.go:81-84 | an empty host name is shown as "-" |
| Format.NetworkScan | internal/format/human.go:74-89 | the loop builds the header, one row per device and the device count; no devices gives its own message |
| Format.NetworkScanShowsEvery | internal/format/human.go:74-89 | every device's row appears and the text ends with the number of devices |
| Format.StatusIcon | internal/format/human.go:119-130 | ok, warning and critical get their icons; any other status is shown as is |
| Format.AlertIconTellsStatus | internal/format/human.go:119-130 | an alert status always gets an icon, and two statuses get the same icon iff they are equal |
| Format.GetNestedFloat | internal/format/human.go:132-148 | the loop walks the keys through nested objects exactly as NestedFloat does |
| Format.NestedFloatOfNest | internal/format/human.go:132-148 | a number stored under a key path is read back from that path |
| Format.NestedFloatMissing | internal/format/human.go:132-148 | a missing key or a value of the wrong type gives 0 |
| Format.FirstDiskPercent | internal/format/human.go:150-161 | a non-zero result implies a non-empty disk list |
| Format.FirstDiskPercentIsLookup | internal/format/human.go:150-161 | the result is the first disk's usage_percent, or 0 when there is no disk |
| Format.StringField | internal/format/human.go:100 | the field when it is a string, "" otherwise |
| Format.LineOf | internal/format/human.go:99-115 | an error line iff there is a non-empty error; "no data" iff there is no error and no data object; otherwise the CPU, memory, disk and uptime metrics |
| Format.MultiServer | internal/format/human.go:97-117 | one line per result, in order, each LineOf that result |
| Demo.RequireString | internal/mcp/demo.go:14-17 | present only when the argument is a non-empty string |
| Demo.HostFor | internal/mcp/demo.go:48-83 | "nas-box" and "raspberry-pi" select their hosts; every other name selects homelab-server |
| Demo.DemoLogs | internal/mcp/demo.go:117-128 | the canned logs of nginx, postgres and backup; for any other container, a "No recent logs" message naming it |
| Demo.ExecuteDemoTool | internal/mcp/demo.go:5-46 | the server tools always answer; a missing name or target and an unknown tool give their errors |
| Demo.ServerToolsAnswer | internal/mcp/demo.go:5-12 | status, containers, ports and alerts are those of the server named by the "server" argument; a network scan gives the fixed device list |
| Demo.ActionsEchoArgument | internal/mcp/demo.go:13-36 | restart, stop, logs and wake succeed when given their argument and echo it back |
| Demo.ExecuteDemoToolFails | internal/mcp/demo.go:5-46 | a call fails iff the tool is unknown or its required argument is missing |
| Demo.NoArguments | internal/mcp/demo.go:13-36 | without arguments, the container tools and wake fail and the server tools answer |
| Demo.UnknownServerIsHomelab | internal/mcp/demo.go:71-83 | an unknown or absent server answers as homelab-server |

## Left out

- IEEE floating point is not modelled: `float64` is `real`, with no rounding error, NaN or infinity.
- `fmt.Sscanf` and `encoding/json` decoding are not modelled. Scanned numbers come from scanner parameters; decoded JSON arrives as a `Call` outcome or a `Json` value.
- Running commands, SSH (`remote.Run`), the UDP socket, the filesystem (`os.Stat`, `os.ReadFile`), the environment and the clock are not modelled. Their results are parameters.
- Goroutines, channels, the mutex, the atomic flag and timers are not modelled as concurrency. Which event wins a `select` is an input, and the Docker cache is one object updated step by step.
- `LastUpdate` times in the dashboard data are not modelled.
- SystemStatus.MemFromKB: a zero MemTotal gives a percent of 0. In Go the ratio is then NaN (no memory used) or ±Inf (a non-zero MemAvailable), and `round2` converts it to `int`, which Go leaves implementation-dependent; so Go stores some finite, platform-dependent number that the model does not reproduce.
- `getCPU` and `getMemory` on macOS (`top`, `vm_stat`, `sysctl hw.memsize`) are not modelled. Neither is the assembly of `Status()` from hostname, `runtime.GOOS`/`GOARCH` and the clock. Only the Linux branches and the disk, uptime and size parsing are modelled.
- SystemStatus.LinuxUptime and SystemStatus.DarwinUptime state only the "unknown" cases. The duration they format is characterised by SystemStatus.UptimeOfBounds. Go's `time.Duration` overflow for huge inputs is not modelled.
- SystemStatus.LinuxMemory: `Sscanf("MemTotal: %d kB")` is modelled as a scanner applied to the text after the key. A line that does not scan leaves the earlier value, as in Go.
- Printf float formatting (`%.1f`, `%4.0f`, `%5.1f`) is not modelled. For that reason `format.Status`, `format.Alerts`, `format.DockerAction` and `format.WakeResult` are left out, and `Format.LineOf` stops at the metric values rather than the text.
- Format.PadRight counts characters where Go's `%-Ns` counts runes. The two agree because Dafny strings are sequences of code points.
- WakeOnLan.HexDecode: `encoding/hex` works on bytes and the model works on characters. The two agree on ASCII input, which the MAC pattern guarantees. The wording of the hex error messages is not modelled, only which error occurs.
- WakeOnLan.Send: the JSON line printed to stdout after a successful send is not modelled. The decode-error return (internal/wake/wol.go:19-22) has no branch, because ParseMac's contract shows that every MAC the pattern accepts decodes.
- `Demo.Quote`: `%q` escaping of quotes, backslashes and unprintable characters is not modelled.
- The canned demo numbers, containers, ports, alerts and network devices are not modelled. A demo payload records which canned answer is given and the values the call echoes.
- `requireString` and `stringArg` are defined in a server file that is not part of this model. They are modelled as "a present, non-empty string" and "the string, or empty".
- YAML decoding is a decoder parameter applied over the defaults.
- `Config.XdgPath` joins the home directory and the path without `filepath.Join`'s cleaning.
- The docker package is not part of this model. Listing containers is an input (`ListOutcome`), and `Container` is a plain record.
- `ServerConfig` in the config file declares no `Local` field, though `fetchServer` reads `srv.Local`. Whether a server is local is therefore an input of `Fetch.FetchServer`.
- Go's 64-bit integer widths (PIDs, kB counts, seconds) are unbounded integers here. Values in the ranges these programs see do not overflow.

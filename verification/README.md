# Device monitor: scan, diff, notify

A Dafny model of the core of a polling presence monitor for a local network.
Each cycle the monitor runs an ARP scanning tool per configured subnet (falling
back to the system ARP table), pulls one hardware (MAC) address out of each line
of output, normalises it, drops the addresses on the ignore list, compares the
result with the previous scan and sends a Bark push notification for every
device that joined ("设备接入") or left ("设备断开"). An optional startup report
("设备监控启动报告") lists every device seen by the first scan.

Everything is modelled as pure functions over immutable values; the tracker
state is a record threaded from cycle to cycle.

| module | file | models |
|---|---|---|
| `Wrappers` | wrappers.dfy | `Option` |
| `MacAddress` | mac_address.dfy | the address pattern, the leftmost-match search, upper-casing and `-` to `:` |
| `Text` | text.dfy | `split('\n')`, `"\n".join`, decimal rendering of the device count |
| `StringOrder` | string_order.dfy | Python's string order and `sorted()` of a set |
| `Scan` | scan.dfy | `arp_scan` and `_fallback_arp_scan` over given tool outcomes, the ignore filter |
| `Registry` | registry.dfy | the configuration record and `get_device_name` |
| `Presence` | presence.dfy | the tracker state, join/leave events, `detect_changes` |
| `Notify` | notify.dfy | notices, level parameters, the key gate of `send_bark_notification`, the startup report |
| `Monitor` | monitor.dfy | `run_once`, the continuous loop, the default start-up sequence |

Modelling choices:

- A tool run is an input value: `Exited(code, stdout)`, `NotInstalled`,
  `TimedOut` or `Crashed`. Only a run that exited with code 0 is parsed. A
  missing tool ends the loop over subnets. The ARP table is consulted only when
  the subnet loop found nothing, and that test is made before filtering.
- The source walks the join and leave sets in hash order. The model walks them
  in ascending address order. No stated property depends on the order:
  membership in both directions, no repeats, exactly one event per changed
  address.
- The first-run test is whether the previous set is empty
  (`src/device_monitor.py:258`), not whether a scan has ever been committed.
  So once every device has left, the next scan becomes a new baseline and
  announces no joins (`Monitor.AllLeftThenNextScanIsBaseline`).
- The startup report is sent only with a configured push key: its guard checks
  the key (`src/device_monitor.py:286-288`) before any notice is built. Event
  notices are always built, and only their request is skipped
  (`src/device_monitor.py:149-151`).
- Level names follow the mapping in `src/device_monitor.py`: `silent` sets sound `silent` and
  level `passive`; `vibrate` and `active` set level `active`; `timeSensitive`
  sets level `timeSensitive`. Any other name, and a device with no setting,
  behaves as `normal` and sets nothing. The startup report always uses
  `active`.
- The scan time shown in the startup report is a parameter (`ReportAt(timestamp)`).
- Command-line modes map to calls: `--once` is `RunOnce(.., NoReport)`,
  `--init-report` is `RunOnce(.., ReportAt(t))`, and no argument is
  `StartMonitoring`.

## Model

| member | source | states |
|---|---|---|
| `MacAddress.FindMatchFrom` | src/device_monitor.py:88 | the search returns the first offset at or after the start where the 17-character pattern matches; with no offset returned, the pattern matches nowhere from there on |
| `MacAddress.ExtractMac` | src/device_monitor.py:88-90 | a line yields an address exactly when the pattern matches somewhere in it; the address is the normalised leftmost match and is canonical (17 characters, upper-case hex pairs, colons) |
| `MacAddress.Normalize` | src/device_monitor.py:90 | normalising keeps the length and turns every match into a canonical address |
| `MacAddress.NormalizeIdentifiesSameAddress` | src/device_monitor.py:90 | two matched spellings normalise to the same value if and only if they have the same hex value digit by digit, whatever the case and separators |
| `MacAddress.CanonicalIsFixedPoint` | src/device_monitor.py:88-90 | a canonical address is itself a match and normalises to itself, so normalising is idempotent |
| `MacAddress.HyphenatedLowerCaseNormalizes` | src/device_monitor.py:88-90 | `aa-bb-cc-dd-ee-ff` and `AA:BB:CC:DD:EE:FF` both normalise to `AA:BB:CC:DD:EE:FF`, and the former line is extracted as that address |
| `MacAddress.ExtractAll` | src/device_monitor.py:86-91 | an address is collected if and only if some line yields it; every collected address is canonical |
| `MacAddress.UnmatchedLineContributesNothing` | src/device_monitor.py:86-91 | a line without a match leaves the collected set unchanged |
| `Text.SplitLines` | src/device_monitor.py:85 | splitting gives at least one line and no line contains a newline |
| `Text.SplitThenJoin` | src/device_monitor.py:85 | joining the split lines with newlines gives the original output back |
| `Text.JoinLines` | src/device_monitor.py:299 | joining no lines gives the empty text; otherwise the text starts with the first line, followed by a newline when more lines follow |
| `Text.JoinLinesAppend` | src/device_monitor.py:299 | joining two non-empty groups of lines puts exactly one newline between their joined texts |
| `Text.JoinFramed` | src/device_monitor.py:303 | the report layout (heading, blank line, count line, device lines, blank line, time line) joined with newlines is the text with doubled newlines around the device section |
| `Text.JoinThenSplit` | src/device_monitor.py:299 | joining newline-free lines and splitting again gives the same lines |
| `Text.NatToString` | src/device_monitor.py:303 | the device count is written with decimal digits only and without a leading zero |
| `Text.NatToStringRoundTrip` | src/device_monitor.py:298-303 | the written count reads back as the count |
| `StringOrder.LessTotal` | src/device_monitor.py:294 | any two different strings are ordered one way or the other |
| `StringOrder.LessTransitive` | src/device_monitor.py:294 | the string order is transitive |
| `StringOrder.SortedSet` | src/device_monitor.py:294 | the sorted listing is strictly ascending, has no repeats, has the set's size and holds exactly the set's members |
| `StringOrder.SortedListingUnique` | src/device_monitor.py:294 | two strictly sorted listings with the same members are equal, so the listing of a set is fully determined |
| `Scan.SubnetScan` | src/device_monitor.py:76-101 | an address is collected if and only if a successful run before the first missing-tool run printed it; every collected address is canonical |
| `Scan.ParseToolOutput` | src/device_monitor.py:85-91 | an address is parsed from a tool's output if and only if some line of the output yields it |
| `Scan.MissingToolEndsSubnetLoop` | src/device_monitor.py:95-97 | once a run finds the tool missing, the later subnets contribute nothing |
| `Scan.ArpTableScan` | src/device_monitor.py:118-127 | an address comes from the ARP table run if and only if the run exited with code 0 and some line of its output yields that address; every such address is canonical |
| `Scan.FilterIgnored` | src/device_monitor.py:109 | the filtered set is a subset of the raw set, shares nothing with the ignore set, and keeps every raw address that is not ignored |
| `Scan.ArpScan` | src/device_monitor.py:103-111 | an address is in the scan result if and only if it is not ignored and either the subnets found it, or the subnets found nothing and the ARP table lists it |
| `Scan.ArpTableUnusedWhenSubnetsFound` | src/device_monitor.py:104-106 | when the subnets found any address, the ARP table run does not affect the result |
| `Scan.IgnoredOnlyScanSkipsArpTable` | src/device_monitor.py:104-109 | subnets that found only ignored devices give an empty result even if the ARP table lists other devices |
| `Scan.NonCanonicalIgnoreEntriesAreInert` | src/device_monitor.py:109 | ignore entries that are not canonical never filter anything |
| `Scan.BroadcastIgnoredScenario` | src/device_monitor.py:109 | ignoring `FF:FF:FF:FF:FF:FF` leaves `{11:22:33:44:55:66}` from a scan of both |
| `Registry.DeviceName` | src/device_monitor.py:136-139 | defined for every address: the configured label for a known one, otherwise `未知设备 (` + the address + `)` |
| `Registry.UnknownNamesDistinguishDevices` | src/device_monitor.py:139 | two unknown devices with the same generated name are the same device |
| `Presence.DetectChanges` | src/device_monitor.py:214-241 | a join event exists for an address if and only if it is in the scan and not in the previous set; a leave event if and only if the reverse; no event repeats; joins come before leaves; the count is the size of both differences; the new state is the scan |
| `Presence.OneEventPerChangedAddress` | src/device_monitor.py:220-238 | each new address has exactly one join event and each departed address exactly one leave event; unchanged addresses have none |
| `Presence.JoinsAndLeavesDisjoint` | src/device_monitor.py:220-222 | no address both joins and leaves in the same cycle |
| `Presence.UnchangedScanIsQuiet` | src/device_monitor.py:220-241 | detecting changes against the same set produces no events and leaves the state unchanged |
| `Notify.EventNotice` | src/device_monitor.py:225-238 | a join gives the join title, a leave the leave title; the notice concerns the event's device, is not special, and its body starts with the device name and the address in parentheses |
| `Notify.NotificationLevel` | src/device_monitor.py:153-158 | a special notice uses `active`; otherwise the device's configured level, or `normal` when it has none |
| `Notify.LevelParams` | src/device_monitor.py:181-196 | only `sound` and `level` are ever set; `sound` (value `silent`) exactly for `silent`; `level` exactly for the four recognised names, with value `passive`, `active` or `timeSensitive` |
| `Notify.LevelTable` | src/device_monitor.py:181-196 | silent, vibrate, active, timeSensitive and normal give exactly the listed parameters |
| `Notify.Deliver` | src/device_monitor.py:149-206 | no request is made exactly when the key is empty; a request carries the notice's title and body; special notices get level `active`; unmapped devices get no parameters; mapped ones get their level's parameters |
| `Notify.DeliverAll` | src/device_monitor.py:225-238 | no requests without a key; otherwise one request per notice, each the one that notice yields |
| `Notify.SpecialIgnoresDeviceLevel` | src/device_monitor.py:153-155 | changing any device's configured level does not change the request for a special notice |
| `Notify.BuildReport` | src/device_monitor.py:293-298 | the report lists exactly the scanned devices in strictly ascending order, and its count is the number of devices |
| `Notify.ReportListsEveryDevice` | src/device_monitor.py:293-299 | the report has one `name (address)` line per device, every device has its line, and every line belongs to a device |
| `Notify.ReportCountIsDeviceCount` | src/device_monitor.py:298-303 | the count written in the report body reads back as the set size |
| `Notify.ReportBody` | src/device_monitor.py:303 | with at least one device, the report text is its lines (heading, blank, count, one `name (address)` line per device, blank, scan time) joined with newlines |
| `Notify.ReportBodyLines` | src/device_monitor.py:299-303 | when no label, address or timestamp contains a newline, splitting the report text at newlines gives back exactly its lines |
| `Notify.ReportShowsDeviceLines` | src/device_monitor.py:293-303 | for a non-empty scan of canonical addresses, when no configured label and not the scan time contains a newline, the report text read back line by line has the count line third, then one entry per device in ascending address order, and the scan time last |
| `Notify.InitialReport` | src/device_monitor.py:282-306 | a report notice exists exactly when the scan is non-empty and a key is configured; it is special, has the report title and no device address |
| `Monitor.Step` | src/device_monitor.py:249-275 | the state becomes the scan; with an empty state no events are produced and at most one notice is sent, exactly when a report is requested, the scan is non-empty and a key exists, and that notice is the startup report of this scan at the requested time; otherwise the events are those of change detection, one notice each; requests follow the key gate |
| `Monitor.RunOnce` | src/device_monitor.py:249-275 | a full cycle's scan result holds only canonical, non-ignored addresses and becomes the new state |
| `Monitor.Run` | src/device_monitor.py:310-324 | the loop runs one cycle per scan, without the startup report, each from the previous cycle's state |
| `Monitor.StartMonitoring` | src/device_monitor.py:362-366 | the default mode runs a first cycle from the empty state that may send the report, then the loop from its state |
| `Monitor.ReportOnlyAtStart` | src/device_monitor.py:362-366 | in the default mode every special notice comes from the first cycle and is the startup report of the first scan; no later cycle sends one |
| `Monitor.StartMonitoringAvoidsIgnored` | src/device_monitor.py:362-366 | in the default mode the startup report lists no ignored address, and no cycle's state, event or device notice mentions one |
| `Monitor.AllLeftThenNextScanIsBaseline` | src/device_monitor.py:258-271 | after every device leaves (one leave event each, no joins), the next scan is a new baseline: no events, whatever it holds |
| `Monitor.RepeatedScanIsQuiet` | src/device_monitor.py:258-271 | a second cycle with the same scan produces no events, notices or requests and keeps the state |
| `Monitor.NoKeyStillTracks` | src/device_monitor.py:149-151 | without a key no request is made, the state still becomes the scan, and the event notices are the same as with any key |
| `Monitor.SpecialRequestsAreActive` | src/device_monitor.py:305-306 | every request made for a special notice has exactly the parameter level `active` |
| `Monitor.RunSendsNoReport` | src/device_monitor.py:315-317 | no cycle of the continuous loop sends a special notice |
| `Monitor.CycleAvoidsIgnored` | src/device_monitor.py:249-275 | from a state without ignored addresses, a cycle without the startup report has no ignored address in its state, events or notices |
| `Monitor.RunNeverMentionsIgnored` | src/device_monitor.py:310-324 | from a state without ignored addresses, no state, event or notice of any cycle of the loop mentions an ignored address |
| `Monitor.ReportAvoidsIgnored` | src/device_monitor.py:266-269 | the startup report of a cycle lists only addresses that passed the ignore filter, and its text is the report of that cycle's scan |
| `Monitor.PhoneLeavesScenario` | src/device_monitor.py:233-241 | a known phone seen once and then gone gives a silent baseline, then exactly one leave event whose notice names "Phone" and its address, and an empty state |

## Left out

- Running `arp-scan` and `arp -a`: process start, time limits, how the
  exceptions are raised, and the subnet and interface arguments. These are
  external process I/O. What each run produced is an input (`Scan.ToolRun`),
  and the handling of each exception is modelled: a missing tool ends the
  subnet loop, a timeout or other failure skips only its subnet. The subnets
  appear only as the number of runs.
- The HTTP request itself, its URL (base URL, key, percent-encoded title and
  body) and its response handling. These are a network call and a foreign
  library. The model stops at `Notify.Request`: title, body and parameters.
- Loading and parsing the configuration, writing the example configuration,
  `--help` and unknown-argument handling, and logging. These are file and
  process plumbing. The configuration is the `Registry.Config` record.
- The timing of the continuous loop (`time.time`, `time.sleep`,
  `max(1, interval - elapsed)`) and its keyboard-interrupt exit. These involve
  the wall clock and floating point.
- `datetime.now()` for the report's scan time. The clock is replaced by a
  timestamp parameter.
- The fallback's warning when several subnets are configured. It only logs.
- MacAddress.ToUpper: upper-cases ASCII letters only, not all of Unicode.
  Python's `str.upper` is only ever applied to a match, and a match holds only
  ASCII hex digits and separators.
- Presence.DetectChanges: the order of events within the join group and
  within the leave group is fixed to ascending address order. The source's
  order is the unspecified hash order of a set.

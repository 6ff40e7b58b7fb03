/**
 * The notification policy: the notice each event or startup report produces,
 * the level parameters the push request carries, and the gate that skips
 * sending when no service key is configured.
 */
module Notify {
  import opened Wrappers
  import opened MacAddress
  import opened Text
  import opened StringOrder
  import opened Registry
  import opened Presence

  const JoinTitle: string := "设备接入"
  const LeaveTitle: string := "设备断开"
  const ReportTitle: string := "设备监控启动报告"

  /** The level used for a device without a configured level. */
  const DefaultLevel: string := "normal"
  /** The level every special notification (the startup report) uses. */
  const SpecialLevel: string := "active"

  /** The level names that change the request; every other name behaves as "normal". */
  const RecognizedLevels: set<string> := {"silent", "vibrate", "active", "timeSensitive"}

  /** A call to send a push notification: title, body, the device it is about, whether it is special. */
  datatype Notice = Notice(title: string, body: string, mac: string, special: bool)

  /** The push request actually made: the text and the query parameters. */
  datatype Request = Request(title: string, body: string, params: map<string, string>)

  /** The notice for one device event; its body names the device and its address. */
  function EventNotice(cfg: Config, e: Event): (n: Notice)
    ensures n.mac == e.mac && !n.special
    ensures n.title == JoinTitle <==> e.Joined?
    ensures n.title == LeaveTitle <==> e.Left?
    ensures ReportEntry(cfg, e.mac) <= n.body
  {
    var subject := ReportEntry(cfg, e.mac);
    match e
    case Joined(mac) => Notice(JoinTitle, subject + " 已接入网络", mac, false)
    case Left(mac) => Notice(LeaveTitle, subject + " 已断开网络", mac, false)
  }

  /** The notices of a cycle's events, one per event and in the same order. */
  function EventNotices(cfg: Config, events: seq<Event>): (ns: seq<Notice>)
    ensures |ns| == |events|
    ensures forall i :: 0 <= i < |ns| ==> ns[i] == EventNotice(cfg, events[i])
  {
    seq(|events|, i requires 0 <= i < |events| => EventNotice(cfg, events[i]))
  }

  /** The level a notice is sent with: forced for special notices, else the device's, else "normal". */
  function NotificationLevel(cfg: Config, n: Notice): (level: string)
    ensures n.special ==> level == SpecialLevel
    ensures !n.special && n.mac !in cfg.levels ==> level == DefaultLevel
    ensures !n.special && n.mac in cfg.levels ==> level == cfg.levels[n.mac]
  {
    if n.special then SpecialLevel
    else if n.mac in cfg.levels then cfg.levels[n.mac]
    else DefaultLevel
  }

  /**
   * The query parameters a level name turns into: only "sound" and "level" are
   * ever set, "sound" only for silent, "level" only for a recognised name.
   */
  function LevelParams(level: string): (params: map<string, string>)
    ensures params.Keys <= {"sound", "level"}
    ensures "sound" in params <==> level == "silent"
    ensures "level" in params <==> level in RecognizedLevels
    ensures "sound" in params ==> params["sound"] == "silent"
    ensures "level" in params ==> params["level"] in {"passive", "active", "timeSensitive"}
  {
    if level == "silent" then map["sound" := "silent", "level" := "passive"]
    else if level == "vibrate" || level == "active" then map["level" := "active"]
    else if level == "timeSensitive" then map["level" := "timeSensitive"]
    else map[]
  }

  /** The request a notice results in; none at all when no service key is configured. */
  function Deliver(cfg: Config, n: Notice): (r: Option<Request>)
    ensures r.None? <==> cfg.apiKey == ""
    ensures r.Some? ==> r.value.title == n.title && r.value.body == n.body
    ensures r.Some? && n.special ==> r.value.params == map["level" := "active"]
    ensures r.Some? && !n.special && n.mac !in cfg.levels ==> r.value.params == map[]
    ensures r.Some? && !n.special && n.mac in cfg.levels ==> r.value.params == LevelParams(cfg.levels[n.mac])
  {
    if cfg.apiKey == "" then None
    else Some(Request(n.title, n.body, LevelParams(NotificationLevel(cfg, n))))
  }

  /** The requests made for a cycle's notices, in order. */
  function DeliverAll(cfg: Config, ns: seq<Notice>): (rs: seq<Request>)
    ensures |rs| == if cfg.apiKey == "" then 0 else |ns|
    ensures forall i :: 0 <= i < |rs| ==> Deliver(cfg, ns[i]) == Some(rs[i])
  {
    if cfg.apiKey == "" then []
    else seq(|ns|, i requires 0 <= i < |ns| => Request(ns[i].title, ns[i].body, LevelParams(NotificationLevel(cfg, ns[i]))))
  }

  /** The mapping from level names to parameters, case by case. */
  lemma LevelTable()
    ensures LevelParams("silent") == map["sound" := "silent", "level" := "passive"]
    ensures LevelParams("vibrate") == map["level" := "active"]
    ensures LevelParams("active") == map["level" := "active"]
    ensures LevelParams("timeSensitive") == map["level" := "timeSensitive"]
    ensures LevelParams(DefaultLevel) == map[]
  {
  }

  /** A special notice is sent at level active whatever the device's configured level. */
  lemma SpecialIgnoresDeviceLevel(cfg: Config, n: Notice, level: string)
    requires n.special
    ensures Deliver(cfg.(levels := cfg.levels[n.mac := level]), n) == Deliver(cfg, n)
  {
  }

  /** The startup report: the device count, the addresses in ascending order, the scan time. */
  datatype StartupReport = StartupReport(count: nat, macs: seq<string>, timestamp: string)

  function BuildReport(devices: set<string>, timestamp: string): (r: StartupReport)
    ensures r.count == |devices| == |r.macs|
    ensures StrictlySorted(r.macs)
    ensures forall m :: m in r.macs <==> m in devices
    ensures r.timestamp == timestamp
  {
    StartupReport(|devices|, SortedSet(devices), timestamp)
  }

  /** How a device is written in notices and in the report's device list: "name (address)". */
  function ReportEntry(cfg: Config, mac: string): string
  {
    DeviceName(cfg, mac) + " (" + mac + ")"
  }

  function ReportEntries(cfg: Config, macs: seq<string>): (lines: seq<string>)
    ensures |lines| == |macs|
    ensures forall i :: 0 <= i < |lines| ==> lines[i] == ReportEntry(cfg, macs[i])
  {
    seq(|macs|, i requires 0 <= i < |macs| => ReportEntry(cfg, macs[i]))
  }

  const ReportHeading: string := "设备监控服务已启动"

  function CountLine(count: nat): string
  {
    "当前在线设备 (" + NatToString(count) + " 个):"
  }

  function TimeLine(timestamp: string): string
  {
    "扫描时间: " + timestamp
  }

  /** The report body line by line: heading, blank, count, one line per device, blank, scan time. */
  function ReportLines(cfg: Config, r: StartupReport): seq<string>
  {
    [ReportHeading, "", CountLine(r.count)] + ReportEntries(cfg, r.macs) + ["", TimeLine(r.timestamp)]
  }

  /** The text of the startup report; with at least one device it is the report's lines joined. */
  function ReportBody(cfg: Config, r: StartupReport): (body: string)
    ensures |r.macs| > 0 ==> body == JoinLines(ReportLines(cfg, r))
  {
    var entries := ReportEntries(cfg, r.macs);
    var body := ReportHeading + "\n\n" + CountLine(r.count) + "\n" + JoinLines(entries) + "\n\n" + TimeLine(r.timestamp);
    if |r.macs| > 0 then
      JoinFramed(ReportHeading, CountLine(r.count), entries, TimeLine(r.timestamp));
      body
    else body
  }

  /** No configured label spans several lines. */
  predicate LabelsOnOneLine(cfg: Config) {
    forall m :: m in cfg.labels ==> '\n' !in cfg.labels[m]
  }

  lemma EntryOnOneLine(cfg: Config, mac: string)
    requires LabelsOnOneLine(cfg) && '\n' !in mac
    ensures '\n' !in ReportEntry(cfg, mac)
  {
  }

  /**
   * Splitting the report body at newlines gives back its lines, so the device
   * section is exactly one entry per listed address.
   */
  lemma {:induction false} ReportBodyLines(cfg: Config, r: StartupReport)
    requires |r.macs| > 0
    requires LabelsOnOneLine(cfg) && '\n' !in r.timestamp
    requires forall i :: 0 <= i < |r.macs| ==> '\n' !in r.macs[i]
    ensures SplitLines(ReportBody(cfg, r)) == ReportLines(cfg, r)
  {
    var lines := ReportLines(cfg, r);
    var entries := ReportEntries(cfg, r.macs);
    forall i | 0 <= i < |entries|
      ensures '\n' !in entries[i]
    {
      EntryOnOneLine(cfg, r.macs[i]);
    }
    assert '\n' !in CountLine(r.count) by {
      var digits := NatToString(r.count);
      assert CountLine(r.count) == "当前在线设备 (" + digits + " 个):";
      assert forall k :: 0 <= k < |digits| ==> digits[k] != '\n';
    }
    assert '\n' !in TimeLine(r.timestamp);
    forall i | 0 <= i < |lines|
      ensures '\n' !in lines[i]
    {
      if 3 <= i < 3 + |entries| {
        assert lines[i] == entries[i - 3];
      }
    }
    JoinThenSplit(lines);
  }

  /**
   * The startup report notice: only for a non-empty scan and a configured
   * service key; special, so it is sent at level active.
   */
  function InitialReport(cfg: Config, devices: set<string>, timestamp: string): (r: Option<Notice>)
    ensures r.Some? <==> devices != {} && cfg.apiKey != ""
    ensures r.Some? ==> r.value.special && r.value.title == ReportTitle && r.value.mac == ""
    ensures r.Some? ==> r.value.body == ReportBody(cfg, BuildReport(devices, timestamp))
  {
    if devices == {} then None
    else if cfg.apiKey == "" then None
    else Some(Notice(ReportTitle, ReportBody(cfg, BuildReport(devices, timestamp)), "", true))
  }

  /** The report lists every device, and nothing else, one line per device. */
  lemma ReportListsEveryDevice(cfg: Config, devices: set<string>, timestamp: string)
    ensures var lines := ReportEntries(cfg, BuildReport(devices, timestamp).macs);
      && |lines| == |devices|
      && (forall m :: m in devices ==> ReportEntry(cfg, m) in lines)
      && (forall i :: 0 <= i < |lines| ==> exists m :: m in devices && lines[i] == ReportEntry(cfg, m))
  {
  }

  /**
   * The startup report's device section, read back line by line, is one
   * `name (address)` entry per scanned device in ascending address order.
   */
  lemma ReportShowsDeviceLines(cfg: Config, devices: set<string>, timestamp: string)
    requires devices != {} && forall m :: m in devices ==> IsCanonical(m)
    requires LabelsOnOneLine(cfg) && '\n' !in timestamp
    ensures var report := BuildReport(devices, timestamp);
      var lines := SplitLines(ReportBody(cfg, report));
      && |lines| == |devices| + 5
      && lines[3..3 + |devices|] == ReportEntries(cfg, report.macs)
      && lines[2] == CountLine(|devices|)
      && lines[|lines| - 1] == TimeLine(timestamp)
  {
    var report := BuildReport(devices, timestamp);
    forall i | 0 <= i < |report.macs|
      ensures '\n' !in report.macs[i]
    {
      CanonicalOnOneLine(report.macs[i]);
    }
    ReportBodyLines(cfg, report);
  }

  /** The count written in the report reads back as the number of devices. */
  lemma ReportCountIsDeviceCount(devices: set<string>, timestamp: string)
    ensures DecimalValue(NatToString(BuildReport(devices, timestamp).count)) == |devices|
  {
    NatToStringRoundTrip(|devices|);
  }
}

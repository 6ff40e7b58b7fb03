/**
 * The scan-diff-notify loop: one cycle (scan, first-run rule or change
 * detection, notices, requests) and the sequence of cycles the monitor runs.
 */
module Monitor {
  import opened Wrappers
  import opened MacAddress
  import opened Registry
  import opened Scan
  import opened Presence
  import opened Notify

  /** Whether a cycle may send the startup report, and the scan time the report shows. */
  datatype ReportRequest = NoReport | ReportAt(timestamp: string)

  /** Everything one cycle produces. */
  datatype Cycle = Cycle(
    current: set<string>,    // the filtered scan result
    next: State,             // the tracker state afterwards
    events: seq<Event>,      // join and leave events
    notices: seq<Notice>,    // calls to send a notification
    requests: seq<Request>)  // push requests actually made

  function OptionToSeq<T>(o: Option<T>): seq<T>
  {
    if o.Some? then [o.value] else []
  }

  /**
   * One cycle after the scan. With an empty state the scan becomes the new
   * baseline without events (at most the startup report is sent); otherwise
   * the changes are detected and announced. The state becomes the scan either way.
   */
  function Step(cfg: Config, st: State, current: set<string>, report: ReportRequest): (c: Cycle)
    ensures c.current == current && c.next == State(current)
    ensures st.previous == {} ==> c.events == []
    ensures st.previous == {} ==>
      |c.notices| == if report.ReportAt? && current != {} && cfg.apiKey != "" then 1 else 0
    ensures st.previous == {} ==> forall n :: n in c.notices ==> n.special && n.title == ReportTitle
    ensures st.previous == {} ==> forall n :: n in c.notices ==>
      report.ReportAt? && InitialReport(cfg, current, report.timestamp) == Some(n)
    ensures st.previous != {} ==> c.events == DetectChanges(st, current).events
    ensures st.previous != {} ==> c.notices == EventNotices(cfg, c.events)
    ensures c.requests == DeliverAll(cfg, c.notices)
  {
    if st.previous == {} then
      var notices :=
        if report.ReportAt? && current != {}
        then OptionToSeq(InitialReport(cfg, current, report.timestamp))
        else [];
      Cycle(current, State(current), [], notices, DeliverAll(cfg, notices))
    else
      var changes := DetectChanges(st, current);
      var notices := EventNotices(cfg, changes.events);
      Cycle(current, changes.next, changes.events, notices, DeliverAll(cfg, notices))
  }

  /** One complete cycle: scan, filter, then the cycle logic on the filtered result. */
  function RunOnce(cfg: Config, st: State, input: ScanInput, report: ReportRequest): (c: Cycle)
    ensures c.current !! cfg.ignored
    ensures forall m :: m in c.current ==> IsCanonical(m)
    ensures c.next == State(c.current)
    ensures c == Step(cfg, st, ArpScan(input, cfg.ignored), report)
  {
    Step(cfg, st, ArpScan(input, cfg.ignored), report)
  }

  /** The continuous loop: one cycle per scan, each starting from the previous cycle's state. */
  function Run(cfg: Config, st: State, inputs: seq<ScanInput>): (cycles: seq<Cycle>)
    ensures |cycles| == |inputs|
    ensures |cycles| > 0 ==> cycles[0] == RunOnce(cfg, st, inputs[0], NoReport)
    ensures forall i :: 0 < i < |cycles| ==>
      cycles[i] == RunOnce(cfg, cycles[i - 1].next, inputs[i], NoReport)
    decreases |inputs|
  {
    if |inputs| == 0 then []
    else
      var first := RunOnce(cfg, st, inputs[0], NoReport);
      var rest := Run(cfg, first.next, inputs[1..]);
      var cycles := [first] + rest;
      forall i | 0 < i < |cycles|
        ensures cycles[i] == RunOnce(cfg, cycles[i - 1].next, inputs[i], NoReport)
      {
        assert cycles[i] == rest[i - 1];
        assert inputs[1..][i - 1] == inputs[i];
        if i > 1 {
          assert cycles[i - 1] == rest[i - 2];
        }
      }
      cycles
  }

  /** The default mode: a first cycle that may send the startup report, then the loop. */
  function StartMonitoring(cfg: Config, first: ScanInput, timestamp: string, rest: seq<ScanInput>): (cycles: seq<Cycle>)
    ensures |cycles| == |rest| + 1
    ensures cycles[0] == RunOnce(cfg, Initial, first, ReportAt(timestamp))
    ensures cycles[1..] == Run(cfg, cycles[0].next, rest)
  {
    var start := RunOnce(cfg, Initial, first, ReportAt(timestamp));
    [start] + Run(cfg, start.next, rest)
  }

  /**
   * The first-run rule is keyed on the state being empty: after every device
   * has left, the next scan is taken as a new baseline and no device is
   * announced as joining, however many appear.
   */
  lemma AllLeftThenNextScanIsBaseline(cfg: Config, st: State, current: set<string>, report: ReportRequest)
    requires st.previous != {}
    ensures var emptied := Step(cfg, st, {}, NoReport);
      && |emptied.events| == |st.previous|
      && (forall m :: Joined(m) !in emptied.events)
      && Step(cfg, emptied.next, current, report).events == []
      && Step(cfg, emptied.next, current, report).next == State(current)
  {
  }

  /** A cycle whose scan equals the previous one announces nothing. */
  lemma RepeatedScanIsQuiet(cfg: Config, st: State, current: set<string>, report: ReportRequest)
    ensures var again := Step(cfg, Step(cfg, st, current, report).next, current, NoReport);
      again.events == [] && again.notices == [] && again.requests == [] && again.next == State(current)
  {
  }

  /**
   * Without a service key the cycle still tracks and still builds the event
   * notices, but no request is made.
   */
  lemma NoKeyStillTracks(cfg: Config, st: State, current: set<string>, report: ReportRequest, key: string)
    requires cfg.apiKey == ""
    ensures Step(cfg, st, current, report).requests == []
    ensures Step(cfg, st, current, report).next == State(current)
    ensures st.previous != {} ==>
      Step(cfg, st, current, report).notices == Step(cfg.(apiKey := key), st, current, report).notices
  {
  }

  /** Every request made for a special notice is sent at level active. */
  lemma SpecialRequestsAreActive(cfg: Config, st: State, current: set<string>, report: ReportRequest)
    ensures var c := Step(cfg, st, current, report);
      forall i :: 0 <= i < |c.requests| && c.notices[i].special ==>
        c.requests[i].params == map["level" := "active"]
  {
  }

  /** The loop never sends the startup report: all its notices are device events. */
  lemma RunSendsNoReport(cfg: Config, st: State, inputs: seq<ScanInput>)
    ensures forall i, n :: 0 <= i < |inputs| && n in Run(cfg, st, inputs)[i].notices ==> !n.special
  {
    var cycles := Run(cfg, st, inputs);
    forall i, n | 0 <= i < |inputs| && n in cycles[i].notices
      ensures !n.special
    {
      var prior := if i == 0 then st else cycles[i - 1].next;
      assert cycles[i] == RunOnce(cfg, prior, inputs[i], NoReport);
      var k :| 0 <= k < |cycles[i].notices| && cycles[i].notices[k] == n;
    }
  }

  /**
   * An ignored address never reaches the tracker: starting from a state free of
   * ignored addresses, no cycle's state, event or event notice mentions one.
   */
  lemma {:induction false} RunNeverMentionsIgnored(cfg: Config, st: State, inputs: seq<ScanInput>)
    requires st.previous !! cfg.ignored
    ensures forall i :: 0 <= i < |inputs| ==> Run(cfg, st, inputs)[i].next.previous !! cfg.ignored
    ensures forall i, e :: 0 <= i < |inputs| && e in Run(cfg, st, inputs)[i].events ==> e.mac !in cfg.ignored
    ensures forall i, n :: 0 <= i < |inputs| && n in Run(cfg, st, inputs)[i].notices ==> n.mac !in cfg.ignored
    decreases |inputs|
  {
    if |inputs| > 0 {
      var cycles := Run(cfg, st, inputs);
      var first := cycles[0];
      CycleAvoidsIgnored(cfg, st, inputs[0]);
      RunNeverMentionsIgnored(cfg, first.next, inputs[1..]);
      assert cycles[1..] == Run(cfg, first.next, inputs[1..]);
      forall i | 0 < i < |inputs|
        ensures cycles[i] == Run(cfg, first.next, inputs[1..])[i - 1]
      {
      }
    }
  }

  /** One cycle from a state free of ignored addresses mentions none. */
  lemma CycleAvoidsIgnored(cfg: Config, st: State, input: ScanInput)
    requires st.previous !! cfg.ignored
    ensures var c := RunOnce(cfg, st, input, NoReport);
      && c.next.previous !! cfg.ignored
      && (forall e :: e in c.events ==> e.mac !in cfg.ignored)
      && (forall n :: n in c.notices ==> n.mac !in cfg.ignored)
  {
    var c := RunOnce(cfg, st, input, NoReport);
    forall e | e in c.events
      ensures e.mac !in cfg.ignored
    {
      match e
      case Joined(m) => assert Joined(m) in c.events;
      case Left(m) => assert Left(m) in c.events;
    }
    forall n | n in c.notices
      ensures n.mac !in cfg.ignored
    {
      var k :| 0 <= k < |c.notices| && c.notices[k] == n;
      assert c.events[k] in c.events;
    }
  }

  /**
   * The startup report lists only addresses that survived the ignore filter:
   * a special notice of a cycle is the report of that cycle's scan.
   */
  lemma ReportAvoidsIgnored(cfg: Config, st: State, input: ScanInput, timestamp: string)
    ensures var c := RunOnce(cfg, st, input, ReportAt(timestamp));
      && (forall m :: m in BuildReport(c.current, timestamp).macs ==> m !in cfg.ignored)
      && (forall n :: n in c.notices && n.special ==>
            n.body == ReportBody(cfg, BuildReport(c.current, timestamp)))
  {
  }

  /**
   * The default mode sends the startup report at most once, from its first
   * cycle, and that report lists the first scan; the loop sends none.
   */
  lemma ReportOnlyAtStart(cfg: Config, first: ScanInput, timestamp: string, rest: seq<ScanInput>)
    ensures var cycles := StartMonitoring(cfg, first, timestamp, rest);
      forall i, n :: 0 <= i < |cycles| && n in cycles[i].notices && n.special ==>
        i == 0 && InitialReport(cfg, cycles[0].current, timestamp) == Some(n)
  {
    var cycles := StartMonitoring(cfg, first, timestamp, rest);
    RunSendsNoReport(cfg, cycles[0].next, rest);
    forall i, n | 0 <= i < |cycles| && n in cycles[i].notices && n.special
      ensures i == 0 && InitialReport(cfg, cycles[0].current, timestamp) == Some(n)
    {
      if i > 0 {
        assert false;
      }
    }
  }

  /** The first cycle of the default mode: a baseline, at most the report, nothing ignored. */
  lemma FirstCycleAvoidsIgnored(cfg: Config, first: ScanInput, timestamp: string)
    ensures var start := RunOnce(cfg, Initial, first, ReportAt(timestamp));
      && start.next.previous !! cfg.ignored
      && start.events == []
      && (forall n :: n in start.notices ==> n.special)
      && (forall m :: m in BuildReport(start.current, timestamp).macs ==> m !in cfg.ignored)
  {
  }

  /**
   * In the default mode no cycle's state, event or device notice mentions an
   * ignored address, and the startup report lists none.
   */
  lemma StartMonitoringAvoidsIgnored(cfg: Config, first: ScanInput, timestamp: string, rest: seq<ScanInput>)
    ensures var cycles := StartMonitoring(cfg, first, timestamp, rest);
      && (forall m :: m in BuildReport(cycles[0].current, timestamp).macs ==> m !in cfg.ignored)
      && (forall i :: 0 <= i < |cycles| ==> cycles[i].next.previous !! cfg.ignored)
      && (forall i, e :: 0 <= i < |cycles| && e in cycles[i].events ==> e.mac !in cfg.ignored)
      && (forall i, n :: 0 <= i < |cycles| && n in cycles[i].notices && !n.special ==> n.mac !in cfg.ignored)
  {
    var cycles := StartMonitoring(cfg, first, timestamp, rest);
    var start := cycles[0];
    var loop := Run(cfg, start.next, rest);
    FirstCycleAvoidsIgnored(cfg, first, timestamp);
    RunNeverMentionsIgnored(cfg, start.next, rest);
    forall i | 0 <= i < |cycles|
      ensures cycles[i].next.previous !! cfg.ignored
      ensures forall e :: e in cycles[i].events ==> e.mac !in cfg.ignored
      ensures forall n :: n in cycles[i].notices && !n.special ==> n.mac !in cfg.ignored
    {
      if i > 0 {
        assert cycles[i] == loop[i - 1];
      }
    }
  }

  const Phone: string := "AA:BB:CC:DD:EE:FF"

  /** A registry that knows one phone and sends notifications. */
  const PhoneConfig: Config := Config(map[Phone := "Phone"], {}, map[], "key")

  /** A known phone seen at startup and then gone: a baseline, then one leave notice naming it. */
  lemma PhoneLeavesScenario()
    ensures Step(PhoneConfig, Initial, {Phone}, NoReport).events == []
    ensures Step(PhoneConfig, Initial, {Phone}, NoReport).notices == []
    ensures Step(PhoneConfig, State({Phone}), {}, NoReport).events == [Left(Phone)]
    ensures Step(PhoneConfig, State({Phone}), {}, NoReport).notices ==
      [Notice(LeaveTitle, "Phone" + " (" + Phone + ")" + " 已断开网络", Phone, false)]
    ensures Step(PhoneConfig, State({Phone}), {}, NoReport).next == Initial
  {
  }
}

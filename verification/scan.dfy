/**
 * The address source: the per-subnet runs of the scanning tool, the fallback
 * to the system ARP table, and the ignore filter. Running the tools is outside
 * the model; what a run produced is an input.
 */
module Scan {
  import opened Wrappers
  import opened MacAddress
  import opened Text

  /** What one run of an external tool produced, as the monitor sees it. */
  datatype ToolRun =
    | Exited(code: int, stdout: string)  // the tool ran to completion with this exit code
    | NotInstalled                       // the executable could not be found
    | TimedOut                           // the run exceeded its time limit
    | Crashed                            // any other failure while starting or running it

  /** One scan's worth of tool runs: one per configured subnet, then the ARP table listing. */
  datatype ScanInput = ScanInput(subnetRuns: seq<ToolRun>, arpTableRun: ToolRun)

  /** Only a run that exited with code 0 has its output parsed. */
  predicate Succeeded(run: ToolRun) {
    run.Exited? && run.code == 0
  }

  /** The addresses found in a tool's standard output, one per line at most. */
  function ParseToolOutput(stdout: string): (r: set<string>)
    ensures forall m :: m in r <==> Prints(stdout, m)
  {
    ExtractAll(SplitLines(stdout))
  }

  /** Some line of the output yields the address `m`. */
  predicate Prints(stdout: string, m: string) {
    var lines := SplitLines(stdout);
    exists i :: 0 <= i < |lines| && ExtractMac(lines[i]) == Some(m)
  }

  /** No run before index `i` found the tool missing (which ends the loop over subnets). */
  predicate ToolPresentBefore(runs: seq<ToolRun>, i: int) {
    forall j :: 0 <= j < i && j < |runs| ==> !runs[j].NotInstalled?
  }

  /** The run at index `i` is reached by the subnet loop, succeeds and prints `m`. */
  predicate Contributes(runs: seq<ToolRun>, i: int, m: string) {
    0 <= i < |runs| && ToolPresentBefore(runs, i) && Succeeded(runs[i])
    && m in ParseToolOutput(runs[i].stdout)
  }

  /** How the contributions of a run list relate to those of its tail. */
  lemma ContributesAfterFirst(runs: seq<ToolRun>)
    requires |runs| > 0
    ensures forall m :: Contributes(runs, 0, m) <==>
      Succeeded(runs[0]) && m in ParseToolOutput(runs[0].stdout)
    ensures forall i, m :: 0 < i && Contributes(runs, i, m) ==>
      !runs[0].NotInstalled? && Contributes(runs[1..], i - 1, m)
    ensures forall i, m :: Contributes(runs[1..], i, m) && !runs[0].NotInstalled? ==>
      Contributes(runs, i + 1, m)
  {
    var tail := runs[1..];
    assert forall i :: 0 <= i < |tail| ==> tail[i] == runs[i + 1];
    assert forall i :: 0 <= i < |tail| ==>
      (ToolPresentBefore(tail, i) && !runs[0].NotInstalled? <==> ToolPresentBefore(runs, i + 1));
  }

  /**
   * The addresses the subnet loop collects: the output of every successful run
   * up to the first run that found the tool missing. Failed, timed-out and
   * crashed runs contribute nothing but do not stop the loop.
   */
  function SubnetScan(runs: seq<ToolRun>): (r: set<string>)
    ensures forall m :: m in r ==> IsCanonical(m)
    ensures forall m :: m in r <==> exists i :: Contributes(runs, i, m)
  {
    if |runs| == 0 then {}
    else
      var tail := runs[1..];
      ContributesAfterFirst(runs);
      match runs[0]
      case NotInstalled => {}
      case Exited(code, stdout) =>
        if code == 0 then ParseToolOutput(stdout) + SubnetScan(tail) else SubnetScan(tail)
      case _ => SubnetScan(tail)
  }

  /** The ARP table listing contributes its addresses only when it exited with code 0. */
  function ArpTableScan(run: ToolRun): (r: set<string>)
    ensures forall m :: m in r ==> IsCanonical(m)
    ensures !Succeeded(run) ==> r == {}
    ensures forall m :: m in r <==> Succeeded(run) && Prints(run.stdout, m)
  {
    if Succeeded(run) then ParseToolOutput(run.stdout) else {}
  }

  /** The configured ignore set removed from a scan result. */
  function FilterIgnored(raw: set<string>, ignored: set<string>): (r: set<string>)
    ensures r <= raw
    ensures r !! ignored
    ensures forall m :: m in raw && m !in ignored ==> m in r
  {
    set m | m in raw && m !in ignored
  }

  /**
   * One complete scan: the subnet loop, the ARP table only when the subnet loop
   * found nothing at all (before filtering), then the ignore filter.
   */
  function ArpScan(input: ScanInput, ignored: set<string>): (r: set<string>)
    ensures forall m :: m in r ==> IsCanonical(m)
    ensures r !! ignored
    ensures forall m :: m in r <==>
      m !in ignored &&
      (m in SubnetScan(input.subnetRuns) ||
       (SubnetScan(input.subnetRuns) == {} && m in ArpTableScan(input.arpTableRun)))
  {
    var found := SubnetScan(input.subnetRuns);
    FilterIgnored(if found == {} then ArpTableScan(input.arpTableRun) else found, ignored)
  }

  /** Once the tool is found missing, the later subnets are not scanned. */
  lemma {:induction false} MissingToolEndsSubnetLoop(runs: seq<ToolRun>, k: nat)
    requires k < |runs| && runs[k].NotInstalled?
    ensures SubnetScan(runs) == SubnetScan(runs[..k])
  {
    if k > 0 {
      MissingToolEndsSubnetLoop(runs[1..], k - 1);
      assert runs[1..][..k - 1] == runs[..k][1..];
    } else {
      assert runs[..k] == [];
    }
  }

  /** When the subnet loop found any address, the ARP table run does not matter. */
  lemma ArpTableUnusedWhenSubnetsFound(runs: seq<ToolRun>, arp1: ToolRun, arp2: ToolRun, ignored: set<string>)
    ensures SubnetScan(runs) != {} ==>
      ArpScan(ScanInput(runs, arp1), ignored) == ArpScan(ScanInput(runs, arp2), ignored)
  {
  }

  /**
   * The fallback is decided before filtering: subnets that only showed ignored
   * devices give an empty scan even if the ARP table lists other devices.
   */
  lemma IgnoredOnlyScanSkipsArpTable(input: ScanInput, ignored: set<string>)
    ensures SubnetScan(input.subnetRuns) != {} && SubnetScan(input.subnetRuns) <= ignored ==>
      ArpScan(input, ignored) == {}
  {
  }

  /**
   * Only canonical entries of the ignore set can ever match: an entry written
   * in lower case or with '-' never filters anything.
   */
  lemma NonCanonicalIgnoreEntriesAreInert(input: ScanInput, ignored: set<string>)
    ensures ArpScan(input, ignored) == ArpScan(input, set x | x in ignored && IsCanonical(x))
  {
  }

  /** The broadcast address on the ignore list is dropped; the other device stays. */
  lemma BroadcastIgnoredScenario()
    ensures FilterIgnored({"FF:FF:FF:FF:FF:FF", "11:22:33:44:55:66"}, {"FF:FF:FF:FF:FF:FF"})
         == {"11:22:33:44:55:66"}
  {
  }
}

/**
 * The presence tracker: the previous scan's addresses, and the join and leave
 * events a new scan produces against them.
 */
module Presence {
  import opened StringOrder

  /** A device event; the startup report is built separately, from the whole scan. */
  datatype Event = Joined(mac: string) | Left(mac: string)

  /** What the tracker keeps between cycles: the addresses seen by the last scan. */
  datatype State = State(previous: set<string>)

  /** The tracker before any scan. */
  const Initial: State := State({})

  datatype Changes = Changes(events: seq<Event>, next: State)

  /** One event per address of `macs`, in that order: joins when `joined`, leaves otherwise. */
  function Announce(macs: seq<string>, joined: bool): (r: seq<Event>)
    ensures |r| == |macs|
    ensures forall i :: 0 <= i < |r| ==> r[i].mac == macs[i] && r[i].Joined? == joined
    ensures forall e :: e in r <==> e.mac in macs && e.Joined? == joined
  {
    var r := seq(|macs|, i requires 0 <= i < |macs| => if joined then Joined(macs[i]) else Left(macs[i]));
    forall e: Event | e.mac in macs && e.Joined? == joined
      ensures e in r
    {
      var i :| 0 <= i < |macs| && macs[i] == e.mac;
      assert r[i] == e;
    }
    r
  }

  /** Joins of distinct addresses followed by leaves of distinct addresses repeat no event. */
  lemma JoinsThenLeaves(joined: seq<string>, left: seq<string>)
    requires forall i, j :: 0 <= i < j < |joined| ==> joined[i] != joined[j]
    requires forall i, j :: 0 <= i < j < |left| ==> left[i] != left[j]
    ensures var events := Announce(joined, true) + Announce(left, false);
      && (forall i, j :: 0 <= i < j < |events| ==> events[i] != events[j])
      && (forall i, j :: 0 <= i < j < |events| && events[j].Joined? ==> events[i].Joined?)
  {
    var joins := Announce(joined, true);
    var events := joins + Announce(left, false);
    forall i, j | 0 <= i < j < |events|
      ensures events[i] != events[j]
      ensures events[j].Joined? ==> events[i].Joined?
    {
      if j < |joins| {
        assert events[i].mac == joined[i] && events[j].mac == joined[j];
      } else if i >= |joins| {
        assert events[i].mac == left[i - |joins|] && events[j].mac == left[j - |joins|];
      }
    }
  }

  /**
   * The events of one steady-state cycle, joins first, then leaves, and the new
   * state. The source walks each set in hash order; here each group is walked in
   * ascending address order. No stated property depends on that order.
   */
  function DetectChanges(st: State, current: set<string>): (r: Changes)
    ensures r.next == State(current)
    ensures forall m :: Joined(m) in r.events <==> m in current && m !in st.previous
    ensures forall m :: Left(m) in r.events <==> m in st.previous && m !in current
    ensures |r.events| == |current - st.previous| + |st.previous - current|
    ensures forall i, j :: 0 <= i < j < |r.events| ==> r.events[i] != r.events[j]
    ensures forall i, j :: 0 <= i < j < |r.events| && r.events[j].Joined? ==> r.events[i].Joined?
  {
    var joined := SortedSet(current - st.previous);
    var left := SortedSet(st.previous - current);
    var joins := Announce(joined, true);
    var leaves := Announce(left, false);
    JoinsThenLeaves(joined, left);
    Changes(joins + leaves, State(current))
  }

  /** In a sequence without repeats every element occurs exactly once. */
  lemma {:induction false} DistinctOccursOnce<T>(s: seq<T>, x: T)
    requires forall i, j :: 0 <= i < j < |s| ==> s[i] != s[j]
    ensures multiset(s)[x] == if x in s then 1 else 0
  {
    if |s| > 0 {
      var front := s[..|s| - 1];
      assert s == front + [s[|s| - 1]];
      DistinctOccursOnce(front, x);
      if x == s[|s| - 1] {
        assert x !in front;
      }
    }
  }

  /** Exactly one join event per new address and one leave event per departed address. */
  lemma OneEventPerChangedAddress(st: State, current: set<string>, m: string)
    ensures multiset(DetectChanges(st, current).events)[Joined(m)] ==
      if m in current - st.previous then 1 else 0
    ensures multiset(DetectChanges(st, current).events)[Left(m)] ==
      if m in st.previous - current then 1 else 0
  {
    var events := DetectChanges(st, current).events;
    DistinctOccursOnce(events, Joined(m));
    DistinctOccursOnce(events, Left(m));
  }

  /** No address both joins and leaves in the same cycle. */
  lemma JoinsAndLeavesDisjoint(st: State, current: set<string>, m: string)
    ensures !(Joined(m) in DetectChanges(st, current).events && Left(m) in DetectChanges(st, current).events)
  {
  }

  /** A scan equal to the previous one produces no events and leaves the state as it was. */
  lemma UnchangedScanIsQuiet(st: State)
    ensures DetectChanges(st, st.previous) == Changes([], st)
  {
  }
}

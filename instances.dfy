/** Observed state: pods and events as the cluster reports them, the
    classification of one pod into an instance state, and the instance list
    that GetInstances builds from the pods of one LRP. */
module Instances {
  import opened Opi
  import Eirini
  import StatefulSets

  datatype PodPhase = PodPending | PodRunning | PodSucceeded | PodFailed | PodUnknown

  /** A container's state: Go's three optional sub-states, each present or not. */
  datatype ContainerState = ContainerState(running: bool, waiting: bool, terminated: bool)

  datatype ContainerStatus = ContainerStatus(state: ContainerState, ready: bool)

  /** A pod; `startTime` is in whole seconds since the epoch, None until the
      runtime records it. */
  datatype Pod = Pod(
    name: string,
    labels: map<string, string>,
    startTime: Option<int>,
    phase: PodPhase,
    containerStatuses: seq<ContainerStatus>)

  /** A cluster event about the object named `involvedObject`. */
  datatype Event = Event(reason: string, message: string, involvedObject: string)

  datatype Status = Status(state: InstanceState, placementError: string)

  const KillingReason := "Killing"
  const FailedSchedulingReason := "FailedScheduling"
  const InsufficientMemoryMarker := "Insufficient memory"
  const InsufficientMemoryError := "Insufficient resources: memory"

  // ------------------------------------------------------------ predicates

  /** Does `sub` occur in `s` at position `i`? */
  predicate OccursAt(s: string, sub: string, i: nat) {
    i + |sub| <= |s| && s[i..i + |sub|] == sub
  }

  /** Does `sub` occur in `s`? */
  predicate Contains(s: string, sub: string) {
    exists i: nat :: i <= |s| && OccursAt(s, sub, i)
  }

  /** The pod was killed: an event with reason "Killing" names it. */
  predicate IsStopped(pod: Pod, events: seq<Event>) {
    exists i :: 0 <= i < |events| && events[i].involvedObject == pod.name && events[i].reason == KillingReason
  }

  /** Scheduling the pod failed for lack of memory. */
  predicate HasInsufficientMemory(pod: Pod, events: seq<Event>) {
    exists i :: 0 <= i < |events| && events[i].involvedObject == pod.name &&
      events[i].reason == FailedSchedulingReason && Contains(events[i].message, InsufficientMemoryMarker)
  }

  // --------------------------------------------------------- classification

  /** The state of a pod that is not stopped. The first matching rule wins:
      insufficient memory; pending, or running but not ready; phase unknown
      or no container status yet; terminated or waiting; running and ready;
      anything else is unknown. */
  function InstanceStatus(pod: Pod, events: seq<Event>): (r: Status)
    ensures r.state == Unclaimed <==> HasInsufficientMemory(pod, events)
    ensures r.placementError != "" <==> r.state == Unclaimed
    ensures r.state == Unclaimed ==> r.placementError == InsufficientMemoryError
    ensures !HasInsufficientMemory(pod, events) ==>
      var c := pod.containerStatuses;
      var claimed := pod.phase == PodPending || (|c| > 0 && c[0].state.running && !c[0].ready);
      var observed := pod.phase != PodUnknown && |c| > 0;
      var failed := observed && (c[0].state.terminated || c[0].state.waiting);
      var ready := observed && c[0].state.running && c[0].ready;
      (r.state == Claimed <==> claimed) &&
      (r.state == Crashed <==> !claimed && failed) &&
      (r.state == Running <==> !claimed && !failed && ready) &&
      (r.state == Unknown <==> !claimed && !failed && !ready)
  {
    var cs := pod.containerStatuses;
    if HasInsufficientMemory(pod, events) then Status(Unclaimed, InsufficientMemoryError)
    else if pod.phase == PodPending || (|cs| > 0 && cs[0].state.running && !cs[0].ready) then Status(Claimed, "")
    else if pod.phase == PodUnknown || |cs| == 0 then Status(Unknown, "")
    else if cs[0].state.terminated || cs[0].state.waiting then Status(Crashed, "")
    else if cs[0].state.running && cs[0].ready then Status(Running, "")
    else Status(Unknown, "")
  }

  /** Nanoseconds since the epoch at which the pod started, 0 if not yet. */
  function Since(pod: Pod): (r: int)
    ensures r % 1_000_000_000 == 0
    ensures pod.startTime.Some? ==> r / 1_000_000_000 == pod.startTime.value
    ensures r == 0 <==> pod.startTime.None? || pod.startTime.value == 0
  {
    match pod.startTime
    case None => 0
    case Some(seconds) => seconds * 1_000_000_000
  }

  // ----------------------------------------------------------- pod indices

  /** The position of the last `c` in `s`. */
  function LastIndexOf(s: string, c: char): (r: Option<nat>)
    ensures r.Some? ==> r.value < |s| && s[r.value] == c && forall j :: r.value < j < |s| ==> s[j] != c
    ensures r.None? ==> forall j :: 0 <= j < |s| ==> s[j] != c
  {
    if s == [] then None
    else if s[|s| - 1] == c then Some(|s| - 1)
    else LastIndexOf(s[..|s| - 1], c)
  }

  function DigitValue(c: char): nat
    requires Eirini.IsDigit(c)
  {
    c as int - '0' as int
  }

  /** The value of a non-empty string of decimal digits. */
  function ParseDecimal(s: string): (r: Option<nat>)
    ensures r.Some? <==> s != [] && forall i :: 0 <= i < |s| ==> Eirini.IsDigit(s[i])
  {
    if s == [] then None
    else if !Eirini.IsDigit(s[|s| - 1]) then None
    else if |s| == 1 then Some(DigitValue(s[0]))
    else match ParseDecimal(s[..|s| - 1])
      case None => None
      case Some(v) => Some(10 * v + DigitValue(s[|s| - 1]))
  }

  /** The instance index of a pod: the number after the last '-' of its name. */
  function ParseIndex(name: string): (r: Option<nat>)
    ensures r.Some? <==>
      exists k :: 0 <= k < |name| - 1 && name[k] == '-' &&
        forall j :: k < j < |name| ==> Eirini.IsDigit(name[j])
  {
    match LastIndexOf(name, '-')
    case None => None
    case Some(k) => ParseDecimal(name[k + 1..])
  }

  /** The decimal digits of a natural number. */
  function DecimalString(n: nat): (s: string)
    ensures |s| > 0 && forall i :: 0 <= i < |s| ==> Eirini.IsDigit(s[i])
  {
    if n < 10 then [('0' as int + n) as char]
    else DecimalString(n / 10) + [('0' as int + n % 10) as char]
  }

  lemma {:induction false} ParseDecimalString(n: nat)
    ensures ParseDecimal(DecimalString(n)) == Some(n)
  {
    if n >= 10 {
      var s := DecimalString(n);
      ParseDecimalString(n / 10);
      assert s[..|s| - 1] == DecimalString(n / 10);
    }
  }

  /** A pod named `<prefix>-<n>` has index n, whatever the prefix. */
  lemma ParseIndexOfName(prefix: string, n: nat)
    ensures ParseIndex(prefix + "-" + DecimalString(n)) == Some(n)
  {
    var digits := DecimalString(n);
    LastIndexOfSuffix(prefix, '-', digits);
    assert prefix + "-" + digits == prefix + ['-'] + digits;
    assert (prefix + "-" + digits)[|prefix| + 1..] == digits;
    ParseDecimalString(n);
  }

  /** The last `c` of `prefix + [c] + tail` is the one before `tail` when
      `tail` has none. */
  lemma {:induction false} LastIndexOfSuffix(prefix: string, c: char, tail: string)
    requires forall j :: 0 <= j < |tail| ==> tail[j] != c
    ensures LastIndexOf(prefix + [c] + tail, c) == Some(|prefix|)
  {
    var s := prefix + [c] + tail;
    if tail != [] {
      var shorter := tail[..|tail| - 1];
      assert s[..|s| - 1] == prefix + [c] + shorter;
      assert s[|s| - 1] == tail[|tail| - 1];
      LastIndexOfSuffix(prefix, c, shorter);
    }
  }

  // ----------------------------------------------------- the instance list

  /** The pods the label selector guid=…,version=… returns, in order. */
  function SelectPods(pods: seq<Pod>, id: LRPIdentifier): (r: seq<Pod>)
    ensures |r| <= |pods|
    ensures forall p :: p in r <==> p in pods && StatefulSets.MatchesId(p.labels, id)
  {
    if pods == [] then []
    else (if StatefulSets.MatchesId(pods[0].labels, id) then [pods[0]] else []) + SelectPods(pods[1..], id)
  }

  /** The pods that are reported: those not stopped. */
  function Live(pods: seq<Pod>, events: seq<Event>): seq<Pod> {
    if pods == [] then []
    else (if IsStopped(pods[0], events) then [] else [pods[0]]) + Live(pods[1..], events)
  }

  function ToInstance(pod: Pod, index: nat, events: seq<Event>): Instance {
    var st := InstanceStatus(pod, events);
    Instance(index, Since(pod), st.state, st.placementError)
  }

  /** The instance list for pods, in pod order: stopped pods are left out; a
      reported pod whose name has no index makes the whole call fail. */
  function InstancesOf(pods: seq<Pod>, events: seq<Event>): (r: Result<seq<Instance>>)
    ensures r.Ok? ==> |r.value| <= |pods|
    ensures r.Err? ==> r.error.InvalidPodName?
    ensures r.Err? ==>
      exists j :: 0 <= j < |pods| && pods[j].name == r.error.name &&
        !IsStopped(pods[j], events) && ParseIndex(pods[j].name).None?
  {
    if pods == [] then Ok([])
    else if IsStopped(pods[0], events) then InstancesOf(pods[1..], events)
    else match ParseIndex(pods[0].name)
      case None => Err(InvalidPodName(pods[0].name))
      case Some(index) =>
        match InstancesOf(pods[1..], events)
        case Err(e) => Err(e)
        case Ok(rest) => Ok([ToInstance(pods[0], index, events)] + rest)
  }

  /** Every pod of `live` has an index in its name. */
  predicate AllIndexed(live: seq<Pod>) {
    forall j :: 0 <= j < |live| ==> ParseIndex(live[j].name).Some?
  }

  /** `r` holds one instance per pod of `live`, in order, with that pod's
      index, start time and status. */
  predicate Reports(r: seq<Instance>, live: seq<Pod>, events: seq<Event>) {
    |r| == |live| &&
    forall j :: 0 <= j < |r| ==>
      Some(r[j].index) == ParseIndex(live[j].name) && r[j].since == Since(live[j]) &&
      Status(r[j].state, r[j].placementError) == InstanceStatus(live[j], events)
  }

  /** The list succeeds exactly when every reported pod has an index. */
  lemma {:induction false} InstancesOkIff(pods: seq<Pod>, events: seq<Event>)
    ensures InstancesOf(pods, events).Ok? <==> AllIndexed(Live(pods, events))
  {
    if pods != [] {
      InstancesOkIff(pods[1..], events);
      var rest := Live(pods[1..], events);
      if !IsStopped(pods[0], events) {
        assert Live(pods, events) == [pods[0]] + rest;
        IndexedCons(pods[0], rest);
      } else {
        assert Live(pods, events) == [] + rest == rest;
      }
    }
  }

  lemma IndexedCons(p: Pod, rest: seq<Pod>)
    ensures AllIndexed([p] + rest) <==> ParseIndex(p.name).Some? && AllIndexed(rest)
  {
    var live := [p] + rest;
    assert live[0] == p;
    assert forall j :: 0 <= j < |rest| ==> live[j + 1] == rest[j];
  }

  /** A successful list holds one instance per reported pod, in order, with
      that pod's index, start time and status. */
  lemma {:induction false} InstancesReportLive(pods: seq<Pod>, events: seq<Event>)
    ensures InstancesOf(pods, events).Ok? ==>
      Reports(InstancesOf(pods, events).value, Live(pods, events), events)
  {
    if pods != [] {
      InstancesReportLive(pods[1..], events);
      var tail, rest := InstancesOf(pods[1..], events), Live(pods[1..], events);
      if IsStopped(pods[0], events) {
        assert Live(pods, events) == [] + rest == rest;
      } else if InstancesOf(pods, events).Ok? {
        var index := ParseIndex(pods[0].name).value;
        var x := ToInstance(pods[0], index, events);
        assert tail.Ok? && InstancesOf(pods, events) == Ok([x] + tail.value);
        assert Live(pods, events) == [pods[0]] + rest;
        ReportsCons(x, tail.value, pods[0], rest, events);
      }
    }
  }

  lemma ReportsCons(x: Instance, r: seq<Instance>, p: Pod, live: seq<Pod>, events: seq<Event>)
    requires Reports(r, live, events)
    requires Some(x.index) == ParseIndex(p.name) && x.since == Since(p)
    requires Status(x.state, x.placementError) == InstanceStatus(p, events)
    ensures Reports([x] + r, [p] + live, events)
  {
    var r', live' := [x] + r, [p] + live;
    assert forall j :: 0 < j < |r'| ==> r'[j] == r[j - 1] && live'[j] == live[j - 1];
  }

  /** Without any event about them, every pod is reported. */
  lemma {:induction false} NoEventsKeepsAll(pods: seq<Pod>)
    ensures Live(pods, []) == pods
  {
    if pods != [] {
      NoEventsKeepsAll(pods[1..]);
    }
  }

  /** When every pod has been killed, the list is empty. */
  lemma {:induction false} AllKilledIsEmpty(pods: seq<Pod>, events: seq<Event>)
    requires forall j :: 0 <= j < |pods| ==> IsStopped(pods[j], events)
    ensures InstancesOf(pods, events) == Ok([])
  {
    if pods != [] {
      assert IsStopped(pods[0], events);
      assert forall j :: 0 <= j < |pods[1..]| ==> pods[1..][j] == pods[j + 1];
      AllKilledIsEmpty(pods[1..], events);
    }
  }

  // ------------------------------------------------- the tests' scenarios

  /** A pod as the tests build it: running, one running and ready container,
      labelled with guid_1234 and version_1234. */
  function TestPod(lrpName: string, index: nat, startTime: Option<int>): (p: Pod)
    ensures p.name == lrpName + "-" + DecimalString(index) && ParseIndex(p.name) == Some(index)
    ensures StatefulSets.MatchesId(p.labels, LRPIdentifier("guid_1234", "version_1234"))
    ensures InstanceStatus(p, []) == Status(Running, "")
  {
    ParseIndexOfName(lrpName, index);
    Pod(lrpName + "-" + DecimalString(index),
        map[StatefulSets.LabelGUID := "guid_1234", StatefulSets.LabelVersion := "version_1234"],
        startTime, PodRunning,
        [ContainerStatus(ContainerState(true, false, false), true)])
  }

  /** Two running, ready pods started at 123 s and 456 s report RUNNING with
      their start times in nanoseconds. */
  lemma RunningScenario()
    ensures InstancesOf([TestPod("odin", 0, Some(123)), TestPod("odin", 1, Some(456))], []) ==
      Ok([Instance(0, 123000000000, Running, ""), Instance(1, 456000000000, Running, "")])
  {
    TwoPodScenario("odin", Some(123), Some(456));
  }

  /** A pod without a start time reports 0 as its start. */
  lemma NotStartedScenario()
    ensures InstancesOf([TestPod("mimir", 0, None), TestPod("mimir", 1, Some(456))], []) ==
      Ok([Instance(0, 0, Running, ""), Instance(1, 456000000000, Running, "")])
  {
    TwoPodScenario("mimir", None, Some(456));
  }

  /** Two test pods without events give two RUNNING instances, indexed 0 and 1. */
  lemma TwoPodScenario(lrpName: string, start0: Option<int>, start1: Option<int>)
    ensures var p0, p1 := TestPod(lrpName, 0, start0), TestPod(lrpName, 1, start1);
      InstancesOf([p0, p1], []) ==
        Ok([Instance(0, Since(p0), Running, ""), Instance(1, Since(p1), Running, "")])
  {
    var p0, p1 := TestPod(lrpName, 0, start0), TestPod(lrpName, 1, start1);
    ParseIndexOfName(lrpName, 0);
    ParseIndexOfName(lrpName, 1);
    assert InstanceStatus(p0, []) == Status(Running, "");
    assert InstanceStatus(p1, []) == Status(Running, "");
    assert !IsStopped(p0, []) && !IsStopped(p1, []);
    assert ParseIndex(p1.name) == Some(1);
    assert InstancesOf([p1], []) == Ok([ToInstance(p1, 1, [])]) by {
      assert [p1][1..] == [];
      assert InstancesOf([p1][1..], []) == Ok([]);
      var one: seq<Instance> := [ToInstance(p1, 1, [])];
      assert one + [] == one;
    }
    assert [p0, p1][1..] == [p1];
    assert ParseIndex(p0.name) == Some(0);
    var i0, i1 := ToInstance(p0, 0, []), ToInstance(p1, 1, []);
    assert i0 == Instance(0, Since(p0), Running, "") && i1 == Instance(1, Since(p1), Running, "");
    assert [i0] + [i1] == [i0, i1];
  }

  /** Killing events for both pods leave nothing to report. */
  lemma KilledScenario()
    ensures var pods := [TestPod("odin", 0, Some(123)), TestPod("odin", 1, Some(456))];
      InstancesOf(pods, [Event(KillingReason, "", "odin-0"), Event(KillingReason, "", "odin-1")]) == Ok([])
  {
    var pods := [TestPod("odin", 0, Some(123)), TestPod("odin", 1, Some(456))];
    var events := [Event(KillingReason, "", "odin-0"), Event(KillingReason, "", "odin-1")];
    assert DecimalString(0) == "0" && DecimalString(1) == "1";
    assert pods[0].name == "odin-0" && pods[1].name == "odin-1";
    assert IsStopped(pods[0], events) by { assert events[0].involvedObject == pods[0].name; }
    assert IsStopped(pods[1], events) by { assert events[1].involvedObject == pods[1].name; }
    AllKilledIsEmpty(pods, events);
  }

  /** A scheduling failure mentioning insufficient memory gives UNCLAIMED with
      the normalised placement error. */
  lemma InsufficientMemoryScenario()
    ensures var pod := TestPod("odin", 0, Some(123));
      InstanceStatus(pod, [Event(FailedSchedulingReason, "Some string including Insufficient memory", "odin-0")]) ==
        Status(Unclaimed, InsufficientMemoryError)
  {
    var pod := TestPod("odin", 0, Some(123));
    var events := [Event(FailedSchedulingReason, "Some string including Insufficient memory", "odin-0")];
    MemoryMessageMatches();
    assert DecimalString(0) == "0";
    assert pod.name == "odin-0";
    assert events[0].involvedObject == pod.name && events[0].reason == FailedSchedulingReason;
    assert HasInsufficientMemory(pod, events);
  }

  /** The tests' scheduling message mentions insufficient memory. */
  lemma MemoryMessageMatches()
    ensures Contains("Some string including Insufficient memory", InsufficientMemoryMarker)
  {
    var msg := "Some string including Insufficient memory";
    var before := "Some string including ";
    assert msg == before + InsufficientMemoryMarker;
    assert |before| == 22 && |msg| == 22 + |InsufficientMemoryMarker|;
    assert msg[22..] == InsufficientMemoryMarker;
    assert OccursAt(msg, InsufficientMemoryMarker, 22);
  }

  /** The remaining rows of the tests' table: pending or running-not-ready is
      CLAIMED; terminated or waiting is CRASHED; phase unknown or no container
      status is UNKNOWN. */
  lemma StatusTableScenarios(pod: Pod)
    requires pod == TestPod("odin", 0, Some(123))
    ensures InstanceStatus(pod.(phase := PodPending), []).state == Claimed
    ensures InstanceStatus(pod.(containerStatuses := [ContainerStatus(ContainerState(true, false, false), false)]), []).state == Claimed
    ensures InstanceStatus(pod.(containerStatuses := [ContainerStatus(ContainerState(false, false, true), true)]), []).state == Crashed
    ensures InstanceStatus(pod.(containerStatuses := [ContainerStatus(ContainerState(false, true, false), true)]), []).state == Crashed
    ensures InstanceStatus(pod.(phase := PodUnknown), []).state == Unknown
    ensures InstanceStatus(pod.(containerStatuses := []), []).state == Unknown
    ensures InstanceStatus(pod, []).state == Running
  {
  }
}

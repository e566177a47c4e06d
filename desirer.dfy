/** The stateful-set desirer: it desires LRPs as workload records in a store
    (standing in for the cluster's stateful-set API), reads them back, updates
    and stops them, and reports the instances of an LRP from the pods and
    events the cluster holds.

    The store behaves like the fake clientset the tests use: records are keyed
    by name, a create with a taken name fails, an update replaces the record
    of the same name, a delete removes it, and a list with the selector
    guid=…,version=… returns the matching records in store order. */
module Desirer {
  import opened Opi
  import opened StatefulSets
  import opened Instances
  import Eirini
  import Naming

  // -------------------------------------------------------- record lookup

  /** Is record `i` one the selector guid=…,version=… returns? */
  predicate Matches(records: seq<StatefulSet>, id: LRPIdentifier, i: int) {
    0 <= i < |records| && MatchesId(records[i].labels, id)
  }

  /** The indices of the records the selector returns, in store order. */
  function MatchingIndices(records: seq<StatefulSet>, id: LRPIdentifier): (r: seq<nat>)
    ensures forall k :: 0 <= k < |r| ==> Matches(records, id, r[k])
    ensures forall i :: Matches(records, id, i) ==> i in r
    ensures forall a, b :: 0 <= a < b < |r| ==> r[a] < r[b]
    ensures forall k :: 0 <= k < |r| ==> r[k] < |records|
  {
    if records == [] then []
    else
      var last := |records| - 1;
      var rest := MatchingIndices(records[..last], id);
      assert forall i :: Matches(records[..last], id, i) <==> i < last && Matches(records, id, i);
      if MatchesId(records[last].labels, id) then rest + [last] else rest
  }

  /** The record a lookup by identifier acts on: none matching is NotFound,
      more than one is Ambiguous, exactly one is that record's index. */
  function Locate(records: seq<StatefulSet>, id: LRPIdentifier): (r: Result<nat>)
    ensures r.Ok? ==> Matches(records, id, r.value)
    ensures r.Err? ==> r.error == NotFound || r.error == Ambiguous
  {
    var m := MatchingIndices(records, id);
    if |m| == 0 then Err(NotFound)
    else if |m| == 1 then Ok(m[0])
    else Err(Ambiguous)
  }

  /** No index is selected exactly when no record matches; with two or more
      selected, the first two are different matching records. */
  lemma MatchCount(records: seq<StatefulSet>, id: LRPIdentifier)
    ensures var m := MatchingIndices(records, id);
      (|m| == 0 <==> forall i :: !Matches(records, id, i)) &&
      (|m| >= 2 ==> m[0] != m[1] && Matches(records, id, m[0]) && Matches(records, id, m[1]))
  {
    var m := MatchingIndices(records, id);
    if |m| > 0 {
      assert Matches(records, id, m[0]);
    }
    if |m| >= 2 {
      assert m[0] < m[1];
    }
  }

  /** NotFound exactly when no record matches. */
  lemma LocateNotFound(records: seq<StatefulSet>, id: LRPIdentifier)
    ensures Locate(records, id) == Err(NotFound) <==> forall i :: !Matches(records, id, i)
  {
    MatchCount(records, id);
  }

  /** A found record is the only match, and a record that is the only match
      is found. */
  lemma LocateUnique(records: seq<StatefulSet>, id: LRPIdentifier, i: int)
    ensures Locate(records, id) == Ok(i) <==>
      Matches(records, id, i) && forall j :: Matches(records, id, j) ==> j == i
  {
    MatchCount(records, id);
    var m := MatchingIndices(records, id);
    if Matches(records, id, i) && forall j :: Matches(records, id, j) ==> j == i {
      assert i in m;
    }
  }

  /** Ambiguous exactly when two different records match. */
  lemma LocateAmbiguous(records: seq<StatefulSet>, id: LRPIdentifier)
    ensures Locate(records, id) == Err(Ambiguous) <==>
      exists i, j :: i != j && Matches(records, id, i) && Matches(records, id, j)
  {
    MatchCount(records, id);
    var m := MatchingIndices(records, id);
    if exists i, j :: i != j && Matches(records, id, i) && Matches(records, id, j) {
      var i, j :| i != j && Matches(records, id, i) && Matches(records, id, j);
      assert i in m && j in m;
    }
  }

  // ------------------------------------------------------- store by name

  /** No two records share a name. */
  predicate DistinctNames(records: seq<StatefulSet>) {
    forall i, j :: 0 <= i < j < |records| ==> records[i].name != records[j].name
  }

  predicate NameTaken(records: seq<StatefulSet>, name: string) {
    exists i :: 0 <= i < |records| && records[i].name == name
  }

  /** The name Desire gives an LRP's record. */
  function RecordName(lrp: LRP, hash: string): string {
    Naming.StatefulSetName(lrp.appName, lrp.spaceName, lrp.id.guid, hash)
  }

  /** The store's update: the record of the same name is replaced. */
  function ReplaceByName(records: seq<StatefulSet>, s: StatefulSet): seq<StatefulSet> {
    seq(|records|, k requires 0 <= k < |records| => if records[k].name == s.name then s else records[k])
  }

  /** The store's delete: the record of that name is removed. */
  function RemoveByName(records: seq<StatefulSet>, name: string): seq<StatefulSet> {
    if records == [] then []
    else (if records[0].name == name then [] else [records[0]]) + RemoveByName(records[1..], name)
  }

  /** Update's change to a record: the replica count becomes the target count
      (as an int32), last_updated is copied from the LRP's metadata and
      "routes" is set to its application_uris. */
  function UpdatedRecord(s: StatefulSet, lrp: LRP): (r: StatefulSet)
    ensures r.name == s.name && r.labels == s.labels && r.selector == s.selector
    ensures r.template == s.template && r.podManagementPolicy == s.podManagementPolicy
    ensures r.replicas == ToInt32(lrp.targetInstances)
    ensures r.annotations.Keys == s.annotations.Keys + {LastUpdated, Eirini.RegisteredRoutes}
    ensures r.annotations[LastUpdated] == Lookup(lrp.metadata, LastUpdated)
    ensures r.annotations[Eirini.RegisteredRoutes] == Lookup(lrp.metadata, VcapAppUris)
    ensures forall k :: k in s.annotations && k != LastUpdated && k != Eirini.RegisteredRoutes ==>
      r.annotations[k] == s.annotations[k]
  {
    s.(replicas := ToInt32(lrp.targetInstances),
       annotations := s.annotations[LastUpdated := Lookup(lrp.metadata, LastUpdated)]
                                   [Eirini.RegisteredRoutes := Lookup(lrp.metadata, VcapAppUris)])
  }

  /** What List returns for a store: every record read back, in order. */
  function ListedLRPs(records: seq<StatefulSet>): seq<LRP>
    requires forall i :: 0 <= i < |records| ==> |records[i].template.containers| > 0
  {
    seq(|records|, i requires 0 <= i < |records| => FromRecord(records[i]))
  }

  /** The instance list `acc` followed by the result for the remaining pods. */
  function Prepend(acc: seq<Instance>, rest: Result<seq<Instance>>): Result<seq<Instance>> {
    match rest
    case Err(e) => Err(e)
    case Ok(tail) => Ok(acc + tail)
  }

  // ------------------------------------------------------- store lemmas

  lemma PrependNothing(rest: Result<seq<Instance>>)
    ensures Prepend([], rest) == rest
  {
    if rest.Ok? {
      assert [] + rest.value == rest.value;
    }
  }

  lemma PrependOne(acc: seq<Instance>, x: Instance, rest: Result<seq<Instance>>)
    ensures Prepend(acc, match rest case Err(e) => Err(e) case Ok(tail) => Ok([x] + tail)) ==
      Prepend(acc + [x], rest)
  {
    if rest.Ok? {
      assert acc + ([x] + rest.value) == (acc + [x]) + rest.value;
    }
  }

  /** With distinct names, replacing by the name of record i writes index i. */
  lemma ReplaceByNameAt(records: seq<StatefulSet>, i: nat, s: StatefulSet)
    requires DistinctNames(records) && i < |records| && s.name == records[i].name
    ensures ReplaceByName(records, s) == records[i := s]
  {
    forall k | 0 <= k < |records| && k != i ensures records[k].name != s.name {
      if k < i { assert records[k].name != records[i].name; }
      else { assert records[i].name != records[k].name; }
    }
  }

  /** With distinct names, deleting the name of record i removes index i. */
  lemma {:induction false} RemoveByNameAt(records: seq<StatefulSet>, i: nat)
    requires DistinctNames(records) && i < |records|
    ensures RemoveByName(records, records[i].name) == records[..i] + records[i + 1..]
  {
    var name := records[i].name;
    if i == 0 {
      RemoveAbsentName(records[1..], name);
    } else {
      assert records[0].name != name;
      assert records[1..][i - 1] == records[i];
      RemoveByNameAt(records[1..], i - 1);
      assert records[1..][..i - 1] == records[1..i];
      assert records[1..][i..] == records[i + 1..];
      assert records[..i] == [records[0]] + records[1..i];
    }
  }

  /** Removing a record keeps the names distinct and every record with a
      container. */
  lemma RemoveKeepsWellFormed(records: seq<StatefulSet>, i: nat)
    requires DistinctNames(records) && i < |records|
    requires forall k :: 0 <= k < |records| ==> |records[k].template.containers| > 0
    ensures var rest := records[..i] + records[i + 1..];
      DistinctNames(rest) && forall k :: 0 <= k < |rest| ==> |rest[k].template.containers| > 0
  {
    var rest := records[..i] + records[i + 1..];
    assert forall k :: 0 <= k < |rest| ==> rest[k] == records[if k < i then k else k + 1];
  }

  /** Deleting a name no record has changes nothing. */
  lemma {:induction false} RemoveAbsentName(records: seq<StatefulSet>, name: string)
    requires forall k :: 0 <= k < |records| ==> records[k].name != name
    ensures RemoveByName(records, name) == records
  {
    if records != [] {
      assert forall k :: 0 <= k < |records[1..]| ==> records[1..][k] == records[k + 1];
      RemoveAbsentName(records[1..], name);
      assert records == [records[0]] + records[1..];
    }
  }

  /** A record appended with the identifier's labels is found when no stored
      record carries them, and makes the lookup ambiguous when one does. */
  lemma AppendLocate(records: seq<StatefulSet>, s: StatefulSet, id: LRPIdentifier)
    requires MatchesId(s.labels, id)
    ensures Locate(records, id) == Err(NotFound) ==> Locate(records + [s], id) == Ok(|records|)
    ensures Locate(records, id).Ok? ==> Locate(records + [s], id) == Err(Ambiguous)
  {
    var grown := records + [s];
    assert Matches(grown, id, |records|);
    assert forall i :: 0 <= i < |records| ==> grown[i] == records[i];
    LocateNotFound(records, id);
    if Locate(records, id) == Err(NotFound) {
      LocateUnique(grown, id, |records|);
    }
    if Locate(records, id).Ok? {
      var i := Locate(records, id).value;
      assert Matches(grown, id, i);
      LocateAmbiguous(grown, id);
    }
  }

  /** Removing the one matching record leaves none: a second lookup is NotFound. */
  lemma RemovedIsGone(records: seq<StatefulSet>, id: LRPIdentifier)
    requires Locate(records, id).Ok?
    ensures var i := Locate(records, id).value;
      Locate(records[..i] + records[i + 1..], id) == Err(NotFound)
  {
    var i := Locate(records, id).value;
    LocateUnique(records, id, i);
    var rest := records[..i] + records[i + 1..];
    forall k | 0 <= k < |rest| ensures !Matches(rest, id, k) {
      if k < i {
        assert rest[k] == records[k];
        assert !Matches(records, id, k);
      } else {
        assert rest[k] == records[k + 1];
        assert !Matches(records, id, k + 1);
      }
    }
    LocateNotFound(rest, id);
  }

  /** A change that keeps the labels keeps what a lookup finds. */
  lemma LabelsKeepLocate(records: seq<StatefulSet>, i: nat, s: StatefulSet, id: LRPIdentifier)
    requires i < |records| && s.labels == records[i].labels
    ensures Locate(records[i := s], id) == Locate(records, id)
  {
    var changed := records[i := s];
    assert forall k :: Matches(changed, id, k) <==> Matches(records, id, k);
    LocateNotFound(records, id);
    LocateNotFound(changed, id);
    LocateAmbiguous(records, id);
    LocateAmbiguous(changed, id);
    if Locate(records, id).Ok? {
      var found := Locate(records, id).value;
      LocateUnique(records, id, found);
      LocateUnique(changed, id, found);
    }
  }

  /** Get after Update: the count is the new target (as an int32) and
      last_updated is the new one; everything else reads back as before (the
      routes annotation is not part of the LRP read back). */
  lemma GetAfterUpdate(s: StatefulSet, lrp: LRP)
    requires |s.template.containers| > 0
    ensures FromRecord(UpdatedRecord(s, lrp)) ==
      FromRecord(s).(targetInstances := ToInt32(lrp.targetInstances),
                     metadata := FromRecord(s).metadata[LastUpdated := Lookup(lrp.metadata, LastUpdated)])
    ensures UpdatedRecord(s, lrp).annotations[Eirini.RegisteredRoutes] == Lookup(lrp.metadata, VcapAppUris)
    ensures UpdatedRecord(s, lrp).name == s.name && UpdatedRecord(s, lrp).labels == s.labels &&
      UpdatedRecord(s, lrp).template == s.template
  {
    var u := UpdatedRecord(s, lrp);
    var before, after := FromRecord(s).metadata, FromRecord(u).metadata;
    assert Eirini.RegisteredRoutes !in MetadataKeys;
    assert after.Keys == MetadataKeys == before.Keys;
    forall k | k in MetadataKeys
      ensures after[k] == before[LastUpdated := Lookup(lrp.metadata, LastUpdated)][k]
    {
      assert k != Eirini.RegisteredRoutes;
    }
  }

  /** List over records translated from reconstructible LRPs returns exactly
      those LRPs, in store order. */
  lemma ListRoundTrip(lrps: seq<LRP>, rootfsVersion: string, hash: string, envKeys: seq<string>,
                      liveness: Probe, readiness: Probe)
    requires forall i :: 0 <= i < |lrps| ==> Reconstructible(lrps[i])
    ensures var records := seq(|lrps|, i requires 0 <= i < |lrps| =>
                                 Translate(lrps[i], rootfsVersion, hash, envKeys, liveness, readiness));
      ListedLRPs(records) == lrps
  {
    var records := seq(|lrps|, i requires 0 <= i < |lrps| =>
                         Translate(lrps[i], rootfsVersion, hash, envKeys, liveness, readiness));
    forall i | 0 <= i < |lrps| ensures FromRecord(records[i]) == lrps[i] {
      RoundTrip(lrps[i], rootfsVersion, hash, envKeys, liveness, readiness);
    }
  }

  // ------------------------------------------------------------ the desirer

  class StatefulSetDesirer {
    /** The stateful sets of the namespace, in creation order. */
    var statefulSets: seq<StatefulSet>
    /** The pods and events of the namespace. */
    var pods: seq<Pod>
    var events: seq<Event>
    /** Set when every list of stateful sets fails. */
    var listFails: bool
    /** How often each probe creator was called. */
    var livenessCalls: nat
    var readinessCalls: nat

    const rootfsVersion: string
    /** The injected hasher: the token it returns for an identifier. */
    const hasher: LRPIdentifier -> string
    /** What the two injected probe creators return. */
    const liveness: Probe
    const readiness: Probe

    /** Names are unique in the store, and every record has a container. */
    ghost predicate Valid()
      reads this
    {
      DistinctNames(statefulSets) &&
      forall i :: 0 <= i < |statefulSets| ==> |statefulSets[i].template.containers| > 0
    }

    constructor(rootfsVersion: string, hasher: LRPIdentifier -> string, liveness: Probe, readiness: Probe)
      ensures Valid()
      ensures statefulSets == [] && pods == [] && events == [] && !listFails
      ensures livenessCalls == 0 && readinessCalls == 0
      ensures this.rootfsVersion == rootfsVersion && this.hasher == hasher
      ensures this.liveness == liveness && this.readiness == readiness
    {
      this.rootfsVersion := rootfsVersion;
      this.hasher := hasher;
      this.liveness := liveness;
      this.readiness := readiness;
      statefulSets := [];
      pods := [];
      events := [];
      listFails := false;
      livenessCalls := 0;
      readinessCalls := 0;
    }

    /** The store's create: a taken name is AlreadyExists; otherwise the
        record is added. */
    method CreateStatefulSet(s: StatefulSet) returns (r: Result<()>)
      requires Valid() && |s.template.containers| > 0
      modifies this
      ensures Valid()
      ensures r.Err? <==> NameTaken(old(statefulSets), s.name)
      ensures r.Err? ==> r.error == AlreadyExists && statefulSets == old(statefulSets)
      ensures r.Ok? ==> statefulSets == old(statefulSets) + [s]
      ensures pods == old(pods) && events == old(events) && listFails == old(listFails)
      ensures livenessCalls == old(livenessCalls) && readinessCalls == old(readinessCalls)
    {
      if NameTaken(statefulSets, s.name) {
        return Err(AlreadyExists);
      }
      statefulSets := statefulSets + [s];
      return Ok(());
    }

    /** A reactor that makes every list of stateful sets fail. */
    method FailLists()
      modifies this
      ensures listFails
      ensures statefulSets == old(statefulSets) && pods == old(pods) && events == old(events)
      ensures livenessCalls == old(livenessCalls) && readinessCalls == old(readinessCalls)
    {
      listFails := true;
    }

    /** The store's pod create. */
    method CreatePod(p: Pod)
      modifies this
      ensures pods == old(pods) + [p]
      ensures statefulSets == old(statefulSets) && events == old(events) && listFails == old(listFails)
      ensures livenessCalls == old(livenessCalls) && readinessCalls == old(readinessCalls)
    {
      pods := pods + [p];
    }

    /** The store's event create. */
    method CreateEvent(e: Event)
      modifies this
      ensures events == old(events) + [e]
      ensures statefulSets == old(statefulSets) && pods == old(pods) && listFails == old(listFails)
      ensures livenessCalls == old(livenessCalls) && readinessCalls == old(readinessCalls)
    {
      events := events + [e];
    }

    /** Desire: build the record (calling each probe creator once) and create
        it. It fails exactly when a record of the same name is stored. */
    method Desire(lrp: LRP) returns (r: Result<()>, ghost envKeys: seq<string>)
      requires Valid()
      modifies this
      ensures Valid()
      ensures livenessCalls == old(livenessCalls) + 1 && readinessCalls == old(readinessCalls) + 1
      ensures IsEnumeration(envKeys, lrp.env)
      ensures r.Err? <==> NameTaken(old(statefulSets), RecordName(lrp, hasher(lrp.id)))
      ensures r.Err? ==> r.error == AlreadyExists && statefulSets == old(statefulSets)
      ensures r.Ok? ==>
        statefulSets == old(statefulSets) + [Translate(lrp, rootfsVersion, hasher(lrp.id), envKeys, liveness, readiness)]
      ensures pods == old(pods) && events == old(events) && listFails == old(listFails)
    {
      livenessCalls := livenessCalls + 1;
      readinessCalls := readinessCalls + 1;
      var s;
      s, envKeys := ToStatefulSet(lrp, rootfsVersion, hasher(lrp.id), liveness, readiness);
      r := CreateStatefulSet(s);
    }

    /** The one record the identifier selects, as the desirer's lookup finds it. */
    method GetStatefulSet(id: LRPIdentifier) returns (r: Result<nat>)
      ensures listFails ==> r == Err(InfrastructureError)
      ensures !listFails ==> r == Locate(statefulSets, id)
    {
      r := if listFails then Err(InfrastructureError) else Locate(statefulSets, id);
    }

    /** Get: the LRP read back from the one record the identifier selects. */
    method Get(id: LRPIdentifier) returns (r: Result<LRP>)
      requires Valid()
      ensures listFails ==> r == Err(InfrastructureError)
      ensures !listFails && Locate(statefulSets, id).Err? ==> r == Err(Locate(statefulSets, id).error)
      ensures !listFails && Locate(statefulSets, id).Ok? ==>
        r == Ok(FromRecord(statefulSets[Locate(statefulSets, id).value]))
    {
      var found := GetStatefulSet(id);
      if found.Err? {
        return Err(found.error);
      }
      r := Ok(FromRecord(statefulSets[found.value]));
    }

    /** List: every record read back, in store order. */
    method List() returns (r: Result<seq<LRP>>)
      requires Valid()
      ensures r.Err? <==> listFails
      ensures r.Err? ==> r.error == InfrastructureError
      ensures r.Ok? ==> r.value == ListedLRPs(statefulSets)
    {
      if listFails {
        return Err(InfrastructureError);
      }
      var lrps: seq<LRP> := [];
      for i := 0 to |statefulSets|
        invariant |lrps| == i
        invariant forall k :: 0 <= k < i ==> lrps[k] == FromRecord(statefulSets[k])
      {
        lrps := lrps + [FromRecord(statefulSets[i])];
      }
      return Ok(lrps);
    }

    /** Update: the selected record gets the new count, last_updated and
        routes; on any error nothing changes. */
    method Update(lrp: LRP) returns (r: Result<()>)
      requires Valid()
      modifies this
      ensures Valid()
      ensures r.Err? ==> statefulSets == old(statefulSets)
      ensures old(listFails) ==> r == Err(InfrastructureError)
      ensures !old(listFails) && Locate(old(statefulSets), lrp.id).Err? ==>
        r == Err(Locate(old(statefulSets), lrp.id).error)
      ensures !old(listFails) && Locate(old(statefulSets), lrp.id).Ok? ==>
        var i := Locate(old(statefulSets), lrp.id).value;
        r.Ok? && statefulSets == old(statefulSets)[i := UpdatedRecord(old(statefulSets)[i], lrp)]
      ensures r.Ok? ==> Locate(statefulSets, lrp.id) == Locate(old(statefulSets), lrp.id)
      ensures pods == old(pods) && events == old(events) && listFails == old(listFails)
      ensures livenessCalls == old(livenessCalls) && readinessCalls == old(readinessCalls)
    {
      var found := GetStatefulSet(lrp.id);
      if found.Err? {
        return Err(found.error);
      }
      var i := found.value;
      var updated := UpdatedRecord(statefulSets[i], lrp);
      ReplaceByNameAt(statefulSets, i, updated);
      LabelsKeepLocate(statefulSets, i, updated, lrp.id);
      statefulSets := ReplaceByName(statefulSets, updated);
      r := Ok(());
    }

    /** Stop: the selected record is deleted; on any error nothing changes. */
    method Stop(id: LRPIdentifier) returns (r: Result<()>)
      requires Valid()
      modifies this
      ensures Valid()
      ensures r.Err? ==> statefulSets == old(statefulSets)
      ensures old(listFails) ==> r == Err(InfrastructureError)
      ensures !old(listFails) && Locate(old(statefulSets), id).Err? ==>
        r == Err(Locate(old(statefulSets), id).error)
      ensures !old(listFails) && Locate(old(statefulSets), id).Ok? ==>
        var i := Locate(old(statefulSets), id).value;
        r.Ok? && statefulSets == old(statefulSets)[..i] + old(statefulSets)[i + 1..]
      ensures r.Ok? ==> Locate(statefulSets, id) == Err(NotFound)
      ensures pods == old(pods) && events == old(events) && listFails == old(listFails)
      ensures livenessCalls == old(livenessCalls) && readinessCalls == old(readinessCalls)
    {
      var found := GetStatefulSet(id);
      if found.Err? {
        return Err(found.error);
      }
      var i := found.value;
      RemoveByNameAt(statefulSets, i);
      RemovedIsGone(statefulSets, id);
      RemoveKeepsWellFormed(statefulSets, i);
      statefulSets := RemoveByName(statefulSets, statefulSets[i].name);
      r := Ok(());
    }

    /** GetInstances: one instance per selected pod that was not killed, in
        pod order; a pod name without an index fails the whole call. */
    method GetInstances(id: LRPIdentifier) returns (r: Result<seq<Instance>>)
      ensures r == InstancesOf(SelectPods(pods, id), events)
    {
      var selected := SelectPods(pods, id);
      var acc: seq<Instance> := [];
      var i := 0;
      assert selected[i..] == selected;
      PrependNothing(InstancesOf(selected, events));
      while i < |selected|
        invariant 0 <= i <= |selected|
        invariant InstancesOf(selected, events) == Prepend(acc, InstancesOf(selected[i..], events))
      {
        var pod := selected[i];
        assert selected[i..][1..] == selected[i + 1..];
        if IsStopped(pod, events) {
          i := i + 1;
          continue;
        }
        var index := ParseIndex(pod.name);
        if index.None? {
          return Err(InvalidPodName(pod.name));
        }
        var status := InstanceStatus(pod, events);
        var instance := Instance(index.value, Since(pod), status.state, status.placementError);
        PrependOne(acc, instance, InstancesOf(selected[i + 1..], events));
        acc := acc + [instance];
        i := i + 1;
      }
      assert selected[i..] == [];
      assert acc + [] == acc;
      return Ok(acc);
    }
  }
}

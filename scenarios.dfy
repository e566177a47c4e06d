/** The desirer's behaviour on the tests' own fixtures: a desirer with
    rootfs version "version1", hasher token "random" and empty probes, and
    the LRPs of `Fixture`. */
module Scenarios {
  import opened Opi
  import opened StatefulSets
  import opened Instances
  import opened Desirer
  import Eirini
  import Naming

  const TestId := LRPIdentifier("guid_1234", "version_1234")
  const NoProbe := Probe("")

  /** The tests' stub hasher: "random" for every identifier. */
  const StubHasher: LRPIdentifier -> string := _ => "random"

  /** The record of an LRP that the tests put into the store directly. The
      tests build it with their own translator, which lower-cases names and
      sets no rootfs-version label; this is the desirer's translation
      instead. For the tests' fixtures (plain ASCII app names) both give the
      same name and the same guid and version labels, which is what Desire's
      name clash and the lookups by identifier look at. Get and List also
      read back the annotations, image, command, ports, memory and volumes;
      for the fixtures these agree with the tests' translator too, except
      that the tests' translator shares the LRP's metadata map with the
      record's annotations, which this translation copies. */
  function TestRecord(lrp: LRP): StatefulSet {
    Translate(lrp, "version1", "random", [], NoProbe, NoProbe)
  }

  /** A store holding one record with the test identifier finds it. */
  lemma OneRecordFound(s: StatefulSet)
    requires MatchesId(s.labels, TestId)
    ensures Locate([s], TestId) == Ok(0)
  {
    LocateNotFound([], TestId);
    AppendLocate([], s, TestId);
    assert [] + [s] == [s];
  }

  /** Desiring "Baldur" succeeds with the name baldur-space-foo-random and
      one call of each probe creator. */
  method DesireScenario() returns (r: Result<()>, name: string, livenessCalls: nat, readinessCalls: nat)
    ensures r.Ok? && name == "baldur-space-foo-random"
    ensures livenessCalls == 1 && readinessCalls == 1
  {
    var d := new StatefulSetDesirer("version1", StubHasher, NoProbe, NoProbe);
    var lrp := Fixture("Baldur", "1234.5", "my.example.route");
    assert d.hasher(lrp.id) == "random";
    assert !NameTaken(d.statefulSets, RecordName(lrp, "random"));
    ghost var keys;
    r, keys := d.Desire(lrp);
    assert r.Ok?;
    livenessCalls, readinessCalls := d.livenessCalls, d.readinessCalls;
    name := d.statefulSets[0].name;
    assert name == RecordName(lrp, "random");
    Naming.BaldurName();
  }

  /** Desiring an LRP whose record is already stored fails. */
  method RedeployScenario() returns (r: Result<()>)
    ensures r == Err(AlreadyExists)
  {
    var lrp := Fixture("Baldur", "1234.5", "my.example.route");
    var s := TestRecord(lrp);
    var d := new StatefulSetDesirer("version1", StubHasher, NoProbe, NoProbe);
    var created := d.CreateStatefulSet(s);
    assert d.statefulSets == [s] && s.name == RecordName(lrp, "random");
    assert d.statefulSets[0].name == RecordName(lrp, d.hasher(lrp.id));
    ghost var keys;
    r, keys := d.Desire(lrp);
  }

  /** Get returns the LRP the stored record was built from. */
  method GetScenario() returns (r: Result<LRP>)
    ensures r == Ok(Fixture("Baldur", "1234.5", "my.example.route"))
  {
    var lrp := Fixture("Baldur", "1234.5", "my.example.route");
    var s := TestRecord(lrp);
    var d := new StatefulSetDesirer("version1", StubHasher, NoProbe, NoProbe);
    var created := d.CreateStatefulSet(s);
    assert d.statefulSets == [s] && !d.listFails;
    TranslateLabels(lrp, "version1", "random", [], NoProbe, NoProbe);
    OneRecordFound(s);
    FixtureRoundTrip("Baldur", "1234.5", "my.example.route", "version1", "random", [], NoProbe, NoProbe);
    r := d.Get(TestId);
  }

  /** An app name without [a-z0-9] falls back to the GUID for the name. */
  method FallbackNameScenario() returns (r: Result<()>, name: string)
    ensures r.Ok? && name == "guid_1234-random"
  {
    var d := new StatefulSetDesirer("version1", StubHasher, NoProbe, NoProbe);
    ghost var keys;
    r, keys := d.Desire(Fixture("Балдър", "1234.5", "my.example.route"));
    name := d.statefulSets[0].name;
    Naming.CyrillicName();
  }

  /** Get for an identifier no record carries is NotFound. */
  method GetMissingScenario() returns (r: Result<LRP>)
    ensures r == Err(NotFound)
  {
    var d := new StatefulSetDesirer("version1", StubHasher, NoProbe, NoProbe);
    var s := TestRecord(Fixture("Baldur", "1234.5", "my.example.route"));
    var created := d.CreateStatefulSet(s);
    assert d.statefulSets == [s] && !d.listFails;
    assert s.labels[LabelGUID] == "guid_1234";
    var unknown := LRPIdentifier("idontknow", "42");
    assert !Matches(d.statefulSets, unknown, 0);
    LocateNotFound(d.statefulSets, unknown);
    r := d.Get(unknown);
  }

  /** Update with five instances sets the replica count to 5; an update with
      new application_uris stores them verbatim under "routes". */
  method UpdateScenario() returns (scaled: Result<()>, replicas: int, rerouted: Result<()>, routes: string)
    ensures scaled.Ok? && replicas == 5
    ensures rerouted.Ok? && routes == "[\"my.example.route\", \"my.second.example.route\"]"
  {
    var d := new StatefulSetDesirer("version1", StubHasher, NoProbe, NoProbe);
    var lrp := Fixture("update", "7653.2", "[\"my.example.route\"]");
    var s := TestRecord(lrp);
    var created := d.CreateStatefulSet(s);
    OneRecordFound(s);
    var scaledLRP := lrp.(targetInstances := 5, metadata := map[LastUpdated := "123214.2"]);
    scaled := d.Update(scaledLRP);
    replicas := d.statefulSets[0].replicas;
    var newRoutes := "[\"my.example.route\", \"my.second.example.route\"]";
    rerouted := d.Update(lrp.(metadata := map[VcapAppUris := newRoutes]));
    routes := d.statefulSets[0].annotations[Eirini.RegisteredRoutes];
  }

  /** Update of an LRP without a record fails and creates nothing. */
  method UpdateMissingScenario() returns (r: Result<()>, stored: seq<StatefulSet>)
    ensures r == Err(NotFound) && stored == []
  {
    var d := new StatefulSetDesirer("version1", StubHasher, NoProbe, NoProbe);
    LocateNotFound([], TestId);
    r := d.Update(Fixture("name", "!234.0", "[something.strange]"));
    stored := d.statefulSets;
  }

  /** The test records of LRPs whose app names start with different
      lower-case letters have different names. */
  lemma DistinctFirstLetters(lrps: seq<LRP>)
    requires forall i :: 0 <= i < |lrps| ==> lrps[i].appName != [] && 'a' <= lrps[i].appName[0] <= 'z'
    requires forall i, j :: 0 <= i < j < |lrps| ==> lrps[i].appName[0] != lrps[j].appName[0]
    ensures DistinctNames(TestRecords(lrps))
  {
    forall i | 0 <= i < |lrps|
      ensures TestRecords(lrps)[i].name[0] == lrps[i].appName[0]
    {
      var l := lrps[i];
      Naming.NameStartsWithApp(l.appName, l.spaceName, l.id.guid, "random");
    }
  }

  /** List returns the stored LRPs, in store order. */
  method ListScenario() returns (listed: Result<seq<LRP>>)
    ensures listed == Ok([Fixture("odin", "1234.5", "my.example.route"),
                          Fixture("thor", "4567.8", "my.example.route"),
                          Fixture("mimir", "9012.3", "my.example.route")])
  {
    var odin := Fixture("odin", "1234.5", "my.example.route");
    var thor := Fixture("thor", "4567.8", "my.example.route");
    var mimir := Fixture("mimir", "9012.3", "my.example.route");
    ListedFixtures(odin, thor, mimir);
    listed := ListStored([odin, thor, mimir]);
  }

  /** The three listed test LRPs can be stored together and come back. */
  lemma ListedFixtures(odin: LRP, thor: LRP, mimir: LRP)
    requires odin == Fixture("odin", "1234.5", "my.example.route")
    requires thor == Fixture("thor", "4567.8", "my.example.route")
    requires mimir == Fixture("mimir", "9012.3", "my.example.route")
    ensures forall i :: 0 <= i < 3 ==> Reconstructible([odin, thor, mimir][i])
    ensures DistinctNames(TestRecords([odin, thor, mimir]))
  {
    FixtureReconstructible("odin", "1234.5", "my.example.route");
    FixtureReconstructible("thor", "4567.8", "my.example.route");
    FixtureReconstructible("mimir", "9012.3", "my.example.route");
    assert odin.appName[0] == 'o' && thor.appName[0] == 't' && mimir.appName[0] == 'm';
    DistinctFirstLetters([odin, thor, mimir]);
  }

  /** The records the tests store for a list of LRPs. */
  function TestRecords(lrps: seq<LRP>): seq<StatefulSet> {
    seq(|lrps|, i requires 0 <= i < |lrps| => TestRecord(lrps[i]))
  }

  /** Every test LRP survives the round trip through its record. */
  lemma FixtureReconstructible(name: string, lastUpdated: string, routes: string)
    ensures Reconstructible(Fixture(name, lastUpdated, routes))
  {
    assert Fixture(name, lastUpdated, routes).metadata.Keys == MetadataKeys;
  }

  /** List on a store holding the test records of reconstructible LRPs
      returns those LRPs. */
  method ListStored(lrps: seq<LRP>) returns (listed: Result<seq<LRP>>)
    requires forall i :: 0 <= i < |lrps| ==> Reconstructible(lrps[i])
    requires DistinctNames(TestRecords(lrps))
    ensures listed == Ok(lrps)
  {
    var d := new StatefulSetDesirer("version1", StubHasher, NoProbe, NoProbe);
    var records := TestRecords(lrps);
    CreateAll(d, records);
    ListRoundTrip(lrps, "version1", "random", [], NoProbe, NoProbe);
    assert records == seq(|lrps|, i requires 0 <= i < |lrps| =>
                            Translate(lrps[i], "version1", "random", [], NoProbe, NoProbe));
    listed := d.List();
  }

  /** Creates each record in turn, as the tests' setup loop does; the names
      are distinct, so every create succeeds. */
  method CreateAll(d: StatefulSetDesirer, records: seq<StatefulSet>)
    requires d.Valid() && d.statefulSets == []
    requires DistinctNames(records)
    requires forall i :: 0 <= i < |records| ==> |records[i].template.containers| > 0
    modifies d
    ensures d.Valid() && d.statefulSets == records && d.listFails == old(d.listFails)
  {
    for i := 0 to |records|
      invariant d.Valid() && d.statefulSets == records[..i] && d.listFails == old(d.listFails)
    {
      assert !NameTaken(d.statefulSets, records[i].name);
      var created := d.CreateStatefulSet(records[i]);
      assert records[..i + 1] == records[..i] + [records[i]];
    }
  }

  /** List on an empty store returns nothing; when listing fails it is an error. */
  method ListEmptyScenario() returns (empty: Result<seq<LRP>>, failed: Result<seq<LRP>>)
    ensures empty == Ok([])
    ensures failed == Err(InfrastructureError)
  {
    var d := new StatefulSetDesirer("version1", StubHasher, NoProbe, NoProbe);
    empty := d.List();
    d.FailLists();
    failed := d.List();
  }

  /** Stop removes the record of the identifier. */
  method StopScenario() returns (stopped: Result<()>, left: seq<StatefulSet>)
    ensures stopped.Ok? && left == []
  {
    var s := TestRecord(Fixture("Baldur", "1234.5", "my.example.route"));
    var d := new StatefulSetDesirer("version1", StubHasher, NoProbe, NoProbe);
    var created := d.CreateStatefulSet(s);
    OneRecordFound(s);
    stopped := d.Stop(TestId);
    left := d.statefulSets;
  }

  /** Stop of an identifier no record carries fails and keeps the store. */
  method StopUnknownScenario() returns (unknown: Result<()>, kept: nat)
    ensures unknown == Err(NotFound) && kept == 1
  {
    var s := TestRecord(Fixture("Baldur", "1234.5", "my.example.route"));
    var d := new StatefulSetDesirer("version1", StubHasher, NoProbe, NoProbe);
    var created := d.CreateStatefulSet(s);
    assert d.statefulSets == [s] && !d.listFails;
    assert s.labels[LabelGUID] == "guid_1234";
    assert !Matches(d.statefulSets, LRPIdentifier("", ""), 0);
    LocateNotFound(d.statefulSets, LRPIdentifier("", ""));
    unknown := d.Stop(LRPIdentifier("", ""));
    kept := |d.statefulSets|;
  }

  /** Two running pods of the LRP are reported RUNNING with their indices and
      start times; once both are killed nothing is reported. */
  method GetInstancesScenario() returns (running: Result<seq<Instance>>, killed: Result<seq<Instance>>)
    ensures running == Ok([Instance(0, 123000000000, Running, ""), Instance(1, 456000000000, Running, "")])
    ensures killed == Ok([])
  {
    var p0, p1 := TestPod("odin", 0, Some(123)), TestPod("odin", 1, Some(456));
    var d := new StatefulSetDesirer("version1", StubHasher, NoProbe, NoProbe);
    d.CreatePod(p0);
    d.CreatePod(p1);
    assert SelectPods(d.pods, TestId) == [p0, p1] by {
      assert d.pods == [p0, p1];
      assert d.pods[1..] == [p1] && d.pods[1..][1..] == [];
    }
    RunningScenario();
    running := d.GetInstances(TestId);
    d.CreateEvent(Event(KillingReason, "", "odin-0"));
    d.CreateEvent(Event(KillingReason, "", "odin-1"));
    assert d.pods == [p0, p1];
    assert d.events == [Event(KillingReason, "", "odin-0"), Event(KillingReason, "", "odin-1")];
    KilledScenario();
    killed := d.GetInstances(TestId);
  }
}

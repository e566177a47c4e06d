/** Translation of an LRP into a workload record (a stateful set) and back.

    The record keeps what the cluster stores: labels, annotations, replica
    count and a pod template with one container. `Translate` is the
    translation as a function; `ToStatefulSet` builds the same record step by
    step with loops over the env map, the ports and the volume mounts.
    `FromRecord` is the inverse that Get and List apply. */
module StatefulSets {
  import opened Opi
  import Eirini
  import Naming

  // ---------------------------------------------------------------- records

  /** What an injected probe creator returns; the translator only attaches it. */
  datatype Probe = Probe(handler: string)

  datatype EnvSource = Literal(value: string) | FieldRef(fieldPath: string)
  datatype EnvVar = EnvVar(name: string, source: EnvSource)

  datatype ContainerPort = ContainerPort(containerPort: int)

  /** A resource quantity: an integer and its unit suffix ("M", "m"). */
  datatype Quantity = Quantity(value: int, unit: string)

  /** A volume backed by a persistent volume claim. */
  datatype Volume = Volume(name: string, claimName: string)
  datatype MountSpec = MountSpec(name: string, mountPath: string)

  datatype Container = Container(
    name: string,
    image: string,
    command: seq<string>,
    env: seq<EnvVar>,
    ports: seq<ContainerPort>,
    livenessProbe: Probe,
    readinessProbe: Probe,
    imagePullPolicy: string,
    limits: map<string, Quantity>,
    requests: map<string, Quantity>,
    volumeMounts: seq<MountSpec>)

  datatype PodTemplate = PodTemplate(
    labels: map<string, string>,
    annotations: map<string, string>,
    automountServiceAccountToken: bool,
    containers: seq<Container>,
    volumes: seq<Volume>)

  datatype StatefulSet = StatefulSet(
    name: string,
    labels: map<string, string>,
    annotations: map<string, string>,
    replicas: int,
    podManagementPolicy: string,
    selector: map<string, string>,
    template: PodTemplate)

  // -------------------------------------------------------------- constants

  const LabelGUID := "guid"
  const LabelVersion := "version"
  const LabelSourceType := "source_type"
  const AppSourceType := "APP"
  const RootfsVersionLabel := "rootfs-version"
  const OpiContainerName := "opi"
  const PullAlways := "Always"
  const ParallelPolicy := "Parallel"
  const ResourceMemory := "memory"
  const ResourceCPU := "cpu"

  /** The variables the cluster fills in when a pod starts. */
  const FieldEnv: seq<EnvVar> := [
    EnvVar("POD_NAME", FieldRef("metadata.name")),
    EnvVar("CF_INSTANCE_IP", FieldRef("status.podIP")),
    EnvVar("CF_INSTANCE_INTERNAL_IP", FieldRef("status.podIP"))
  ]

  // ---------------------------------------------------------------- helpers

  /** Go's conversion of an int to int32: keep the low 32 bits, two's complement. */
  function ToInt32(x: int): int {
    var m := x % 0x1_0000_0000;
    if m >= 0x8000_0000 then m - 0x1_0000_0000 else m
  }

  predicate InInt32(x: int) {
    -0x8000_0000 <= x < 0x8000_0000
  }

  /** Does a label map carry the identifier's guid and version labels? */
  predicate MatchesId(labels: map<string, string>, id: LRPIdentifier) {
    LabelGUID in labels && labels[LabelGUID] == id.guid &&
    LabelVersion in labels && labels[LabelVersion] == id.version
  }

  /** `keys` lists every key of `m` once, in some order: the order in which Go
      happens to range over the map. */
  ghost predicate IsEnumeration(keys: seq<string>, m: map<string, string>) {
    (forall i :: 0 <= i < |keys| ==> keys[i] in m) &&
    (forall k :: k in m ==> k in keys) &&
    (forall i, j :: 0 <= i < j < |keys| ==> keys[i] != keys[j])
  }

  function AppEnv(env: map<string, string>, keys: seq<string>): seq<EnvVar> {
    seq(|keys|, i requires 0 <= i < |keys| => EnvVar(keys[i], Literal(Lookup(env, keys[i]))))
  }

  function PortSpecs(ports: seq<int>): seq<ContainerPort> {
    seq(|ports|, i requires 0 <= i < |ports| => ContainerPort(ports[i]))
  }

  function VolumeSpecs(mounts: seq<VolumeMount>): seq<Volume> {
    seq(|mounts|, i requires 0 <= i < |mounts| => Volume(mounts[i].claimName, mounts[i].claimName))
  }

  function MountSpecs(mounts: seq<VolumeMount>): seq<MountSpec> {
    seq(|mounts|, i requires 0 <= i < |mounts| => MountSpec(mounts[i].claimName, mounts[i].mountPath))
  }

  function IdLabels(id: LRPIdentifier): map<string, string> {
    map[LabelGUID := id.guid, LabelVersion := id.version, LabelSourceType := AppSourceType]
  }

  /** The record's annotations: a copy of the LRP's metadata plus the routes
      and the space name. */
  function RecordAnnotations(lrp: LRP): map<string, string> {
    lrp.metadata[Eirini.RegisteredRoutes := Lookup(lrp.metadata, VcapAppUris)]
                [VcapSpaceName := lrp.spaceName]
  }

  // ------------------------------------------------------------ translation

  /** The workload record for an LRP, given the desirer's rootfs version, the
      hasher's token, the order in which the env map is ranged over and what
      the two probe creators returned. */
  function Translate(lrp: LRP, rootfsVersion: string, hash: string, envKeys: seq<string>,
                     liveness: Probe, readiness: Probe): (r: StatefulSet)
    ensures |r.template.containers| == 1
    ensures MatchesId(r.labels, lrp.id)
  {
    var labels := IdLabels(lrp.id);
    var memory := Quantity(lrp.memoryMB, "M");
    var cpu := Quantity(lrp.cpuWeight, "m");
    var container := Container(
      OpiContainerName, lrp.image, lrp.command,
      AppEnv(lrp.env, envKeys) + FieldEnv,
      PortSpecs(lrp.ports),
      liveness, readiness, PullAlways,
      map[ResourceMemory := memory],
      map[ResourceMemory := memory, ResourceCPU := cpu],
      MountSpecs(lrp.volumeMounts));
    StatefulSet(
      Naming.StatefulSetName(lrp.appName, lrp.spaceName, lrp.id.guid, hash),
      labels[RootfsVersionLabel := rootfsVersion],
      RecordAnnotations(lrp),
      ToInt32(lrp.targetInstances),
      ParallelPolicy,
      labels,
      PodTemplate(
        labels[RootfsVersionLabel := rootfsVersion],
        map[ProcessGUID := Lookup(lrp.metadata, ProcessGUID), VcapAppID := Lookup(lrp.metadata, VcapAppID)],
        false,
        [container],
        VolumeSpecs(lrp.volumeMounts)))
  }

  /** The LRP that Get and List read back from a record. Its identifier is
      the one the record's labels are selected by; env, CPU weight and running
      count are not kept in the record and read back empty; exactly the six
      metadata keys come back. */
  function FromRecord(s: StatefulSet): (r: LRP)
    requires |s.template.containers| > 0
    ensures MatchesId(s.labels, r.id) <==> LabelGUID in s.labels && LabelVersion in s.labels
    ensures r.env == map[] && r.cpuWeight == 0 && r.runningInstances == 0
    ensures r.metadata.Keys == MetadataKeys
    ensures |r.ports| == |s.template.containers[0].ports|
  {
    var c := s.template.containers[0];
    LRP(
      LRPIdentifier(Lookup(s.labels, LabelGUID), Lookup(s.labels, LabelVersion)),
      Lookup(s.annotations, VcapAppName),
      Lookup(s.annotations, VcapSpaceName),
      c.image,
      c.command,
      map[],
      seq(|c.ports|, i requires 0 <= i < |c.ports| => c.ports[i].containerPort),
      s.replicas,
      0,
      if ResourceMemory in c.requests then c.requests[ResourceMemory].value else 0,
      0,
      map k | k in MetadataKeys :: Lookup(s.annotations, k),
      seq(|c.volumeMounts|, i requires 0 <= i < |c.volumeMounts| =>
        VolumeMount(c.volumeMounts[i].name, c.volumeMounts[i].mountPath)))
  }

  /** What of an LRP survives a translation and a read-back: the env map, the
      CPU weight and the running count are not read back; the app name is read
      from the application_name metadata; only the six metadata keys return. */
  function Preserved(lrp: LRP): LRP {
    lrp.(appName := Lookup(lrp.metadata, VcapAppName),
         env := map[],
         targetInstances := ToInt32(lrp.targetInstances),
         runningInstances := 0,
         cpuWeight := 0,
         metadata := map k | k in MetadataKeys :: Lookup(lrp.metadata, k))
  }

  /** The LRPs that come back from their record unchanged. */
  predicate Reconstructible(lrp: LRP) {
    lrp.env == map[] && lrp.runningInstances == 0 && lrp.cpuWeight == 0 &&
    InInt32(lrp.targetInstances) &&
    lrp.metadata.Keys == MetadataKeys &&
    Lookup(lrp.metadata, VcapAppName) == lrp.appName
  }

  // ----------------------------------------------------------------- lemmas

  lemma ToInt32Fixes(x: int)
    ensures ToInt32(x) == x <==> InInt32(x)
  {
  }

  /** Reading a translated record back gives the preserved part of the LRP,
      whatever the rootfs version, hash, env order and probes were. */
  lemma TranslateInverse(lrp: LRP, rootfsVersion: string, hash: string, envKeys: seq<string>,
                         liveness: Probe, readiness: Probe)
    ensures FromRecord(Translate(lrp, rootfsVersion, hash, envKeys, liveness, readiness)) == Preserved(lrp)
  {
    var s := Translate(lrp, rootfsVersion, hash, envKeys, liveness, readiness);
    var back := FromRecord(s);
    var c := s.template.containers[0];
    assert back.ports == lrp.ports;
    assert back.volumeMounts == lrp.volumeMounts;
    assert back.id == lrp.id;
    assert back.metadata == Preserved(lrp).metadata by {
      forall k | k in MetadataKeys
        ensures Lookup(s.annotations, k) == Lookup(lrp.metadata, k)
      {
        assert k != Eirini.RegisteredRoutes && k != VcapSpaceName;
      }
    }
  }

  /** The preserved part is the LRP itself exactly for reconstructible LRPs. */
  lemma PreservedIff(lrp: LRP)
    ensures Preserved(lrp) == lrp <==> Reconstructible(lrp)
  {
    ToInt32Fixes(lrp.targetInstances);
    var md := map k | k in MetadataKeys :: Lookup(lrp.metadata, k);
    if Reconstructible(lrp) {
      assert md == lrp.metadata;
    }
    if Preserved(lrp) == lrp {
      assert md.Keys == MetadataKeys;
      assert lrp.metadata.Keys == md.Keys;
    }
  }

  /** Get on a record built from a reconstructible LRP returns that LRP. */
  lemma RoundTrip(lrp: LRP, rootfsVersion: string, hash: string, envKeys: seq<string>,
                  liveness: Probe, readiness: Probe)
    requires Reconstructible(lrp)
    ensures FromRecord(Translate(lrp, rootfsVersion, hash, envKeys, liveness, readiness)) == lrp
  {
    TranslateInverse(lrp, rootfsVersion, hash, envKeys, liveness, readiness);
    PreservedIff(lrp);
  }

  /** The LRP the tests build: app `name`, space "space-foo", the six
      metadata keys and one volume mount. */
  function Fixture(name: string, lastUpdated: string, routes: string): (lrp: LRP)
    ensures lrp.id == LRPIdentifier("guid_1234", "version_1234") && lrp.appName == name
    ensures lrp.metadata.Keys == MetadataKeys && Reconstructible(lrp)
  {
    LRP(
      LRPIdentifier("guid_1234", "version_1234"),
      name, "space-foo", "busybox",
      ["/bin/sh", "-c", "while true; do echo hello; sleep 10;done"],
      map[], [8888, 9999], 0, 0, 1024, 0,
      map[ProcessGUID := name + "-guid", LastUpdated := lastUpdated, VcapAppUris := routes,
          VcapAppName := name, VcapAppID := "guid_1234", VcapVersion := "version_1234"],
      [VolumeMount("some-claim", "/some/path")])
  }

  /** Every test LRP comes back from its record as it went in. */
  lemma FixtureRoundTrip(name: string, lastUpdated: string, routes: string, rootfsVersion: string,
                         hash: string, envKeys: seq<string>, liveness: Probe, readiness: Probe)
    ensures var lrp := Fixture(name, lastUpdated, routes);
      FromRecord(Translate(lrp, rootfsVersion, hash, envKeys, liveness, readiness)) == lrp
  {
    var lrp := Fixture(name, lastUpdated, routes);
    assert lrp.metadata.Keys == MetadataKeys;
    RoundTrip(lrp, rootfsVersion, hash, envKeys, liveness, readiness);
  }

  /** Labels: the set, the template and the selector carry guid, version and
      source_type=APP; set and template also carry the rootfs version. */
  lemma TranslateLabels(lrp: LRP, rootfsVersion: string, hash: string, envKeys: seq<string>,
                        liveness: Probe, readiness: Probe)
    ensures var s := Translate(lrp, rootfsVersion, hash, envKeys, liveness, readiness);
      MatchesId(s.labels, lrp.id) && MatchesId(s.template.labels, lrp.id) && MatchesId(s.selector, lrp.id) &&
      s.labels[LabelSourceType] == AppSourceType && s.selector[LabelSourceType] == AppSourceType &&
      s.template.labels[LabelSourceType] == AppSourceType &&
      s.labels[RootfsVersionLabel] == rootfsVersion && s.template.labels[RootfsVersionLabel] == rootfsVersion &&
      s.selector.Keys == {LabelGUID, LabelVersion, LabelSourceType}
  {
  }

  /** Annotations: every metadata entry is copied, except that "routes" holds
      the application_uris value and space_name the space; the template holds
      the process guid and the app id. */
  lemma TranslateAnnotations(lrp: LRP, rootfsVersion: string, hash: string, envKeys: seq<string>,
                             liveness: Probe, readiness: Probe)
    ensures var s := Translate(lrp, rootfsVersion, hash, envKeys, liveness, readiness);
      s.annotations.Keys == lrp.metadata.Keys + {Eirini.RegisteredRoutes, VcapSpaceName} &&
      (forall k :: k in lrp.metadata && k != Eirini.RegisteredRoutes && k != VcapSpaceName ==>
         s.annotations[k] == lrp.metadata[k]) &&
      s.annotations[Eirini.RegisteredRoutes] == Lookup(lrp.metadata, VcapAppUris) &&
      s.annotations[VcapSpaceName] == lrp.spaceName &&
      s.template.annotations == map[ProcessGUID := Lookup(lrp.metadata, ProcessGUID),
                                    VcapAppID := Lookup(lrp.metadata, VcapAppID)]
  {
  }

  /** Pod spec: one container "opi" with the image and command, pulled always;
      parallel pod management; no service-account token; the ports in order;
      memory as limit and request, CPU as request only; one volume and one
      mount per volume mount, each named by its claim. */
  lemma TranslatePodSpec(lrp: LRP, rootfsVersion: string, hash: string, envKeys: seq<string>,
                         liveness: Probe, readiness: Probe)
    ensures var s := Translate(lrp, rootfsVersion, hash, envKeys, liveness, readiness);
      |s.template.containers| == 1 &&
      var c := s.template.containers[0];
      c.name == OpiContainerName && c.image == lrp.image && c.command == lrp.command &&
      c.imagePullPolicy == PullAlways && c.livenessProbe == liveness && c.readinessProbe == readiness &&
      s.podManagementPolicy == ParallelPolicy && !s.template.automountServiceAccountToken &&
      |c.ports| == |lrp.ports| && (forall i :: 0 <= i < |lrp.ports| ==> c.ports[i].containerPort == lrp.ports[i]) &&
      c.limits == map[ResourceMemory := Quantity(lrp.memoryMB, "M")] &&
      c.requests == map[ResourceMemory := Quantity(lrp.memoryMB, "M"), ResourceCPU := Quantity(lrp.cpuWeight, "m")] &&
      |s.template.volumes| == |c.volumeMounts| == |lrp.volumeMounts| &&
      (forall i :: 0 <= i < |lrp.volumeMounts| ==>
         s.template.volumes[i] == Volume(lrp.volumeMounts[i].claimName, lrp.volumeMounts[i].claimName) &&
         c.volumeMounts[i] == MountSpec(lrp.volumeMounts[i].claimName, lrp.volumeMounts[i].mountPath))
  {
  }

  /** Env: every entry of the app's env map exactly once, as a literal, in
      the order the map was ranged over, followed by POD_NAME,
      CF_INSTANCE_IP and CF_INSTANCE_INTERNAL_IP. */
  lemma TranslateEnv(lrp: LRP, rootfsVersion: string, hash: string, envKeys: seq<string>,
                     liveness: Probe, readiness: Probe)
    requires IsEnumeration(envKeys, lrp.env)
    ensures var c := Translate(lrp, rootfsVersion, hash, envKeys, liveness, readiness).template.containers[0];
      |c.env| == |lrp.env| + 3 && c.env[|lrp.env|..] == FieldEnv &&
      (forall i :: 0 <= i < |lrp.env| ==>
         c.env[i].name in lrp.env && c.env[i].source == Literal(lrp.env[c.env[i].name])) &&
      (forall k :: k in lrp.env ==> exists i :: 0 <= i < |lrp.env| && c.env[i].name == k) &&
      (forall i, j :: 0 <= i < j < |lrp.env| ==> c.env[i].name != c.env[j].name)
  {
    var c := Translate(lrp, rootfsVersion, hash, envKeys, liveness, readiness).template.containers[0];
    EnumerationLength(envKeys, lrp.env);
    var app := AppEnv(lrp.env, envKeys);
    assert c.env == app + FieldEnv;
    assert forall i :: 0 <= i < |lrp.env| ==> c.env[i] == app[i];
    forall k | k in lrp.env ensures exists i :: 0 <= i < |lrp.env| && c.env[i].name == k {
      var i :| 0 <= i < |envKeys| && envKeys[i] == k;
      assert c.env[i] == app[i];
    }
  }

  /** An enumeration of a map lists exactly as many keys as the map has. */
  lemma {:induction false} EnumerationLength(keys: seq<string>, m: map<string, string>)
    requires IsEnumeration(keys, m)
    ensures |keys| == |m|
  {
    if keys == [] {
      assert m.Keys == {};
    } else {
      var k := keys[|keys| - 1];
      var rest := keys[..|keys| - 1];
      var m' := map x | x in m && x != k :: m[x];
      assert IsEnumeration(rest, m') by {
        forall x | x in m' ensures x in rest {
          assert x in keys;
          var i :| 0 <= i < |keys| && keys[i] == x;
          assert i != |keys| - 1;
          assert rest[i] == x;
        }
      }
      EnumerationLength(rest, m');
      assert m'.Keys == m.Keys - {k};
    }
  }

  // ---------------------------------------------------- the step-by-step build

  /** Ranges over the env map in an unspecified order, as Go does, and turns
      each entry into a literal env variable. `keys` records the order taken. */
  method MapToEnvVar(env: map<string, string>) returns (vars: seq<EnvVar>, ghost keys: seq<string>)
    ensures IsEnumeration(keys, env)
    ensures |vars| == |keys|
    ensures forall i :: 0 <= i < |vars| ==> vars[i] == EnvVar(keys[i], Literal(env[keys[i]]))
    ensures |vars| == |env|
    ensures forall i :: 0 <= i < |vars| ==> vars[i].name in env && vars[i].source == Literal(env[vars[i].name])
    ensures forall k :: k in env ==> exists i :: 0 <= i < |vars| && vars[i].name == k
    ensures forall i, j :: 0 <= i < j < |vars| ==> vars[i].name != vars[j].name
  {
    vars, keys := [], [];
    var rest := env.Keys;
    while rest != {}
      invariant rest <= env.Keys
      invariant |vars| == |keys|
      invariant forall i :: 0 <= i < |keys| ==> keys[i] in env && keys[i] !in rest
      invariant forall k :: k in env ==> k in rest || k in keys
      invariant forall i, j :: 0 <= i < j < |keys| ==> keys[i] != keys[j]
      invariant forall i :: 0 <= i < |vars| ==> vars[i] == EnvVar(keys[i], Literal(env[keys[i]]))
      decreases rest
    {
      var k :| k in rest;
      vars := vars + [EnvVar(k, Literal(env[k]))];
      keys := keys + [k];
      rest := rest - {k};
    }
    EnumerationLength(keys, env);
  }

  /** One container port per declared port, in order. */
  method CreatePorts(ports: seq<int>) returns (specs: seq<ContainerPort>)
    ensures |specs| == |ports|
    ensures forall i :: 0 <= i < |ports| ==> specs[i].containerPort == ports[i]
  {
    specs := [];
    for i := 0 to |ports|
      invariant |specs| == i
      invariant forall j :: 0 <= j < i ==> specs[j] == ContainerPort(ports[j])
    {
      specs := specs + [ContainerPort(ports[i])];
    }
  }

  /** One claim-backed volume and one mount per volume mount, in order, both
      named by the claim. */
  method CreateVolumeSpecs(mounts: seq<VolumeMount>) returns (vols: seq<Volume>, specs: seq<MountSpec>)
    ensures |vols| == |specs| == |mounts|
    ensures forall i :: 0 <= i < |mounts| ==>
      vols[i].name == vols[i].claimName == specs[i].name == mounts[i].claimName &&
      specs[i].mountPath == mounts[i].mountPath
  {
    vols, specs := [], [];
    for i := 0 to |mounts|
      invariant |vols| == |specs| == i
      invariant forall j :: 0 <= j < i ==>
        vols[j] == Volume(mounts[j].claimName, mounts[j].claimName) &&
        specs[j] == MountSpec(mounts[j].claimName, mounts[j].mountPath)
    {
      vols := vols + [Volume(mounts[i].claimName, mounts[i].claimName)];
      specs := specs + [MountSpec(mounts[i].claimName, mounts[i].mountPath)];
    }
  }

  /** Builds the record of `Translate`, for the env order the loop happened to
      take. */
  method ToStatefulSet(lrp: LRP, rootfsVersion: string, hash: string, liveness: Probe, readiness: Probe)
    returns (s: StatefulSet, ghost envKeys: seq<string>)
    ensures IsEnumeration(envKeys, lrp.env)
    ensures s == Translate(lrp, rootfsVersion, hash, envKeys, liveness, readiness)
    ensures s.name == Naming.StatefulSetName(lrp.appName, lrp.spaceName, lrp.id.guid, hash)
    ensures FromRecord(s) == Preserved(lrp)
  {
    var envs;
    envs, envKeys := MapToEnvVar(lrp.env);
    envs := envs + FieldEnv;
    var ports := CreatePorts(lrp.ports);
    var vols, mounts := CreateVolumeSpecs(lrp.volumeMounts);
    var memory := Quantity(lrp.memoryMB, "M");
    var cpu := Quantity(lrp.cpuWeight, "m");
    var labels := map[LabelGUID := lrp.id.guid, LabelVersion := lrp.id.version, LabelSourceType := AppSourceType];
    var container := Container(
      OpiContainerName, lrp.image, lrp.command, envs, ports, liveness, readiness, PullAlways,
      map[ResourceMemory := memory], map[ResourceMemory := memory, ResourceCPU := cpu], mounts);
    var template := PodTemplate(
      labels[RootfsVersionLabel := rootfsVersion],
      map[ProcessGUID := Lookup(lrp.metadata, ProcessGUID), VcapAppID := Lookup(lrp.metadata, VcapAppID)],
      false, [container], vols);
    var annotations := lrp.metadata;
    annotations := annotations[Eirini.RegisteredRoutes := Lookup(lrp.metadata, VcapAppUris)];
    annotations := annotations[VcapSpaceName := lrp.spaceName];
    s := StatefulSet(
      Naming.StatefulSetName(lrp.appName, lrp.spaceName, lrp.id.guid, hash),
      labels[RootfsVersionLabel := rootfsVersion], annotations, ToInt32(lrp.targetInstances),
      ParallelPolicy, labels, template);
    assert ports == PortSpecs(lrp.ports);
    assert vols == VolumeSpecs(lrp.volumeMounts);
    assert mounts == MountSpecs(lrp.volumeMounts);
    assert envs == AppEnv(lrp.env, envKeys) + FieldEnv;
    TranslateInverse(lrp, rootfsVersion, hash, envKeys, liveness, readiness);
  }

  // ------------------------------------------- the caller's map, as written

  /** The caller's metadata after the translation as written in the test
      helper: the record's annotation map IS the LRP's metadata map, so the
      two writes into the annotations land in the caller's LRP. */
  function AliasedCallerMetadata(lrp: LRP): map<string, string> {
    lrp.metadata[Eirini.RegisteredRoutes := Lookup(lrp.metadata, VcapAppUris)]
                [VcapSpaceName := lrp.spaceName]
  }

  /** With the aliasing, a test LRP that was translated no longer equals what
      Get returns for it: its metadata gained "routes" and "space_name". */
  lemma AliasedTranslationBreaksReuse(name: string, lastUpdated: string, routes: string, rootfsVersion: string,
                                      hash: string, envKeys: seq<string>, liveness: Probe, readiness: Probe)
    ensures var lrp := Fixture(name, lastUpdated, routes);
      var mutated := lrp.(metadata := AliasedCallerMetadata(lrp));
      mutated != lrp &&
      FromRecord(Translate(lrp, rootfsVersion, hash, envKeys, liveness, readiness)) != mutated
  {
    var lrp := Fixture(name, lastUpdated, routes);
    FixtureRoundTrip(name, lastUpdated, routes, rootfsVersion, hash, envKeys, liveness, readiness);
    assert Eirini.RegisteredRoutes !in lrp.metadata;
    assert Eirini.RegisteredRoutes in AliasedCallerMetadata(lrp);
  }
}

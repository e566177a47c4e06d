# Stateful-set desirer of the Eirini scheduler, in Dafny

Eirini runs Cloud Foundry applications on Kubernetes. An application's
desired state is a long-running process (an **LRP**). The **stateful-set
desirer** manages the workload records (stateful sets) for LRPs:

- it turns each LRP into a workload record;
- it keeps the record's replica count and routes in step with updates;
- it deletes the record on stop;
- it reads LRPs back from the records;
- it reports the instances of an LRP from the pods and events the cluster holds.

This project models that desirer and proves properties of the model. It also
models the two internal service-name builders and the `routes` annotation key.

Modules:

- `Opi` (`opi.dfy`): the LRP, its identifier `{guid, version}`, the instance
  record, the error kinds and the six metadata keys.
- `Eirini` (`eirini.dfy`): the `routes` annotation key and the two
  service-name builders.
- `Naming` (`naming.dfy`): the record's name. It is the app name reduced to
  `[a-z0-9]`, then the lower-cased space name, then the token of the injected
  hasher. When nothing of the app name survives, the name is the GUID and the
  token. The hasher is a function of the LRP's identifier; the tests stub it
  to return "random" for every identifier.
- `StatefulSets` (`statefulset.dfy`): the record, and the translation of an
  LRP into it.
  - `Translate` is the translation as a function.
  - `ToStatefulSet` builds the same record step by step, with loops over the
    env map, the ports and the volume mounts. Go ranges over a map in an
    unspecified order; that order is a ghost sequence of keys.
  - `FromRecord` is the inverse that Get and List apply.
- `Instances` (`instances.dfy`): pods, events, the status table of one pod,
  the index read from a pod's name, and the instance list.
- `Desirer` (`desirer.dfy`): the class `StatefulSetDesirer`.
  - It holds the namespace's stateful sets, pods and events.
  - A flag stands for a reactor that makes every list of stateful sets fail.
  - Two counters record how often each probe creator was called.
  - Desire, Get, List, Update, Stop and GetInstances are methods proved
    against the functions above.
  - The store behaves like the fake clientset: a create with a taken name
    fails, an update replaces the record of the same name, and a delete
    removes it.
  - A lookup by identifier lists the records whose `guid` and `version`
    labels match. No match is NotFound, more than one is Ambiguous, and
    exactly one is the record acted on.
- `Scenarios` (`scenarios.dfy`): the tests' lifecycle cases, replayed on the
  model with the tests' own fixtures.

The desirer's implementation file, `k8s/statefulset.go`, is not part of this
model. Its behaviour comes from what `k8s/statefulset_test.go` asserts, and
from the reference translator `toStatefulSet` in that file. That translator
differs from the desirer in four places, and the model follows the desirer:

- it lower-cases the app and space names without dropping other characters;
- it sets no `rootfs-version` label;
- it ends every name in the literal "-random" (`k8s/statefulset_test.go:650`),
  where the desirer appends the hasher's token;
- it attaches an empty probe for both liveness and readiness
  (`k8s/statefulset_test.go:670-671`), where the desirer calls the two probe
  creators (`k8s/statefulset_test.go:98-103`).

The last two agree with the tests' stubs: the hasher returns "random"
(`k8s/statefulset_test.go:68`) and both probe creators return an empty probe
(`k8s/statefulset_test.go:88-89`).

Behaviour the model states about the desirer:

- A container that is Waiting is CRASHED whether or not it is ready. The
  crashed case at `k8s/statefulset_test.go:426-445` has a ready, waiting
  container.
- Desire fails with AlreadyExists when a record of the **same name** is
  stored, as the clientset decides. Two LRPs with one identifier but
  different app names therefore get two records. Get then reports Ambiguous.
- Get, Update and Stop with more than one matching record report a distinct
  `Ambiguous` error kind. No test stores two records with one identifier;
  this is the model's own choice (see "Left out").
- Update writes the replica count, `last_updated` and `routes`, and keeps the
  other annotations. The tests read back only the replica count and
  `routes`; the rest is the model's own choice (see "Left out").

## Model

| member | source | states |
|---|---|---|
| Eirini.GetInternalServiceName | models.go:107-110 | the name is exactly "cf-" followed by the app name |
| Eirini.GetInternalHeadlessServiceName | models.go:112-115 | the name is "cf-", then the app name, then "-headless" |
| Eirini.NamesNeverStartWithDigit | models.go:108 | neither service name starts with a digit, whatever the app name |
| Eirini.HeadlessExtendsServiceName | models.go:107-115 | the headless name is the service name followed by "-headless" |
| Eirini.ServiceNameInjective | models.go:107-110 | two apps get the same service name if and only if they are the same app |
| Eirini.ServiceMeetsHeadlessIff | models.go:107-115 | a service name equals a headless name exactly when the first app name is the second followed by "-headless" |
| Naming.Sanitize | k8s/statefulset_test.go:150-160 | the kept name has only `[a-z0-9]` and is no longer than the app name |
| Naming.SanitizeEmptyIff | k8s/statefulset_test.go:150-160 | nothing survives exactly when the app name has no ASCII letter or digit |
| Naming.SanitizeIdempotent | k8s/statefulset_test.go:111-114 | sanitizing an already sanitized name changes nothing |
| Naming.FallbackIff | k8s/statefulset_test.go:150-160 | the GUID fallback name is used exactly when no character of the app name survives; otherwise the name is sanitized app, lower-cased space and token |
| Naming.StatefulSetName | k8s/statefulset_test.go:68 | every name ends in "-" followed by the hasher's token |
| Naming.TokenSeparatesNames | k8s/statefulset_test.go:68 | for one app, space and GUID, two tokens give the same name if and only if they are the same token |
| Naming.NameStartsWithApp | k8s/statefulset_test.go:111-114 | a name whose app name starts with an ASCII letter or digit starts with that character, lower-cased |
| Naming.NameOfPlainApp | k8s/statefulset_test.go:647-650 | for an app name of ASCII letters and digits, the name is the lower-cased "app-space" followed by "-" and the token |
| Naming.BaldurName | k8s/statefulset_test.go:111-114 | "Baldur" in "space-foo" with token "random" is named "baldur-space-foo-random" |
| Naming.CyrillicName | k8s/statefulset_test.go:157-160 | "Балдър" falls back to "guid_1234-random" |
| StatefulSets.ToInt32Fixes | k8s/statefulset_test.go:635 | the int32 conversion of the target count keeps it exactly when it is in int32 range |
| StatefulSets.Translate | k8s/statefulset_test.go:598-711 | the record has exactly one container and carries the LRP's guid and version labels, so a lookup by the LRP's identifier selects it |
| StatefulSets.FromRecord | k8s/statefulset_test.go:171-189 | the identifier read back is the one the record's labels select; env, CPU weight and running count read back empty; exactly the six metadata keys come back; one port per container port |
| StatefulSets.TranslateLabels | k8s/statefulset_test.go:692-704 | set, template and selector carry guid, version and source_type=APP; set and template carry the rootfs version; the selector has exactly those three labels |
| StatefulSets.TranslateAnnotations | k8s/statefulset_test.go:706-708 | set annotations are the metadata plus "routes" := application_uris and space_name := space; template annotations are the process guid and app id |
| StatefulSets.TranslatePodSpec | k8s/statefulset_test.go:633-684 | one container "opi" with image and command, pull policy Always, parallel pod management, no token automount, one port per port in order, memory as limit and request in "M", CPU as request in "m", one volume and mount per volume mount named by its claim |
| StatefulSets.TranslateEnv | k8s/statefulset_test.go:599-627 | the env is each app variable exactly once as a literal, then POD_NAME, CF_INSTANCE_IP and CF_INSTANCE_INTERNAL_IP |
| StatefulSets.TranslateInverse | k8s/statefulset_test.go:171-189 | reading back a translated LRP gives its preserved part: env, CPU weight and running count come back empty, and only the six metadata keys return |
| StatefulSets.PreservedIff | k8s/statefulset_test.go:171-189 | an LRP is its own preserved part if and only if it is reconstructible |
| StatefulSets.RoundTrip | k8s/statefulset_test.go:171-189 | Get of a translated reconstructible LRP returns that LRP |
| StatefulSets.Fixture | k8s/statefulset_test.go:735-767 | the tests' LRP has identifier guid_1234/version_1234, the given app name and exactly the six metadata keys, and survives the round trip |
| StatefulSets.FixtureRoundTrip | k8s/statefulset_test.go:735-767 | every LRP built by the tests' createLRP comes back unchanged |
| StatefulSets.MapToEnvVar | k8s/statefulset_test.go:599 | the loop over the env map yields one literal variable per map entry: as many variables as keys, each key exactly once, each with that key's value |
| StatefulSets.CreatePorts | k8s/statefulset_test.go:628-631 | one container port per declared port, in order |
| StatefulSets.CreateVolumeSpecs | k8s/statefulset_test.go:713-733 | one claim volume and one mount per volume mount, in order, named by the claim |
| StatefulSets.ToStatefulSet | k8s/statefulset_test.go:598-711 | the step-by-step build equals `Translate` for the env order taken; it carries the generated name, and reading it back gives the LRP's preserved part |
| StatefulSets.AliasedTranslationBreaksReuse | k8s/statefulset_test.go:706-708 | with the annotation map aliased to the metadata, the caller's LRP gains keys and no longer equals what Get returns |
| Instances.InstanceStatus | k8s/statefulset_test.go:426-565 | the whole table, in both directions: UNCLAIMED with the memory placement error exactly when scheduling failed for memory; otherwise CLAIMED exactly when pending or running but not ready, CRASHED exactly when not claimed and the observed container is terminated or waiting, RUNNING exactly when none of these and the observed container is running and ready, UNKNOWN in every other case |
| Instances.StatusTableScenarios | k8s/statefulset_test.go:426-537 | pending or running-not-ready is CLAIMED; terminated or waiting is CRASHED; phase unknown or no container status is UNKNOWN; running and ready is RUNNING |
| Instances.InsufficientMemoryScenario | k8s/statefulset_test.go:539-565 | the memory scheduling event gives UNCLAIMED with "Insufficient resources: memory" |
| Instances.ParseIndex | k8s/statefulset_test.go:570-572 | a pod name has an index exactly when it has a '-' followed only by one or more decimal digits |
| Instances.ParseDecimal | k8s/statefulset_test.go:572 | a string has a value exactly when it is a non-empty run of decimal digits |
| Instances.Since | k8s/statefulset_test.go:376-401 | the start time in whole nanoseconds: dividing by 10^9 gives the start second back, and it is 0 exactly when the pod has not started or started at second 0 |
| Instances.InstancesOf | k8s/statefulset_test.go:368-484 | a list has at most one instance per pod; a failure names a pod that was not killed and whose name has no index |
| Instances.ParseIndexOfName | k8s/statefulset_test.go:570-572 | a pod named `<prefix>-<n>` has index n |
| Instances.ParseDecimalString | k8s/statefulset_test.go:572 | parsing the decimal digits of n gives n |
| Instances.SelectPods | k8s/statefulset_test.go:574-577 | a pod is selected if and only if it is one of the pods and carries the identifier's labels |
| Instances.InstancesOkIff | k8s/statefulset_test.go:448-484 | the list succeeds exactly when every pod that was not killed has an index |
| Instances.InstancesReportLive | k8s/statefulset_test.go:397-424 | a successful list has one instance per pod not killed, in order, with its index, start time in nanoseconds and status |
| Instances.NoEventsKeepsAll | k8s/statefulset_test.go:397-401 | without events every pod is reported |
| Instances.AllKilledIsEmpty | k8s/statefulset_test.go:448-484 | when every pod was killed, the list is empty |
| Instances.TestPod | k8s/statefulset_test.go:570-588 | the tests' pod is named `<lrp>-<index>` and that name parses back to the index; it carries the test identifier's labels; without events it is RUNNING |
| Instances.RunningScenario | k8s/statefulset_test.go:397-401 | two running pods started at 123 s and 456 s are RUNNING since 123000000000 and 456000000000 |
| Instances.NotStartedScenario | k8s/statefulset_test.go:403-424 | a pod without a start time reports 0 |
| Instances.KilledScenario | k8s/statefulset_test.go:448-484 | Killing events for both pods leave nothing to report |
| Desirer.Locate | k8s/statefulset_test.go:54-60 | a found record carries the identifier's labels; any error is NotFound or Ambiguous |
| Desirer.MatchingIndices | k8s/statefulset_test.go:54-60 | exactly the matching records' indices, in increasing order |
| Desirer.LocateNotFound | k8s/statefulset_test.go:191-199 | NotFound if and only if no record carries the identifier's labels |
| Desirer.LocateUnique | k8s/statefulset_test.go:171-189 | the lookup finds record i if and only if i is the only matching record |
| Desirer.LocateAmbiguous | k8s/statefulset_test.go:54-60 | Ambiguous if and only if two different records match |
| Desirer.AppendLocate | k8s/statefulset_test.go:137-147 | a new matching record is found when none matched before, and makes the lookup ambiguous when one did |
| Desirer.RemovedIsGone | k8s/statefulset_test.go:349-354 | after removing the one matching record, a lookup is NotFound |
| Desirer.LabelsKeepLocate | k8s/statefulset_test.go:219-236 | a change that keeps a record's labels keeps what every lookup finds |
| Desirer.GetAfterUpdate | k8s/statefulset_test.go:219-251 | after Update, Get reads the new int32 target count and last_updated and everything else as before; "routes" holds the new application_uris; name, labels and template are unchanged |
| Desirer.ListRoundTrip | k8s/statefulset_test.go:278-308 | listing the records of reconstructible LRPs returns those LRPs in order |
| Desirer.UpdatedRecord | k8s/statefulset_test.go:219-251 | the replica count becomes the int32 target count, last_updated and routes take the LRP's values, every other annotation is kept, and name, labels, selector, policy and template are unchanged |
| Desirer.RemoveByNameAt | k8s/statefulset_test.go:349-354 | with distinct names, deleting record i's name removes exactly index i |
| Desirer.ReplaceByNameAt | k8s/statefulset_test.go:219-236 | with distinct names, updating by record i's name replaces exactly index i |
| Desirer.StatefulSetDesirer.CreateStatefulSet | k8s/statefulset_test.go:137-142 | a create fails with AlreadyExists exactly when the name is taken and then changes nothing; otherwise it appends the record |
| Desirer.StatefulSetDesirer.FailLists | k8s/statefulset_test.go:325-331 | after the reactor is installed every list fails; the store is unchanged |
| Desirer.StatefulSetDesirer.Desire | k8s/statefulset_test.go:86-147 | each probe creator is called once; AlreadyExists exactly when a record of the generated name is stored, with the store unchanged; otherwise the translated record is appended; names stay distinct |
| Desirer.StatefulSetDesirer.Get | k8s/statefulset_test.go:164-199 | a failing list is an infrastructure error; otherwise the lookup's error, or the LRP read back from the one matching record |
| Desirer.StatefulSetDesirer.List | k8s/statefulset_test.go:271-339 | an error exactly when listing fails; otherwise every record read back, in order |
| Desirer.StatefulSetDesirer.Update | k8s/statefulset_test.go:203-268 | on any error the store is unchanged and the error is the lookup's; otherwise only the matching record changes, to the updated record, and lookups find the same record |
| Desirer.StatefulSetDesirer.Stop | k8s/statefulset_test.go:341-366 | on any error the store is unchanged; otherwise exactly the matching record is removed and a lookup is then NotFound |
| Desirer.StatefulSetDesirer.GetInstances | k8s/statefulset_test.go:368-567 | the result is the instance list of the pods carrying the identifier's labels, in pod order |
| Scenarios.DesireScenario | k8s/statefulset_test.go:86-114 | Desire of "Baldur" succeeds, names the record "baldur-space-foo-random" and calls each probe creator once |
| Scenarios.RedeployScenario | k8s/statefulset_test.go:137-147 | Desire of an LRP whose record is stored fails with AlreadyExists |
| Scenarios.FallbackNameScenario | k8s/statefulset_test.go:150-160 | Desire of "Балдър" succeeds with the name "guid_1234-random" |
| Scenarios.GetScenario | k8s/statefulset_test.go:164-189 | Get returns the LRP the record was built from |
| Scenarios.GetMissingScenario | k8s/statefulset_test.go:191-199 | Get of an unknown identifier is NotFound |
| Scenarios.UpdateScenario | k8s/statefulset_test.go:219-251 | Update with five instances sets replicas to 5; Update with new application_uris stores them verbatim under "routes" |
| Scenarios.UpdateMissingScenario | k8s/statefulset_test.go:253-268 | Update of an LRP without a record is NotFound and the store stays empty |
| Scenarios.ListScenario | k8s/statefulset_test.go:278-308 | List returns the three stored LRPs "odin", "thor" and "mimir" |
| Scenarios.ListStored | k8s/statefulset_test.go:278-308 | for any LRPs that survive the round trip and whose records have distinct names, List on the store they were created in returns them, in order |
| Scenarios.CreateAll | k8s/statefulset_test.go:291-295 | creating records with distinct names one after another stores exactly those records, in order |
| Scenarios.DistinctFirstLetters | k8s/statefulset_test.go:278-289 | test LRPs whose app names start with different lower-case letters get records with different names |
| Scenarios.ListEmptyScenario | k8s/statefulset_test.go:310-339 | List on an empty store is empty; with a failing list it is an error |
| Scenarios.StopScenario | k8s/statefulset_test.go:341-354 | Stop removes the record |
| Scenarios.StopUnknownScenario | k8s/statefulset_test.go:356-365 | Stop of the empty identifier is NotFound and keeps the record |
| Scenarios.GetInstancesScenario | k8s/statefulset_test.go:368-484 | two running pods are reported RUNNING with their indices and start times; after Killing events nothing is reported |

## Left out

- `k8s/statefulset.go`, the desirer's own implementation, is not part of this model. Its behaviour is taken from the tests' assertions.
- The hasher's error path is not modelled. The hasher is a function from the LRP's identifier to a token. What the desirer passes to it is not part of this model; the tests stub it to "random".
- The probe creators are the probes they return. Their argument, the LRP, is not used.
- `resource.ParseQuantity` and its panic are not modelled. Memory and CPU are integers tagged with their unit.
- Naming.ToLower folds ASCII letters only. Go's `strings.ToLower` also folds other scripts. That matters for a non-ASCII space name, and for the app name too: Go maps the Kelvin sign U+212A to 'k', which then survives sanitizing, while the model drops it.
- Instances.InstanceStatus checks CLAIMED before "phase Unknown or no container status". So a Pending pod without container statuses is CLAIMED, and so is a pod in phase Unknown whose container is running but not ready. This order is the model's own choice: the cases at `k8s/statefulset_test.go:486-537` never combine these conditions.
- Go's nil maps and slices are modelled as empty ones. A write into a nil annotation map, which would panic in Go, cannot happen.
- StatefulSets.FromRecord requires a record with a container. Go would panic on `Containers[0]`. Every record the desirer or the tests create has one, which the class invariant states.
- Instances.ParseIndex accepts decimal digits only. Go's `strconv.Atoi` also accepts a leading "+".
- Instances.Since does not model the int64 overflow of nanosecond start times.
- Failures of the pod and event list calls are not modelled. Only the stateful-set list fails, as in the tests.
- StopInstance and the creation of internal services are not modelled. No test of the desirer covers them.
- Identifiers are not validated. An empty identifier simply matches no record.
- The namespace, contexts, cancellation and concurrency are not modelled. The store is one namespace, changed atomically by each call.
- `Eventually` polling is not modelled. Each store change is immediate.
- Desirer.Locate: the distinct `Ambiguous` error for two or more matching records is the model's own choice. No test stores two records with one identifier, and the implementation may report NotFound or act on the first match instead.
- Desirer.UpdatedRecord: writing `last_updated` and keeping every other annotation is the model's own choice. The tests read back only the replica count and `routes`.
- Naming.Sanitize: falling back to the GUID only when no character of the app name survives is the model's own choice. The one fallback test (`k8s/statefulset_test.go:150-160`) has no ASCII letter or digit at all, so a rule that falls back whenever any character is unsupported fits the tests as well.
- Desirer.StatefulSetDesirer.List states order-preserving equality. The tests compare as a multiset, which this implies.

## Findings

| source | as written | input that shows it | evidently intended | confidence | as-written member | corrected member |
|---|---|---|---|---|---|---|
| k8s/statefulset_test.go:706-708 | the record's annotation map is the caller's metadata map, so writing "routes" and "space_name" into it changes the caller's LRP | createLRP("Baldur", "1234.5", "my.example.route") translated and then compared with what Get returns | the annotations are a copy: the caller's LRP is unchanged and equals what Get returns | not executed | StatefulSets.AliasedTranslationBreaksReuse | StatefulSets.RoundTrip |

/** The platform's records: the desired-state LRP, its identifier, and the
    observed-state Instance that GetInstances reports. Also the metadata keys
    the platform (package cf) puts into an LRP's metadata map. */
module Opi {

  datatype Option<+T> = None | Some(value: T)

  /** The error kinds the desirer distinguishes. */
  datatype Error =
    | NotFound                 // no workload record carries the identifier's labels
    | Ambiguous                // more than one workload record carries them
    | AlreadyExists            // a workload record with the generated name is stored
    | InfrastructureError      // the cluster's list call failed
    | InvalidPodName(name: string)  // no instance index can be read from a pod name

  datatype Result<+T> = Ok(value: T) | Err(error: Error)

  /** {GUID, Version}: the identity of one desired-state generation. */
  datatype LRPIdentifier = LRPIdentifier(guid: string, version: string)

  datatype VolumeMount = VolumeMount(claimName: string, mountPath: string)

  /** A long-running process as the platform desires it. */
  datatype LRP = LRP(
    id: LRPIdentifier,
    appName: string,
    spaceName: string,
    image: string,
    command: seq<string>,
    env: map<string, string>,
    ports: seq<int>,
    targetInstances: int,
    runningInstances: int,
    memoryMB: int,
    cpuWeight: int,
    metadata: map<string, string>,
    volumeMounts: seq<VolumeMount>)

  datatype InstanceState = Running | Claimed | Crashed | Unclaimed | Unknown

  /** One observed replica: its index, the nanosecond start time (0 when not
      yet started), its state and a placement error ("" when there is none). */
  datatype Instance = Instance(index: nat, since: int, state: InstanceState, placementError: string)

  /** Go's map index expression: the stored value, or "" for a missing key. */
  function Lookup(m: map<string, string>, k: string): string {
    if k in m then m[k] else ""
  }

  // Metadata keys of the platform (package cf).
  const ProcessGUID := "process_guid"
  const LastUpdated := "last_updated"
  const VcapAppUris := "application_uris"
  const VcapAppName := "application_name"
  const VcapAppID := "application_id"
  const VcapVersion := "version"
  const VcapSpaceName := "space_name"

  /** The six metadata keys an LRP read back from a workload record carries. */
  const MetadataKeys: set<string> :=
    {ProcessGUID, LastUpdated, VcapAppUris, VcapAppName, VcapAppID, VcapVersion}
}

/** Spawning a machine's containers (BE/internal/machine/docker.go): resources are acquired
    one call after the other, any call may fail, and a failure undoes what was acquired. */
module DockerSpawn {
  import opened Wrappers

  type ContainerId = nat

  datatype Container = Container(name: string, image: string, machine: nat, serviceType: string, volume: Option<string>)

  datatype Network = Network(isInternal: bool, labels: map<string, string>)

  datatype Volume = Volume(driver: string, labels: map<string, string>, size: nat)

  datatype Connection = Connection(network: string, container: ContainerId)

  /** What the daemon holds. */
  datatype World = World(
    containers: map<ContainerId, Container>, networks: map<string, Network>, connections: set<Connection>, volumes: map<string, Volume>)

  datatype Service = Service(key: string, serviceType: string, containerName: string, image: string)

  datatype Spec = Spec(machine: nat, routingKey: string, diskGB: int, services: seq<Service>) {
    /** The unique index on (machine_id, service_key). */
    ghost predicate Valid() {
      && (forall i, j :: 0 <= i < j < |services| ==> services[i].key != services[j].key)
      && NetworkName(this) != EgressNetwork
    }
  }

  datatype SpawnError =
    | NetworkFailed | EgressNetworkFailed | VolumeFailed | PrepareFailed | GatewayRequired | GatewayFailed
    | ServiceFailed(key: string) | EgressAttachFailed | TerminalWithoutIde

  datatype Spawned = Spawned(network: string, volume: string, containers: map<string, ContainerId>)

  const EgressNetwork: string := "kuayle-machine-egress"

  function NetworkName(spec: Spec): string { "kuayle-machine-" + spec.routingKey }

  function VolumeName(spec: Spec): string { "kuayle-workspace-" + spec.routingKey }

  function Labels(spec: Spec): map<string, string> {
    map["com.kuayle.managed" := "true", "com.kuayle.routing-key" := spec.routingKey]
  }

  const EgressLabels: map<string, string> := map["com.kuayle.kind" := "machine-egress"]

  function QuotaBytes(diskGB: int): nat {
    if diskGB <= 0 then 0 else diskGB * 1024 * 1024 * 1024
  }

  predicate HasLabels(actual: map<string, string>, wanted: map<string, string>) {
    forall k :: k in wanted ==> k in actual && actual[k] == wanted[k]
  }

  predicate ValidVolume(v: Volume, labels: map<string, string>, diskGB: int) {
    v.driver == "local" && HasLabels(v.labels, labels) && v.size == QuotaBytes(diskGB)
  }

  predicate Matches(c: Container, spec: Spec, service: Service) {
    c.image == service.image && c.machine == spec.machine && c.serviceType == service.serviceType
  }

  /** The daemon gives a name to one container only. */
  ghost predicate UniqueNames(containers: map<ContainerId, Container>) {
    forall a, b :: a in containers && b in containers && containers[a].name == containers[b].name ==> a == b
  }

  /** It lets nothing dangle: a connection has both ends, a mounted volume exists. */
  ghost predicate Consistent(w: World) {
    && UniqueNames(w.containers)
    && (forall c :: c in w.connections ==> c.container in w.containers && c.network in w.networks)
    && (forall id :: id in w.containers && w.containers[id].volume.Some? ==> w.containers[id].volume.value in w.volumes)
  }

  // ---- the record of what a spawn created ----

  datatype Journal = Journal(
    containers: map<string, ContainerId>, machineConnections: map<string, ContainerId>, egressConnections: map<string, ContainerId>,
    networkCreated: bool, volumeCreated: bool)

  const Nothing := Journal(map[], map[], map[], false, false)

  function Connections(network: string, records: map<string, ContainerId>): set<Connection> {
    set k | k in records :: Connection(network, records[k])
  }

  function Recorded(spec: Spec, j: Journal): set<Connection> {
    Connections(NetworkName(spec), j.machineConnections) + Connections(EgressNetwork, j.egressConnections)
  }

  predicate Unconnected(connections: set<Connection>, network: string) {
    forall c :: c in connections ==> c.network != network
  }

  predicate Unmounted(containers: map<ContainerId, Container>, volume: string) {
    forall id :: id in containers ==> containers[id].volume != Some(volume)
  }

  /** What the deferred clean-up makes of a world. The daemon keeps a network with
      endpoints and a volume that is mounted. */
  function CleanedUp(w: World, spec: Spec, j: Journal): World {
    var containers := w.containers - j.containers.Values;
    var connections := set c | c in w.connections && c.container !in j.containers.Values && c !in Recorded(spec, j);
    World(containers,
          if j.networkCreated && Unconnected(connections, NetworkName(spec)) then w.networks - {NetworkName(spec)} else w.networks,
          connections,
          if j.volumeCreated && Unmounted(containers, VolumeName(spec)) then w.volumes - {VolumeName(spec)} else w.volumes)
  }

  /** The world is the one before, plus what the journal records, plus `leaked` connections
      whose record was lost. */
  ghost predicate Journaled(before: World, w: World, spec: Spec, j: Journal, leaked: set<Connection>) {
    && GrownContainers(before, w, j)
    && GrownConnections(before, w, spec, j, leaked)
    && GrownNetworks(before, w, spec, j)
    && GrownVolumes(before, w, spec, j)
  }

  ghost predicate GrownContainers(before: World, w: World, j: Journal) {
    && w.containers.Keys == before.containers.Keys + j.containers.Values
    && before.containers.Keys !! j.containers.Values
    && forall id :: id in before.containers ==> w.containers[id] == before.containers[id]
  }

  ghost predicate GrownConnections(before: World, w: World, spec: Spec, j: Journal, leaked: set<Connection>) {
    && before.connections + leaked + Recorded(spec, j) <= w.connections
    && leaked !! before.connections && leaked !! Recorded(spec, j) && Recorded(spec, j) !! before.connections
    && (forall c :: c in leaked ==> c.container !in j.containers.Values)
    && (forall c :: c in w.connections ==>
          c in before.connections || c in leaked || c in Recorded(spec, j) || c.container in j.containers.Values)
  }

  /** The shared egress network is created once and stays. */
  ghost predicate GrownNetworks(before: World, w: World, spec: Spec, j: Journal) {
    && (j.networkCreated ==> NetworkName(spec) !in before.networks)
    && forall n :: n != EgressNetwork && !(j.networkCreated && n == NetworkName(spec)) ==>
         (n in w.networks <==> n in before.networks) && (n in before.networks ==> w.networks[n] == before.networks[n])
  }

  ghost predicate GrownVolumes(before: World, w: World, spec: Spec, j: Journal) {
    if j.volumeCreated
    then VolumeName(spec) !in before.volumes && w.volumes - {VolumeName(spec)} == before.volumes
    else w.volumes == before.volumes
  }

  /** Everything is as it was, but for the shared egress network. */
  ghost predicate Restored(before: World, after: World) {
    && after.containers == before.containers && after.connections == before.connections && after.volumes == before.volumes
    && after.networks - {EgressNetwork} == before.networks - {EgressNetwork}
  }

  /** The clean-up restores the world exactly when no record was lost. */
  lemma RollbackIsExact(before: World, w: World, spec: Spec, j: Journal, leaked: set<Connection>)
    requires Consistent(before) && Journaled(before, w, spec, j, leaked)
    ensures Restored(before, CleanedUp(w, spec, j)) <==> leaked == {}
    ensures CleanedUp(w, spec, j).containers == before.containers
    ensures CleanedUp(w, spec, j).connections == before.connections + leaked
    ensures CleanedUp(w, spec, j).volumes == before.volumes
  {
    CleanConnections(before, w, spec, j, leaked);
    var after := CleanedUp(w, spec, j);
    assert after.containers == before.containers;
    CleanVolumes(before, w, spec, j);
    if leaked == {} {
      CleanNetworks(before, w, spec, j);
    }
  }

  lemma CleanConnections(before: World, w: World, spec: Spec, j: Journal, leaked: set<Connection>)
    requires Consistent(before) && Journaled(before, w, spec, j, leaked)
    ensures CleanedUp(w, spec, j).connections == before.connections + leaked
  {}

  lemma CleanVolumes(before: World, w: World, spec: Spec, j: Journal)
    requires Consistent(before) && GrownContainers(before, w, j) && GrownVolumes(before, w, spec, j)
    ensures CleanedUp(w, spec, j).volumes == before.volumes
  {
    if j.volumeCreated {
      forall id | id in w.containers - j.containers.Values
        ensures w.containers[id].volume != Some(VolumeName(spec))
      {
        assert id in before.containers;
      }
    }
  }

  lemma CleanNetworks(before: World, w: World, spec: Spec, j: Journal)
    requires Consistent(before) && Journaled(before, w, spec, j, {})
    ensures CleanedUp(w, spec, j).networks - {EgressNetwork} == before.networks - {EgressNetwork}
  {
    CleanConnections(before, w, spec, j, {});
    if j.networkCreated {
      assert Unconnected(before.connections, NetworkName(spec));
    }
  }

  // ---- how each acquisition extends the journal ----

  lemma JournalStarts(w: World, spec: Spec)
    ensures Journaled(w, w, spec, Nothing, {})
  {}

  lemma JournalNetwork(before: World, w: World, spec: Spec, j: Journal, network: Network)
    requires Journaled(before, w, spec, j, {}) && !j.networkCreated && NetworkName(spec) !in w.networks && NetworkName(spec) != EgressNetwork
    ensures Journaled(before, w.(networks := w.networks[NetworkName(spec) := network]), spec, j.(networkCreated := true), {})
  {}

  lemma JournalEgressNetwork(before: World, w: World, spec: Spec, j: Journal, network: Network)
    requires Journaled(before, w, spec, j, {})
    ensures Journaled(before, w.(networks := w.networks[EgressNetwork := network]), spec, j, {})
  {}

  lemma JournalVolume(before: World, w: World, spec: Spec, j: Journal, volume: Volume)
    requires Journaled(before, w, spec, j, {}) && !j.volumeCreated && VolumeName(spec) !in w.volumes
    ensures Journaled(before, w.(volumes := w.volumes[VolumeName(spec) := volume]), spec, j.(volumeCreated := true), {})
  {}

  lemma JournalContainer(before: World, w: World, spec: Spec, j: Journal, leaked: set<Connection>, key: string, id: ContainerId, c: Container)
    requires Journaled(before, w, spec, j, leaked) && id !in w.containers && key !in j.containers
    requires forall d :: d in w.connections ==> d.container in w.containers
    ensures Journaled(before, w.(containers := w.containers[id := c], connections := w.connections + {Connection(NetworkName(spec), id)}),
                      spec, j.(containers := j.containers[key := id]), leaked)
  {
    var after := j.containers[key := id];
    assert after.Values == j.containers.Values + {id} by {
      assert after[key] == id;
      forall k | k in j.containers
        ensures j.containers[k] in after.Values
      {
        assert after[k] == j.containers[k];
      }
    }
  }

  lemma ConnectionsAfter(network: string, records: map<string, ContainerId>, key: string, id: ContainerId)
    requires forall k :: k in records && k != key && key in records ==> records[k] != records[key]
    ensures Connections(network, records[key := id]) ==
            Connections(network, records) - (if key in records then {Connection(network, records[key])} else {}) + {Connection(network, id)}
  {
    var after := records[key := id];
    forall k | k in records && k != key
      ensures Connection(network, records[k]) in Connections(network, after)
    {
      assert after[k] == records[k];
    }
    assert after[key] == id;
  }

  /** Recording a connection under a key that is taken loses the older record. */
  lemma JournalConnection(before: World, w: World, spec: Spec, j: Journal, leaked: set<Connection>, key: string, id: ContainerId)
    requires Journaled(before, w, spec, j, leaked) && NetworkName(spec) != EgressNetwork
    requires Connection(NetworkName(spec), id) !in w.connections
    requires key in j.machineConnections ==>
               && j.machineConnections[key] in before.containers
               && (forall k :: k in j.machineConnections && k != key ==> j.machineConnections[k] != j.machineConnections[key])
    ensures Journaled(before, w.(connections := w.connections + {Connection(NetworkName(spec), id)}), spec,
                      j.(machineConnections := j.machineConnections[key := id]),
                      leaked + if key in j.machineConnections then {Connection(NetworkName(spec), j.machineConnections[key])} else {})
  {
    ConnectionsAfter(NetworkName(spec), j.machineConnections, key, id);
  }

  lemma JournalEgressConnection(before: World, w: World, spec: Spec, j: Journal, leaked: set<Connection>, key: string, id: ContainerId)
    requires Journaled(before, w, spec, j, leaked) && key !in j.egressConnections
    requires Connection(EgressNetwork, id) !in w.connections
    ensures Journaled(before, w.(connections := w.connections + {Connection(EgressNetwork, id)}), spec,
                      j.(egressConnections := j.egressConnections[key := id]), leaked)
  {
    ConnectionsAfter(EgressNetwork, j.egressConnections, key, id);
  }

  /** A connection of a container the spawn created needs no record. */
  lemma JournalOwnConnection(before: World, w: World, spec: Spec, j: Journal, leaked: set<Connection>, c: Connection)
    requires Journaled(before, w, spec, j, leaked) && c.container in j.containers.Values
    ensures Journaled(before, w.(connections := w.connections + {c}), spec, j, leaked)
  {}

  // ---- when a record can be lost ----

  predicate NetworkFits(networks: map<string, Network>, name: string, isInternal: bool, labels: map<string, string>) {
    name in networks ==> networks[name].isInternal == isInternal && HasLabels(networks[name].labels, labels)
  }

  predicate NetworksFit(networks: map<string, Network>, spec: Spec) {
    NetworkFits(networks, NetworkName(spec), true, Labels(spec)) && NetworkFits(networks, EgressNetwork, false, EgressLabels)
  }

  /** The image of the first collector, which prepares the workspace volume. */
  function InitImage(services: seq<Service>): string {
    if services == [] then "" else if services[0].serviceType == "collector" then services[0].image else InitImage(services[1..])
  }

  /** Nothing about the networks and the volume makes the spawn fail for certain. */
  predicate Preparable(w: World, spec: Spec) {
    && spec.diskGB > 0 && InitImage(spec.services) != "" && NetworksFit(w.networks, spec)
    && (VolumeName(spec) in w.volumes ==> ValidVolume(w.volumes[VolumeName(spec)], Labels(spec), spec.diskGB))
  }

  /** The machine's network is closed, the shared one is open, and the volume is the machine's. */
  predicate NetworksReady(networks: map<string, Network>, spec: Spec) {
    && NetworkName(spec) in networks && networks[NetworkName(spec)].isInternal && HasLabels(networks[NetworkName(spec)].labels, Labels(spec))
    && EgressNetwork in networks && !networks[EgressNetwork].isInternal && HasLabels(networks[EgressNetwork].labels, EgressLabels)
  }

  predicate VolumeReady(volumes: map<string, Volume>, spec: Spec) {
    VolumeName(spec) in volumes && ValidVolume(volumes[VolumeName(spec)], Labels(spec), spec.diskGB)
  }

  predicate Named(containers: map<ContainerId, Container>, name: string) {
    exists id :: id in containers && containers[id].name == name
  }

  /** A container of that name is the service's, or it can be created. */
  predicate Placeable(containers: map<ContainerId, Container>, spec: Spec, service: Service) {
    && (forall id :: id in containers && containers[id].name == service.containerName ==> Matches(containers[id], spec, service))
    && (service.image != "" || Named(containers, service.containerName))
  }

  /** Services whose containers have one name ask for the same container. */
  predicate Agree(a: Service, b: Service) {
    a.containerName == b.containerName ==> a.image == b.image && a.serviceType == b.serviceType
  }

  predicate Ordinary(spec: Spec, n: int) {
    0 <= n < |spec.services| && spec.services[n].serviceType != "terminal"
  }

  /** The service at this position is keyed "gateway" and this container of its own exists,
      off the machine's network. */
  predicate KeyedGateway(w: World, spec: Spec, n: nat, id: ContainerId) {
    && Ordinary(spec, n) && spec.services[n].key == "gateway"
    && id in w.containers && w.containers[id].name == spec.services[n].containerName
    && Connection(NetworkName(spec), id) !in w.connections
  }

  /** Services up to this one that name the same container agree on it. */
  predicate AllAgree(spec: Spec, n: nat) {
    forall k, l :: 0 <= k < l <= n && Ordinary(spec, k) && Ordinary(spec, l) ==> Agree(spec.services[k], spec.services[l])
  }

  /** The services from one position to another can be placed. */
  predicate PlaceableFrom(containers: map<ContainerId, Container>, spec: Spec, from: nat, to: nat) {
    forall k :: from <= k <= to && Ordinary(spec, k) ==> Placeable(containers, spec, spec.services[k])
  }

  /** The gateway and the container of a service keyed "gateway" both have to be attached. */
  predicate Culprit(w: World, spec: Spec, gateway: ContainerId, n: nat, id: ContainerId) {
    && gateway in w.containers && Connection(NetworkName(spec), gateway) !in w.connections && id != gateway
    && KeyedGateway(w, spec, n, id) && AllAgree(spec, n) && PlaceableFrom(w.containers, spec, 0, n)
  }

  /** What a caller can look at before the spawn: may it lose the record of the gateway's
      connection? */
  ghost predicate Endangered(w: World, spec: Spec, gateway: Option<ContainerId>) {
    gateway.Some? && Preparable(w, spec) && exists n: nat, id :: Culprit(w, spec, gateway.value, n, id)
  }

  /** The service's container. */
  ghost predicate HostedBy(w: World, spec: Spec, service: Service, id: ContainerId) {
    id in w.containers && w.containers[id].name == service.containerName && Matches(w.containers[id], spec, service)
  }

  /** The first n services have their containers, and those of them that were created are
      known. */
  ghost predicate Housed(w: World, spec: Spec, n: nat, created: set<ContainerId>)
    requires n <= |spec.services|
  {
    && (forall k :: 0 <= k < n && Ordinary(spec, k) ==> exists id :: HostedBy(w, spec, spec.services[k], id))
    && (forall id :: id in created ==>
          id in w.containers && w.containers[id].image != "" && Connection(NetworkName(spec), id) in w.connections)
  }

  /** A world with more containers and connections. */
  ghost predicate Grown(a: World, b: World) {
    (forall id :: id in a.containers ==> id in b.containers && b.containers[id] == a.containers[id]) && a.connections <= b.connections
  }

  lemma HousedNext(a: World, b: World, spec: Spec, n: nat, created: set<ContainerId>, id: ContainerId, isNew: bool)
    requires n < |spec.services| && Housed(a, spec, n, created) && Grown(a, b)
    requires Ordinary(spec, n) ==> HostedBy(b, spec, spec.services[n], id)
    requires isNew ==> Ordinary(spec, n) && b.containers[id].image != "" && Connection(NetworkName(spec), id) in b.connections
    ensures Housed(b, spec, n + 1, if isNew then created + {id} else created)
  {
    forall k | 0 <= k < n && Ordinary(spec, k)
      ensures exists i :: HostedBy(b, spec, spec.services[k], i)
    {
      var i :| HostedBy(a, spec, spec.services[k], i);
      assert HostedBy(b, spec, spec.services[k], i);
    }
  }

  /** The container that houses an earlier service, seen from before the spawn. */
  lemma HousedPlaceable(before: World, w: World, spec: Spec, j: Journal, n: nat, k: nat)
    requires Consistent(w) && n <= |spec.services| && Housed(w, spec, n, j.containers.Values) && GrownContainers(before, w, j)
    requires k < n && Ordinary(spec, k)
    ensures Placeable(before.containers, spec, spec.services[k])
  {
    var id :| HostedBy(w, spec, spec.services[k], id);
    if id in before.containers {
      assert Named(before.containers, spec.services[k].containerName);
    } else {
      assert id in j.containers.Values;
    }
  }

  lemma HousedAgree(w: World, spec: Spec, a: Service, b: Service, c: ContainerId, d: ContainerId)
    requires Consistent(w) && HostedBy(w, spec, a, c) && d in w.containers && w.containers[d].name == b.containerName && Matches(w.containers[d], spec, b)
    ensures Agree(a, b)
  {}

  /** A record is lost only by a culprit. */
  lemma LosingIsEndangered(before: World, w: World, spec: Spec, gateway: ContainerId, n: nat, j: Journal, id: ContainerId)
    requires Consistent(w) && n < |spec.services| && Preparable(before, spec) && Housed(w, spec, n, j.containers.Values)
    requires GrownContainers(before, w, j) && before.connections <= w.connections
    requires gateway in before.containers && Connection(NetworkName(spec), gateway) !in before.connections
    requires Connection(NetworkName(spec), gateway) in w.connections && Connection(NetworkName(spec), id) !in w.connections
    requires Ordinary(spec, n) && spec.services[n].key == "gateway"
    requires id in w.containers && w.containers[id].name == spec.services[n].containerName && Matches(w.containers[id], spec, spec.services[n])
    ensures Endangered(before, spec, Some(gateway))
  {
    assert id in before.containers && Named(before.containers, spec.services[n].containerName);
    HousedReach(before, w, spec, n, j, id);
    assert Culprit(before, spec, gateway, n, id);
  }

  lemma HousedReach(before: World, w: World, spec: Spec, n: nat, j: Journal, id: ContainerId)
    requires Consistent(w) && n < |spec.services| && Housed(w, spec, n, j.containers.Values) && GrownContainers(before, w, j)
    requires Ordinary(spec, n) && id in before.containers && before.containers[id].name == spec.services[n].containerName
    requires Matches(before.containers[id], spec, spec.services[n]) && Connection(NetworkName(spec), id) !in w.connections
    ensures AllAgree(spec, n) && PlaceableFrom(before.containers, spec, 0, n)
  {
    hide Agree, Consistent, Placeable, Matches, GrownContainers;
    forall k | 0 <= k < n && Ordinary(spec, k)
      ensures Placeable(before.containers, spec, spec.services[k])
      ensures Agree(spec.services[k], spec.services[n])
      ensures forall l :: k < l < n && Ordinary(spec, l) ==> Agree(spec.services[k], spec.services[l])
    {
      HousedPlaceable(before, w, spec, j, n, k);
      var c :| HostedBy(w, spec, spec.services[k], c);
      Persists(before, w, j, id);
      HousedAgree(w, spec, spec.services[k], spec.services[n], c, id);
      forall l | k < l < n && Ordinary(spec, l)
        ensures Agree(spec.services[k], spec.services[l])
      {
        var d :| HostedBy(w, spec, spec.services[l], d);
        HousedAgree(w, spec, spec.services[k], spec.services[l], c, d);
      }
    }
    OwnPlaceable(before, w, spec, j, spec.services[n], id);
  }

  lemma Persists(before: World, w: World, j: Journal, id: ContainerId)
    requires GrownContainers(before, w, j) && id in before.containers
    ensures id in w.containers && w.containers[id] == before.containers[id]
  {}

  lemma OwnPlaceable(before: World, w: World, spec: Spec, j: Journal, service: Service, id: ContainerId)
    requires Consistent(w) && GrownContainers(before, w, j)
    requires id in before.containers && before.containers[id].name == service.containerName && Matches(before.containers[id], spec, service)
    ensures Placeable(before.containers, spec, service)
  {}

  // ---- the loop over the services ----

  predicate KeyBefore(spec: Spec, n: nat, key: string)
    requires n <= |spec.services|
  {
    exists k :: 0 <= k < n && spec.services[k].key == key
  }

  /** A service other than a terminal used the key under which the gateway's connection is recorded. */
  predicate GatewayKeyed(spec: Spec, n: nat)
    requires n <= |spec.services|
  {
    exists k :: 0 <= k < n && spec.services[k].key == "gateway" && spec.services[k].serviceType != "terminal"
  }

  /** What is left behind when a record is lost: the gateway's connection, and only in an
      endangered world. */
  ghost predicate LostRecord(before: World, spec: Spec, gateway: Option<ContainerId>, leaked: set<Connection>) {
    gateway.Some? && leaked == {Connection(NetworkName(spec), gateway.value)} && Endangered(before, spec, gateway)
  }

  /** The journal when the first n services have been dealt with. */
  ghost predicate Progress(before: World, w: World, spec: Spec, gateway: Option<ContainerId>, n: nat, j: Journal, leaked: set<Connection>)
    requires n <= |spec.services|
  {
    && Journaled(before, w, spec, j, leaked)
    && (forall key :: key in j.containers || key in j.egressConnections ==> KeyBefore(spec, n, key))
    && (forall key :: key in j.machineConnections ==> key == "gateway" || KeyBefore(spec, n, key))
    && (forall k, l :: k in j.machineConnections && l in j.machineConnections && j.machineConnections[k] == j.machineConnections[l] ==> k == l)
    && (leaked != {} ==> LostRecord(before, spec, gateway, leaked) && GatewayKeyed(spec, n))
    && ("gateway" in j.machineConnections && !GatewayKeyed(spec, n) ==>
          gateway == Some(j.machineConnections["gateway"]) && gateway.value in before.containers && leaked == {})
  }

  lemma ProgressStarts(before: World, w: World, spec: Spec, gateway: Option<ContainerId>, j: Journal)
    requires Journaled(before, w, spec, j, {}) && j.containers == map[] && j.egressConnections == map[]
    requires j.machineConnections == map[] ||
             (gateway.Some? && gateway.value in before.containers && j.machineConnections == map["gateway" := gateway.value])
    ensures Progress(before, w, spec, gateway, 0, j, {})
  {}

  lemma KeyIsNew(spec: Spec, n: nat)
    requires spec.Valid() && n < |spec.services|
    ensures !KeyBefore(spec, n, spec.services[n].key)
    ensures forall key :: KeyBefore(spec, n, key) ==> KeyBefore(spec, n + 1, key)
    ensures KeyBefore(spec, n + 1, spec.services[n].key)
    ensures GatewayKeyed(spec, n + 1) <==> GatewayKeyed(spec, n) || (spec.services[n].key == "gateway" && spec.services[n].serviceType != "terminal")
    ensures spec.services[n].key == "gateway" ==> !GatewayKeyed(spec, n)
  {
    assert KeyBefore(spec, n + 1, spec.services[n].key) by {
      assert spec.services[n].key == spec.services[n].key;
    }
  }

  lemma ProgressNothingNew(before: World, w: World, spec: Spec, gateway: Option<ContainerId>, n: nat, j: Journal, leaked: set<Connection>)
    requires spec.Valid() && n < |spec.services| && Progress(before, w, spec, gateway, n, j, leaked)
    ensures Progress(before, w, spec, gateway, n + 1, j, leaked)
  {
    hide Journaled, GatewayKeyed, KeyBefore, Endangered;
    KeyIsNew(spec, n);
  }

  lemma ProgressCreated(
    before: World, w: World, spec: Spec, gateway: Option<ContainerId>, n: nat, j: Journal, leaked: set<Connection>, id: ContainerId, c: Container)
    requires spec.Valid() && n < |spec.services| && Progress(before, w, spec, gateway, n, j, leaked)
    requires id !in w.containers && Consistent(w)
    ensures Progress(before, w.(containers := w.containers[id := c], connections := w.connections + {Connection(NetworkName(spec), id)}),
                     spec, gateway, n + 1, j.(containers := j.containers[spec.services[n].key := id]), leaked)
  {
    KeyIsNew(spec, n);
    JournalContainer(before, w, spec, j, leaked, spec.services[n].key, id, c);
    hide Journaled, GatewayKeyed, KeyBefore, Endangered;
  }

  /** What becomes of the leaked connections when the n-th service's connection is recorded. */
  function LeakedAfter(spec: Spec, j: Journal, leaked: set<Connection>, key: string): set<Connection> {
    leaked + if key in j.machineConnections then {Connection(NetworkName(spec), j.machineConnections[key])} else {}
  }

  lemma NetworksDiffer(spec: Spec)
    requires spec.Valid()
    ensures NetworkName(spec) != EgressNetwork
  {}

  lemma ProgressAttached(
    before: World, w: World, spec: Spec, gateway: Option<ContainerId>, n: nat, j: Journal, leaked: set<Connection>, id: ContainerId)
    requires spec.Valid() && n < |spec.services| && Progress(before, w, spec, gateway, n, j, leaked)
    requires spec.services[n].serviceType != "terminal" && Connection(NetworkName(spec), id) !in w.connections
    requires spec.services[n].key in j.machineConnections ==> Endangered(before, spec, gateway)
    ensures Progress(before, w.(connections := w.connections + {Connection(NetworkName(spec), id)}), spec, gateway, n + 1,
                     j.(machineConnections := j.machineConnections[spec.services[n].key := id]), LeakedAfter(spec, j, leaked, spec.services[n].key))
  {
    hide Journaled, GatewayKeyed, KeyBefore, Spec.Valid, Endangered;
    var key := spec.services[n].key;
    NetworksDiffer(spec);
    KeyIsNew(spec, n);
    RecordedIds(before, w, spec, j, leaked, id);
    JournalConnection(before, w, spec, j, leaked, key, id);
  }

  /** A container with an unrecorded connection is not among the recorded ones. */
  lemma RecordedIds(before: World, w: World, spec: Spec, j: Journal, leaked: set<Connection>, id: ContainerId)
    requires Journaled(before, w, spec, j, leaked) && Connection(NetworkName(spec), id) !in w.connections
    ensures forall k :: k in j.machineConnections ==> j.machineConnections[k] != id
  {
    forall k | k in j.machineConnections
      ensures j.machineConnections[k] != id
    {
      assert Connection(NetworkName(spec), j.machineConnections[k]) in Recorded(spec, j);
    }
  }

  /** The egress connection of the service just dealt with. */
  lemma ProgressEgress(
    before: World, w: World, spec: Spec, gateway: Option<ContainerId>, n: nat, j: Journal, leaked: set<Connection>, id: ContainerId, own: bool)
    requires n < |spec.services| && Progress(before, w, spec, gateway, n + 1, j, leaked) && spec.services[n].key !in j.egressConnections
    requires Connection(EgressNetwork, id) !in w.connections && (own ==> id in j.containers.Values)
    ensures Progress(before, w.(connections := w.connections + {Connection(EgressNetwork, id)}), spec, gateway, n + 1,
                     if own then j else j.(egressConnections := j.egressConnections[spec.services[n].key := id]), leaked)
  {
    if own {
      JournalOwnConnection(before, w, spec, j, leaked, Connection(EgressNetwork, id));
    } else {
      JournalEgressConnection(before, w, spec, j, leaked, spec.services[n].key, id);
      assert KeyBefore(spec, n + 1, spec.services[n].key);
    }
    hide Journaled, GatewayKeyed, KeyBefore, Endangered;
  }

  /** A record that the n-th service's connection would overwrite is the gateway's, and then
      the world was endangered. */
  lemma OverwritesGateway(
    before: World, w: World, spec: Spec, gateway: Option<ContainerId>, n: nat, j: Journal, leaked: set<Connection>, id: ContainerId)
    requires spec.Valid() && Consistent(w) && n < |spec.services| && Progress(before, w, spec, gateway, n, j, leaked)
    requires Preparable(before, spec) && Housed(w, spec, n, j.containers.Values) && spec.services[n].serviceType != "terminal"
    requires id in w.containers && w.containers[id].name == spec.services[n].containerName && Matches(w.containers[id], spec, spec.services[n])
    requires Connection(NetworkName(spec), id) !in w.connections
    ensures spec.services[n].key in j.machineConnections ==> Endangered(before, spec, gateway)
  {
    KeyIsNew(spec, n);
    if spec.services[n].key in j.machineConnections {
      assert spec.services[n].key == "gateway" && gateway == Some(j.machineConnections["gateway"]);
      RecordedIsNew(before, w, spec, j, leaked, "gateway");
      hide Endangered, Preparable, Housed, Journaled, Progress;
      LosingIsEndangered(before, w, spec, gateway.value, n, j, id);
    }
  }

  lemma RecordedIsNew(before: World, w: World, spec: Spec, j: Journal, leaked: set<Connection>, key: string)
    requires Journaled(before, w, spec, j, leaked) && key in j.machineConnections
    ensures GrownContainers(before, w, j) && before.connections <= w.connections
    ensures var c := Connection(NetworkName(spec), j.machineConnections[key]); c !in before.connections && c in w.connections
  {
    assert Connection(NetworkName(spec), j.machineConnections[key]) in Recorded(spec, j);
  }

  // ---- a spawn on its way to losing the record ----

  /** The service keyed "gateway" and its container. */
  datatype Plan = Plan(position: nat, container: ContainerId)

  /** How many of the first n services share the container of the planned one. */
  function Sharing(spec: Spec, n: nat, position: nat): nat
    requires n <= |spec.services| && position < |spec.services|
  {
    if n == 0 then 0
    else Sharing(spec, n - 1, position) +
         if Ordinary(spec, n - 1) && spec.services[n - 1].containerName == spec.services[position].containerName then 1 else 0
  }

  lemma {:induction false} SharingGrows(spec: Spec, n: nat, m: nat, position: nat)
    requires n <= m <= |spec.services| && position < |spec.services|
    ensures Sharing(spec, n, position) <= Sharing(spec, m, position)
  {
    if n < m {
      SharingGrows(spec, n, m - 1, position);
    }
  }

  /** The gateway is attached and recorded, the planned container is not attached, its earlier
      services have all `tried`, and nothing stands in the way of the services up to the
      planned one. */
  ghost predicate Approach(w: World, spec: Spec, gateway: Option<ContainerId>, plan: Plan, n: nat, j: Journal, tried: nat) {
    && gateway.Some? && n <= plan.position
    && NetworkName(spec) in w.networks && EgressNetwork in w.networks && VolumeName(spec) in w.volumes
    && gateway.value in w.containers && plan.container != gateway.value
    && Connection(NetworkName(spec), gateway.value) in w.connections
    && KeyedGateway(w, spec, plan.position, plan.container)
    && "gateway" in j.machineConnections && j.machineConnections["gateway"] == gateway.value
    && AllAgree(spec, plan.position) && PlaceableFrom(w.containers, spec, n, plan.position)
    && tried == Sharing(spec, n, plan.position)
  }

  lemma ApproachStarts(before: World, w: World, spec: Spec, gateway: ContainerId, plan: Plan, j: Journal)
    requires Culprit(before, spec, gateway, plan.position, plan.container)
    requires w.containers == before.containers && w.connections == before.connections + {Connection(NetworkName(spec), gateway)}
    requires NetworkName(spec) in w.networks && EgressNetwork in w.networks && VolumeName(spec) in w.volumes
    requires j.machineConnections == map["gateway" := gateway]
    ensures Approach(w, spec, Some(gateway), plan, 0, j, 0)
  {
    hide AllAgree, PlaceableFrom;
  }

  /** What placing one service may change. */
  ghost predicate PlacedOne(a: World, b: World, spec: Spec, service: Service, id: ContainerId) {
    && Grown(a, b) && b.networks == a.networks && b.volumes == a.volumes
    && id in b.containers && b.containers[id].name == service.containerName && Matches(b.containers[id], spec, service)
    && (forall i :: i in b.containers ==> i in a.containers || i == id)
    && (forall c :: c in b.connections ==> c in a.connections || c.container == id)
  }

  lemma PlacedNoMore(a: World, b: World, spec: Spec, service: Service, id: ContainerId)
    requires PlacedOne(a, b, spec, service, id)
    ensures forall i :: i in b.containers ==> i in a.containers || i == id
  {}

  /** The planned container was left off the network, and one more service has tried if it
      shares it. */
  ghost predicate KeptOff(b: World, spec: Spec, plan: Plan, n: nat, tried: nat, after: nat) {
    && Connection(NetworkName(spec), plan.container) !in b.connections
    && after == tried + if Ordinary(spec, n) && Ordinary(spec, plan.position) &&
                           spec.services[n].containerName == spec.services[plan.position].containerName then 1 else 0
  }

  lemma ApproachNext(
    a: World, b: World, spec: Spec, gateway: Option<ContainerId>, plan: Plan, n: nat, j: Journal, tried: nat, later: Journal, after: nat, id: ContainerId)
    requires spec.Valid() && Approach(a, spec, gateway, plan, n, j, tried) && n < plan.position && Ordinary(spec, n)
    requires PlacedOne(a, b, spec, spec.services[n], id) && KeptOff(b, spec, plan, n, tried, after)
    requires later.machineConnections in {j.machineConnections, j.machineConnections[spec.services[n].key := id]}
    ensures Approach(b, spec, gateway, plan, n + 1, later, after)
  {
    forall k | n + 1 <= k <= plan.position && Ordinary(spec, k)
      ensures Placeable(b.containers, spec, spec.services[k])
    {
      StaysPlaceable(a, b, spec, n, k, id, plan.position);
    }
    hide AllAgree, Placeable;
  }

  lemma StaysPlaceable(a: World, b: World, spec: Spec, n: nat, k: nat, id: ContainerId, last: nat)
    requires n < k <= last && Ordinary(spec, n) && Ordinary(spec, k) && AllAgree(spec, last)
    requires PlacedOne(a, b, spec, spec.services[n], id) && Placeable(a.containers, spec, spec.services[k])
    ensures Placeable(b.containers, spec, spec.services[k])
  {
    assert Agree(spec.services[n], spec.services[k]);
    if Named(a.containers, spec.services[k].containerName) {
      var i :| i in a.containers && a.containers[i].name == spec.services[k].containerName;
      assert i in b.containers && Named(b.containers, spec.services[k].containerName);
    }
  }

  lemma ApproachSkips(w: World, spec: Spec, gateway: Option<ContainerId>, plan: Plan, n: nat, j: Journal, tried: nat)
    requires Approach(w, spec, gateway, plan, n, j, tried) && n < |spec.services| && !Ordinary(spec, n)
    ensures Approach(w, spec, gateway, plan, n + 1, j, tried)
  {
    hide AllAgree, Placeable;
  }

  lemma ApproachesPlaceable(w: World, spec: Spec, gateway: Option<ContainerId>, plan: Plan, n: nat, j: Journal, tried: nat)
    requires Approach(w, spec, gateway, plan, n, j, tried) && Ordinary(spec, n)
    ensures Placeable(w.containers, spec, spec.services[n])
    ensures spec.services[n].containerName == spec.services[plan.position].containerName ==> Named(w.containers, spec.services[n].containerName)
    ensures n < plan.position && spec.services[n].containerName == spec.services[plan.position].containerName ==>
              tried < Sharing(spec, plan.position, plan.position)
  {
    if n < plan.position {
      SharingGrows(spec, n + 1, plan.position, plan.position);
    }
    hide AllAgree;
  }

  // ---- a spawn that nothing stands in the way of ----

  /** The services from the n-th on can be placed. */
  ghost predicate Smooth(w: World, spec: Spec, n: nat) {
    && NetworkName(spec) in w.networks && EgressNetwork in w.networks && VolumeName(spec) in w.volumes
    && AllAgree(spec, |spec.services|) && PlaceableFrom(w.containers, spec, n, |spec.services|)
  }

  lemma SmoothNext(a: World, b: World, spec: Spec, n: nat, id: ContainerId)
    requires Smooth(a, spec, n) && Ordinary(spec, n) && PlacedOne(a, b, spec, spec.services[n], id)
    ensures Smooth(b, spec, n + 1)
  {
    forall k | n + 1 <= k <= |spec.services| && Ordinary(spec, k)
      ensures Placeable(b.containers, spec, spec.services[k])
    {
      StaysPlaceable(a, b, spec, n, k, id, |spec.services|);
    }
    hide AllAgree, Placeable;
  }

  lemma SmoothSkips(w: World, spec: Spec, n: nat)
    requires Smooth(w, spec, n)
    ensures Smooth(w, spec, n + 1)
  {
    hide AllAgree, Placeable;
  }

  lemma SmoothPlaceable(w: World, spec: Spec, n: nat)
    requires Smooth(w, spec, n) && Ordinary(spec, n)
    ensures Placeable(w.containers, spec, spec.services[n])
    ensures NetworkName(spec) in w.networks && EgressNetwork in w.networks && VolumeName(spec) in w.volumes
  {
    hide AllAgree, Placeable;
  }

  lemma SmoothNetworks(w: World, spec: Spec, n: nat)
    requires Smooth(w, spec, n)
    ensures EgressNetwork in w.networks
  {
    hide AllAgree, PlaceableFrom;
  }

  lemma SmoothStarts(w: World, spec: Spec)
    requires NetworkName(spec) in w.networks && EgressNetwork in w.networks && VolumeName(spec) in w.volumes
    requires AllAgree(spec, |spec.services|) && PlaceableFrom(w.containers, spec, 0, |spec.services|)
    ensures Smooth(w, spec, 0)
  {
    hide AllAgree, PlaceableFrom;
  }

  /** A terminal needs an IDE to live in. */
  ghost predicate HasHost(spec: Spec) {
    (exists s :: s in spec.services && s.serviceType == "terminal") ==> exists k :: Ordinary(spec, k) && spec.services[k].key == "ide"
  }

  /** The networks, the volume, the gateway and the containers that exist are such that the
      machine can be built beside them. */
  ghost predicate Buildable(w: World, spec: Spec, gateway: Option<ContainerId>) {
    && Preparable(w, spec) && gateway.Some? && gateway.value in w.containers && HasHost(spec)
    && AllAgree(spec, |spec.services|) && PlaceableFrom(w.containers, spec, 0, |spec.services|)
  }

  lemma HostFound(w: World, spec: Spec, found: map<string, ContainerId>, terminals: seq<Service>)
    requires HasHost(spec) && PlacedUpTo(w, spec, |spec.services|, found, terminals)
    ensures terminals == [] || "ide" in found
  {
    if terminals != [] {
      assert terminals[0] in terminals;
    }
  }

  lemma ValuesAfter(m: map<string, ContainerId>, key: string, id: ContainerId)
    requires key !in m
    ensures m[key := id].Values == m.Values + {id}
  {
    assert m[key := id][key] == id;
    forall k | k in m
      ensures m[k] in m[key := id].Values
    {
      assert m[key := id][k] == m[k];
    }
  }

  /** The service has the container it asked for. */
  ghost predicate Placed(w: World, spec: Spec, service: Service, found: map<string, ContainerId>) {
    service.key in found && HostedBy(w, spec, service, found[service.key])
  }

  /** Every key maps to a container: its own for a service, the IDE's for a terminal. */
  ghost predicate AllPlaced(w: World, spec: Spec, found: map<string, ContainerId>) {
    && (forall s :: s in spec.services && s.serviceType != "terminal" ==> Placed(w, spec, s, found))
    && (forall s :: s in spec.services && s.serviceType == "terminal" ==>
          s.key in found && "ide" in found && found[s.key] == found["ide"])
  }

  // ---- the connections of a spawn ----

  predicate IsEgress(spec: Spec, k: int) {
    0 <= k < |spec.services| && spec.services[k].serviceType == "egress"
  }

  /** What a spawn is there to connect: every service to the machine's network, and an egress
      service to the shared one as well. */
  function ServiceLinks(spec: Spec, n: nat, found: map<string, ContainerId>): set<Connection>
    requires n <= |spec.services|
  {
    (set k | 0 <= k < n && Ordinary(spec, k) && spec.services[k].key in found :: Connection(NetworkName(spec), found[spec.services[k].key])) +
    (set k | 0 <= k < n && IsEgress(spec, k) && spec.services[k].key in found :: Connection(EgressNetwork, found[spec.services[k].key]))
  }

  /** And the gateway to the machine's network. */
  function Links(spec: Spec, n: nat, gateway: ContainerId, found: map<string, ContainerId>): set<Connection>
    requires n <= |spec.services|
  {
    {Connection(NetworkName(spec), gateway)} + ServiceLinks(spec, n, found)
  }

  /** Nothing was connected but the first n services and the gateway, and no container is new
      but theirs; on a daemon that tells the truth all of them are connected. */
  ghost predicate Wired(before: World, w: World, spec: Spec, n: nat, gateway: ContainerId, found: map<string, ContainerId>, truthful: bool)
    requires n <= |spec.services|
  {
    && before.connections <= w.connections <= before.connections + Links(spec, n, gateway, found)
    && (truthful ==> Links(spec, n, gateway, found) <= w.connections)
    && (forall id :: id in w.containers && id !in before.containers ==> Serves(spec, n, found, id))
  }

  predicate Serves(spec: Spec, n: nat, found: map<string, ContainerId>, id: ContainerId)
    requires n <= |spec.services|
  {
    exists k :: 0 <= k < n && Ordinary(spec, k) && spec.services[k].key in found && found[spec.services[k].key] == id
  }

  /** What one service adds. */
  function OwnLinks(spec: Spec, n: nat, id: ContainerId): set<Connection>
    requires n < |spec.services|
  {
    {Connection(NetworkName(spec), id)} + if IsEgress(spec, n) then {Connection(EgressNetwork, id)} else {}
  }

  lemma OwnLinksAdded(a: set<Connection>, b: set<Connection>, c: set<Connection>, spec: Spec, n: nat, id: ContainerId)
    requires n < |spec.services| && b <= a + {Connection(NetworkName(spec), id)} && c <= b + OwnLinks(spec, n, id)
    ensures c <= a + OwnLinks(spec, n, id)
  {}

  lemma LinksNext(spec: Spec, n: nat, gateway: ContainerId, found: map<string, ContainerId>, id: ContainerId)
    requires spec.Valid() && n < |spec.services| && Ordinary(spec, n) && spec.services[n].key !in found
    ensures Links(spec, n + 1, gateway, found[spec.services[n].key := id]) == Links(spec, n, gateway, found) + OwnLinks(spec, n, id)
  {}

  lemma LinksSkip(spec: Spec, n: nat, gateway: ContainerId, found: map<string, ContainerId>)
    requires n < |spec.services| && spec.services[n].serviceType == "terminal"
    ensures Links(spec, n + 1, gateway, found) == Links(spec, n, gateway, found)
    ensures forall id :: Serves(spec, n, found, id) ==> Serves(spec, n + 1, found, id)
  {}

  lemma ServesNext(spec: Spec, n: nat, found: map<string, ContainerId>, id: ContainerId)
    requires spec.Valid() && n < |spec.services| && Ordinary(spec, n) && spec.services[n].key !in found
    ensures Serves(spec, n + 1, found[spec.services[n].key := id], id)
    ensures forall i :: Serves(spec, n, found, i) ==> Serves(spec, n + 1, found[spec.services[n].key := id], i)
  {
    var later := found[spec.services[n].key := id];
    assert Ordinary(spec, n) && spec.services[n].key in later && later[spec.services[n].key] == id;
    forall i | Serves(spec, n, found, i)
      ensures Serves(spec, n + 1, later, i)
    {
      var k :| 0 <= k < n && Ordinary(spec, k) && spec.services[k].key in found && found[spec.services[k].key] == i;
      assert later[spec.services[k].key] == i;
    }
  }

  lemma WiredNext(
    before: World, w: World, after: World, spec: Spec, n: nat, gateway: ContainerId, found: map<string, ContainerId>, id: ContainerId, truthful: bool)
    requires spec.Valid() && n < |spec.services| && Ordinary(spec, n) && spec.services[n].key !in found
    requires Wired(before, w, spec, n, gateway, found, truthful)
    requires w.connections <= after.connections <= w.connections + OwnLinks(spec, n, id)
    requires truthful ==> OwnLinks(spec, n, id) <= after.connections
    requires forall i :: i in after.containers ==> i in w.containers || i == id
    ensures Wired(before, after, spec, n + 1, gateway, found[spec.services[n].key := id], truthful)
  {
    LinksNext(spec, n, gateway, found, id);
    ServesNext(spec, n, found, id);
    hide Links, Serves, OwnLinks;
  }

  lemma WiredSkips(before: World, w: World, spec: Spec, n: nat, gateway: ContainerId, found: map<string, ContainerId>, truthful: bool)
    requires n < |spec.services| && spec.services[n].serviceType == "terminal" && Wired(before, w, spec, n, gateway, found, truthful)
    ensures Wired(before, w, spec, n + 1, gateway, found, truthful)
  {
    LinksSkip(spec, n, gateway, found);
    hide Links, Serves;
  }

  lemma WiredStarts(before: World, w: World, spec: Spec, gateway: ContainerId, truthful: bool)
    requires before.connections <= w.connections <= before.connections + {Connection(NetworkName(spec), gateway)}
    requires w.containers == before.containers && (truthful ==> Connection(NetworkName(spec), gateway) in w.connections)
    ensures Wired(before, w, spec, 0, gateway, map[], truthful)
  {
    assert Links(spec, 0, gateway, map[]) == {Connection(NetworkName(spec), gateway)};
  }

  /** The terminals, which share a container, change nothing. */
  lemma WiredByOrdinary(
    before: World, w: World, spec: Spec, gateway: ContainerId, found: map<string, ContainerId>, later: map<string, ContainerId>, truthful: bool)
    requires Wired(before, w, spec, |spec.services|, gateway, found, truthful)
    requires forall k :: Ordinary(spec, k) ==> Same(found, later, spec.services[k].key)
    ensures Wired(before, w, spec, |spec.services|, gateway, later, truthful)
  {
    assert forall k :: IsEgress(spec, k) ==> Ordinary(spec, k);
    assert Links(spec, |spec.services|, gateway, later) == Links(spec, |spec.services|, gateway, found);
    forall id | Serves(spec, |spec.services|, found, id)
      ensures Serves(spec, |spec.services|, later, id)
    {
      var k :| 0 <= k < |spec.services| && Ordinary(spec, k) && spec.services[k].key in found && found[spec.services[k].key] == id;
      assert Same(found, later, spec.services[k].key);
    }
  }

  lemma TerminalKeepsSame(spec: Spec, found: map<string, ContainerId>, later: map<string, ContainerId>, s: Service, id: ContainerId)
    requires spec.Valid() && s in spec.services && s.serviceType == "terminal"
    requires forall k :: Ordinary(spec, k) ==> Same(found, later, spec.services[k].key)
    ensures forall k :: Ordinary(spec, k) ==> Same(found, later[s.key := id], spec.services[k].key)
  {}

  predicate Same(found: map<string, ContainerId>, later: map<string, ContainerId>, key: string) {
    (key in found <==> key in later) && (key in found ==> later[key] == found[key])
  }

  // ---- the runtime ----

  datatype Inspection = Found(id: ContainerId) | NotFound | Unknown

  /** A world with one more container, created on the machine's network. */
  function WithContainer(w: World, spec: Spec, service: Service, id: ContainerId): World {
    w.(containers := w.containers[id := Container(service.containerName, service.image, spec.machine, service.serviceType, Some(VolumeName(spec)))],
       connections := w.connections + {Connection(NetworkName(spec), id)})
  }

  lemma StaysConsistent(w: World, spec: Spec, service: Service, id: ContainerId)
    requires Consistent(w) && id !in w.containers && !Named(w.containers, service.containerName)
    requires NetworkName(spec) in w.networks && VolumeName(spec) in w.volumes
    ensures Consistent(WithContainer(w, spec, service, id))
    ensures forall c :: c in w.connections ==> c.container != id
  {}

  lemma OwnLabels(labels: map<string, string>)
    ensures HasLabels(labels, labels)
  {}

  /** The Docker daemon behind the client. Whether a call fails depends on how many came
      before it and on what the daemon holds, in any way whatever, and so does whether it
      answers a request for a connection with a conflict; a call that fails has no effect,
      and the calls of the deferred clean-up do not fail. */
  class DockerRuntime {
    var containers: map<ContainerId, Container>
    var networks: map<string, Network>
    var connections: set<Connection>
    var volumes: map<string, Volume>
    var nextId: ContainerId
    var calls: nat
    var attempts: multiset<Connection>
    const gateway: Option<ContainerId>
    const faults: (nat, World) -> bool
    const conflicts: (Connection, nat, World) -> bool
    ghost const plan: Plan

    constructor (
      w: World, nextId: ContainerId, gateway: Option<ContainerId>, faults: (nat, World) -> bool, conflicts: (Connection, nat, World) -> bool,
      ghost plan: Plan)
      requires Consistent(w) && forall id :: id in w.containers ==> id < nextId
      ensures Valid() && State() == w && attempts == multiset{}
      ensures this.gateway == gateway && this.faults == faults && this.conflicts == conflicts && this.plan == plan
    {
      containers, networks, connections, volumes := w.containers, w.networks, w.connections, w.volumes;
      this.nextId, calls, attempts := nextId, 0, multiset{};
      this.gateway, this.faults, this.conflicts, this.plan := gateway, faults, conflicts, plan;
    }

    ghost predicate Valid()
      reads this
    {
      Consistent(State()) && forall id :: id in containers ==> id < nextId
    }

    function State(): World
      reads this
    {
      World(containers, networks, connections, volumes)
    }

    ghost predicate Calm(w: World) {
      forall c: nat :: !faults(c, w)
    }

    ghost predicate Stormy(w: World) {
      forall c: nat :: faults(c, w)
    }

    /** No call ever fails. */
    ghost predicate Serene() {
      forall c: nat, w: World :: !faults(c, w)
    }

    lemma SereneIsCalm(w: World)
      ensures Serene() ==> Calm(w)
    {}

    /** The daemon answers a conflict only for a container that is attached. */
    ghost predicate Truthful() {
      forall c: Connection, n: nat, w: World :: conflicts(c, n, w) ==> c in w.connections
    }

    /** Every call fails from the moment the gateway and the planned container are both
        attached, and none before; the services that share that container are each answered
        with a conflict, and nothing else is. */
    ghost predicate Sabotaged(spec: Spec) {
      && gateway.Some? && plan.position < |spec.services|
      && (forall c: nat, w: World :: faults(c, w) <==> Sprung(spec, w))
      && forall c: Connection, n: nat, w: World ::
           conflicts(c, n, w) <==> c == Planned(spec) && n < Sharing(spec, plan.position, plan.position)
    }

    ghost function Planned(spec: Spec): Connection {
      Connection(NetworkName(spec), plan.container)
    }

    /** How often the planned connection was asked for. */
    ghost function Tried(spec: Spec): nat
      reads this
    {
      attempts[Planned(spec)]
    }

    ghost predicate Sprung(spec: Spec, w: World)
      requires gateway.Some?
    {
      Connection(NetworkName(spec), gateway.value) in w.connections && Connection(NetworkName(spec), plan.container) in w.connections
    }

    lemma WhenSprung(spec: Spec, w: World)
      requires Sabotaged(spec)
      ensures if Sprung(spec, w) then Stormy(w) else Calm(w)
    {}

    /** A call whose only outcome that matters is whether it fails. */
    method Succeeds() returns (ok: bool)
      modifies this`calls
      ensures Calm(State()) ==> ok
      ensures Stormy(State()) ==> !ok
    {
      ok := !faults(calls, State());
      calls := calls + 1;
    }

    method ContainerInspect(name: string) returns (r: Inspection)
      modifies this`calls
      ensures r.Found? ==> r.id in containers && containers[r.id].name == name
      ensures r.NotFound? ==> !Named(containers, name)
      ensures Calm(State()) ==> !r.Unknown?
    {
      var ok := Succeeds();
      if !ok {
        return Unknown;
      }
      if id :| id in containers && containers[id].name == name {
        return Found(id);
      }
      return NotFound;
    }

    method EnsureNetwork(name: string, isInternal: bool, labels: map<string, string>) returns (created: bool, ok: bool)
      requires Valid()
      modifies this`networks, this`calls
      ensures Valid()
      ensures created ==> ok && name !in old(networks) && networks == old(networks)[name := Network(isInternal, labels)]
      ensures !created ==> networks == old(networks)
      ensures ok ==> name in networks && networks[name].isInternal == isInternal && HasLabels(networks[name].labels, labels)
      ensures ok ==> NetworkFits(old(networks), name, isInternal, labels)
      ensures Calm(old(State())) && NetworkFits(old(networks), name, isInternal, labels) ==> ok
    {
      hide Calm, HasLabels;
      var inspected := Succeeds();
      if !inspected {
        return false, false;
      }
      if name in networks {
        return false, networks[name].isInternal == isInternal && HasLabels(networks[name].labels, labels);
      }
      ok := Succeeds();
      created := ok;
      if ok {
        networks := networks[name := Network(isInternal, labels)];
        assert HasLabels(labels, labels) by { OwnLabels(labels); }
      }
    }

    method EnsureVolume(name: string, labels: map<string, string>, diskGB: int) returns (created: bool, ok: bool)
      requires Valid()
      modifies this`volumes, this`calls
      ensures Valid()
      ensures created ==> ok && name !in old(volumes) && name in volumes && volumes == old(volumes)[name := volumes[name]]
      ensures !created ==> volumes == old(volumes)
      ensures ok ==> diskGB > 0 && name in volumes && ValidVolume(volumes[name], labels, diskGB)
      ensures Calm(old(State())) && diskGB > 0 && (name in old(volumes) ==> ValidVolume(old(volumes)[name], labels, diskGB)) ==> ok
    {
      hide Calm, HasLabels;
      if diskGB <= 0 {
        return false, false;
      }
      var inspected := Succeeds();
      if !inspected {
        return false, false;
      }
      if name in volumes {
        return false, ValidVolume(volumes[name], labels, diskGB);
      }
      var made := Succeeds();
      if !made {
        return false, false;
      }
      var volume := Volume("local", labels, QuotaBytes(diskGB));
      OwnLabels(labels);
      var kept := Succeeds();
      if !kept {
        volume := *;
      }
      volumes := volumes[name := volume];
      if !ValidVolume(volume, labels, diskGB) {
        volumes := volumes - {name};
        return false, false;
      }
      return true, true;
    }

    method ContainerOnNetwork(network: string, id: ContainerId) returns (connected: bool)
      modifies this`calls
      ensures connected ==> Connection(network, id) in connections
      ensures Calm(State()) ==> (connected <==> Connection(network, id) in connections)
    {
      var inspected := Succeeds();
      return inspected && Connection(network, id) in connections;
    }

    /** Answers whether this call made the connection; a conflict counts as success. */
    method ConnectNetwork(network: string, id: ContainerId) returns (connected: bool, ok: bool)
      requires Valid()
      modifies this`connections, this`calls, this`attempts
      ensures Valid()
      ensures connected ==> ok && Connection(network, id) !in old(connections) && network in networks && id in containers
      ensures connections == old(connections) + if connected then {Connection(network, id)} else {}
      ensures Truthful() && ok ==> Connection(network, id) in connections
      ensures attempts == old(attempts) || attempts == old(attempts) + multiset{Connection(network, id)}
      ensures Calm(old(State())) && network in networks && id in containers ==>
                && ok
                && (connected <==> Connection(network, id) !in old(connections) &&
                                   !conflicts(Connection(network, id), old(attempts)[Connection(network, id)], old(State())))
                && (Connection(network, id) !in old(connections) ==> attempts == old(attempts) + multiset{Connection(network, id)})
    {
      hide Calm;
      var already := ContainerOnNetwork(network, id);
      if already {
        return false, true;
      }
      var connection := Connection(network, id);
      var conflict := conflicts(connection, attempts[connection], State());
      attempts := attempts + multiset{connection};
      var made := Succeeds();
      if made && !conflict && network in networks && id in containers && connection !in connections {
        connections := connections + {connection};
        return true, true;
      }
      if conflict {
        return false, true;
      }
      ok := ContainerOnNetwork(network, id);
      return false, ok;
    }

    method RemoveContainer(id: ContainerId)
      modifies this`containers, this`connections
      ensures containers == old(containers) - {id}
      ensures connections == set c | c in old(connections) && c.container != id
    {
      containers := containers - {id};
      connections := set c | c in connections && c.container != id;
    }

    /** The part of ensureService that creates a container, and removes it when it does not
        run. */
    method CreateService(spec: Spec, service: Service) returns (id: ContainerId, created: bool)
      requires Valid() && !Named(containers, service.containerName)
      modifies this`containers, this`connections, this`nextId, this`calls
      ensures Valid()
      ensures created ==> id == old(nextId) && service.image != "" && State() == WithContainer(old(State()), spec, service, id) &&
                          HostedBy(State(), spec, service, id)
      ensures !created ==> State() == old(State())
      ensures Calm(old(State())) && Calm(WithContainer(old(State()), spec, service, old(nextId))) &&
              NetworkName(spec) in networks && VolumeName(spec) in volumes && service.image != "" ==>
                created
    {
      hide Calm, Stormy, Consistent, Named;
      ghost var w := State();
      var prepared := Succeeds();
      if !prepared || service.image == "" || NetworkName(spec) !in networks || VolumeName(spec) !in volumes {
        return 0, false;
      }
      id := nextId;
      nextId := nextId + 1;
      containers := containers[id := Container(service.containerName, service.image, spec.machine, service.serviceType, Some(VolumeName(spec)))];
      connections := connections + {Connection(NetworkName(spec), id)};
      assert State() == WithContainer(w, spec, service, id);
      StaysConsistent(w, spec, service, id);
      created := Succeeds();
      if !created {
        RemoveContainer(id);
        assert State() == w;
      }
    }

    /** What a calm daemon does for a service that can be placed; `tried` are the connections
        asked for before and `asked` those asked for after, `next` is the identifier a new
        container gets. */
    ghost predicate Foreseen(
      w: World, tried: multiset<Connection>, after: World, asked: multiset<Connection>, spec: Spec, service: Service, next: ContainerId,
      id: ContainerId, created: bool, attached: bool, ok: bool)
    {
      Calm(w) && NetworkName(spec) in w.networks && VolumeName(spec) in w.volumes && Placeable(w.containers, spec, service) ==>
        if Named(w.containers, service.containerName) then
          var c := Connection(NetworkName(spec), id);
          && id in w.containers && w.containers[id].name == service.containerName && !created
          && (attached <==> c !in w.connections && !conflicts(c, tried[c], w))
          && (c !in w.connections ==> asked == tried + multiset{c})
          && (Calm(after) ==> ok) && (Stormy(after) ==> !ok)
        else Calm(WithContainer(w, spec, service, next)) ==> created && ok
    }

    /** How a service's container came about. */
    method EnsureService(spec: Spec, service: Service) returns (id: ContainerId, created: bool, attached: bool, ok: bool)
      requires Valid()
      modifies this`containers, this`connections, this`nextId, this`calls, this`attempts
      ensures Valid()
      ensures created ==> ok && !attached && id == old(nextId) && service.image != "" && !Named(old(containers), service.containerName)
                          && State() == WithContainer(old(State()), spec, service, id) && attempts == old(attempts)
      ensures !created ==> State() == old(State()).(connections := old(connections) + if attached then {Connection(NetworkName(spec), id)} else {})
      ensures attached ==> id in containers && containers[id].name == service.containerName && Matches(containers[id], spec, service)
                           && Connection(NetworkName(spec), id) !in old(connections)
      ensures ok ==> HostedBy(State(), spec, service, id)
      ensures Truthful() && ok ==> Connection(NetworkName(spec), id) in connections
      ensures attempts == old(attempts) || attempts == old(attempts) + multiset{Connection(NetworkName(spec), id)}
      ensures Foreseen(old(State()), old(attempts), State(), attempts, spec, service, old(nextId), id, created, attached, ok)
    {
      hide Calm, Stormy;
      ghost var w := State();
      var inspection := ContainerInspect(service.containerName);
      match inspection
      case Unknown => return 0, false, false, false;
      case Found(existing) =>
        if !Matches(containers[existing], spec, service) {
          return 0, false, false, false;
        }
        attached, ok := ConnectNetwork(NetworkName(spec), existing);
        if ok {
          ok := Succeeds();
        }
        return existing, false, attached, ok;
      case NotFound =>
        id, created := CreateService(spec, service);
        return id, created, false, created;
    }

    // ---- clean-up ----

    method RemoveContainers(created: map<string, ContainerId>)
      modifies this`containers, this`connections
      ensures containers == old(containers) - created.Values
      ensures connections == set c | c in old(connections) && c.container !in created.Values
    {
      var seen: set<ContainerId> := {};
      var todo := created.Keys;
      while todo != {}
        invariant todo <= created.Keys && seen == set k | k in created && k !in todo :: created[k]
        invariant containers == old(containers) - seen
        invariant connections == set c | c in old(connections) && c.container !in seen
      {
        var key :| key in todo;
        todo := todo - {key};
        if created[key] !in seen {
          seen := seen + {created[key]};
          RemoveContainer(created[key]);
        }
      }
    }

    method Disconnect(network: string, records: map<string, ContainerId>)
      modifies this`connections
      ensures connections == old(connections) - Connections(network, records)
    {
      var todo := records.Keys;
      while todo != {}
        invariant todo <= records.Keys
        invariant connections == old(connections) - (set k | k in records && k !in todo :: Connection(network, records[k]))
      {
        var key :| key in todo;
        todo := todo - {key};
        connections := connections - {Connection(network, records[key])};
      }
    }

    /** The deferred function of Spawn. */
    method CleanUp(spec: Spec, j: Journal)
      modifies this`containers, this`connections, this`networks, this`volumes
      ensures State() == CleanedUp(old(State()), spec, j)
    {
      RemoveContainers(j.containers);
      Disconnect(EgressNetwork, j.egressConnections);
      Disconnect(NetworkName(spec), j.machineConnections);
      assert connections == set c | c in old(connections) && c.container !in j.containers.Values && c !in Recorded(spec, j);
      if j.networkCreated && Unconnected(connections, NetworkName(spec)) {
        networks := networks - {NetworkName(spec)};
      }
      if j.volumeCreated && Unmounted(containers, VolumeName(spec)) {
        volumes := volumes - {VolumeName(spec)};
      }
    }

    // ---- spawn ----

    /** The egress network of an egress service. */
    method AttachEgress(ghost before: World, spec: Spec, n: nat, j0: Journal, ghost leaked: set<Connection>, id: ContainerId, created: bool)
      returns (j: Journal, ok: bool)
      requires Valid() && n < |spec.services| && Progress(before, State(), spec, gateway, n + 1, j0, leaked)
      requires spec.services[n].key !in j0.egressConnections && id in containers && (created ==> id in j0.containers.Values)
      modifies this`connections, this`calls, this`attempts
      ensures Valid() && Progress(before, State(), spec, gateway, n + 1, j, leaked)
      ensures j == j0.(egressConnections := j.egressConnections)
      ensures connections == old(connections) || connections == old(connections) + {Connection(EgressNetwork, id)}
      ensures Truthful() && ok ==> Connection(EgressNetwork, id) in connections
      ensures forall c: Connection :: c.network != EgressNetwork ==> attempts[c] == old(attempts)[c]
      ensures Calm(old(State())) && EgressNetwork in networks ==> ok
    {
      hide Progress, Journaled, Consistent, Calm, Truthful;
      j := j0;
      ghost var w := State();
      var connected;
      connected, ok := ConnectNetwork(EgressNetwork, id);
      if connected {
        ProgressEgress(before, w, spec, gateway, n, j, leaked, id, created);
        if !created {
          j := j.(egressConnections := j.egressConnections[spec.services[n].key := id]);
        }
      } else {
        assert State() == w;
      }
    }

    /** One service of the loop, up to its own container: where it is, and the record of it. */
    method EnsureRecorded(ghost before: World, spec: Spec, n: nat, j0: Journal, ghost leaked0: set<Connection>)
      returns (j: Journal, id: ContainerId, created: bool, ok: bool, ghost leaked: set<Connection>)
      requires Valid() && spec.Valid() && n < |spec.services| && spec.services[n].serviceType != "terminal" && Preparable(before, spec)
      requires Progress(before, State(), spec, gateway, n, j0, leaked0) && Housed(State(), spec, n, j0.containers.Values)
      modifies this`containers, this`connections, this`nextId, this`calls, this`attempts
      ensures Valid() && Progress(before, State(), spec, gateway, n + 1, j, leaked) && spec.services[n].key !in j.egressConnections
      ensures j.networkCreated == j0.networkCreated && j.volumeCreated == j0.volumeCreated
      ensures Grown(old(State()), State()) && (created ==> id in j.containers.Values)
      ensures ok ==> HostedBy(State(), spec, spec.services[n], id) && PlacedOne(old(State()), State(), spec, spec.services[n], id)
      ensures ok ==> Housed(State(), spec, n + 1, j.containers.Values)
      ensures ok ==> j.machineConnections in {j0.machineConnections, j0.machineConnections[spec.services[n].key := id]}
      ensures ok ==> connections <= old(connections) + {Connection(NetworkName(spec), id)}
      ensures Truthful() && ok ==> Connection(NetworkName(spec), id) in connections
      ensures Sabotaged(spec) && Approach(old(State()), spec, gateway, plan, n, j0, old(Tried(spec))) ==>
                if n < plan.position then ok && KeptOff(State(), spec, plan, n, old(Tried(spec)), Tried(spec)) else !ok && leaked != {}
      ensures Serene() && Smooth(old(State()), spec, n) ==> ok
    {
      hide Progress, Journaled, Consistent, Housed, Endangered, Preparable, Approach, Sabotaged, Calm, Stormy, Placeable, HostedBy, Matches,
           Foreseen, PlacedOne, KeptOff, Truthful, Serene, Smooth;
      ghost var tried := attempts;
      var service := spec.services[n];
      ghost var w := State();
      var attached;
      id, created, attached, ok := EnsureService(spec, service);
      j, leaked := RecordService(before, w, State(), spec, gateway, n, j0, leaked0, id, created, attached);
      EnsuredOne(w, State(), spec, n, j0.containers.Values, id, created, ok);
      if Serene() && Smooth(w, spec, n) {
        SmoothPlaceable(w, spec, n);
        SereneWorks(w, tried, State(), attempts, spec, service, old(nextId), id, created, attached, ok);
      }
      if Sabotaged(spec) && Approach(w, spec, gateway, plan, n, j0, tried[Planned(spec)]) {
        SabotageWorks(w, tried, State(), attempts, spec, n, j0, old(nextId), id, created, attached, ok);
      }
    }

    /** The second connection of an egress service. */
    method AttachIfEgress(
      ghost before: World, ghost start: World, spec: Spec, n: nat, j0: Journal, ghost leaked: set<Connection>, id: ContainerId, created: bool)
      returns (j: Journal, ok: bool)
      requires Valid() && spec.Valid() && Ordinary(spec, n) && Progress(before, State(), spec, gateway, n + 1, j0, leaked)
      requires spec.services[n].key !in j0.egressConnections && (created ==> id in j0.containers.Values)
      requires PlacedOne(start, State(), spec, spec.services[n], id) && HostedBy(State(), spec, spec.services[n], id)
      requires Housed(State(), spec, n + 1, j0.containers.Values)
      modifies this`connections, this`calls, this`attempts
      ensures Valid() && Progress(before, State(), spec, gateway, n + 1, j, leaked) && j == j0.(egressConnections := j.egressConnections)
      ensures PlacedOne(start, State(), spec, spec.services[n], id) && HostedBy(State(), spec, spec.services[n], id)
      ensures Housed(State(), spec, n + 1, j.containers.Values) && Grown(start, State())
      ensures connections <= old(connections) + {Connection(EgressNetwork, id)} && connections <= old(connections) + OwnLinks(spec, n, id)
      ensures Truthful() && ok && Connection(NetworkName(spec), id) in old(connections) ==> OwnLinks(spec, n, id) <= connections
      ensures forall c: Connection :: c.network != EgressNetwork ==> attempts[c] == old(attempts)[c]
      ensures Calm(old(State())) && EgressNetwork in networks ==> ok
    {
      hide Progress, Journaled, Consistent, Housed, Calm, HostedBy, PlacedOne, Truthful;
      ghost var w := State();
      j, ok := j0, true;
      HostedStored(w, spec, spec.services[n], id);
      if spec.services[n].serviceType == "egress" {
        j, ok := AttachEgress(before, spec, n, j, leaked, id, created);
      }
      EgressOne(start, w, State(), spec, n, j.containers.Values, id);
    }

    /** One service of the loop: its container, the journal and what it mounts to. */
    method PlaceService(ghost before: World, spec: Spec, n: nat, j0: Journal, ghost leaked0: set<Connection>)
      returns (j: Journal, id: ContainerId, error: Option<SpawnError>, ghost leaked: set<Connection>)
      requires Valid() && spec.Valid() && n < |spec.services| && spec.services[n].serviceType != "terminal" && Preparable(before, spec)
      requires Progress(before, State(), spec, gateway, n, j0, leaked0) && Housed(State(), spec, n, j0.containers.Values)
      modifies this`containers, this`connections, this`nextId, this`calls, this`attempts
      ensures Valid() && Progress(before, State(), spec, gateway, n + 1, j, leaked)
      ensures Grown(old(State()), State())
      ensures error.None? ==> connections <= old(connections) + OwnLinks(spec, n, id)
      ensures error.None? ==> forall i :: i in containers ==> i in old(containers) || i == id
      ensures Truthful() && error.None? ==> OwnLinks(spec, n, id) <= connections
      ensures error.None? ==> HostedBy(State(), spec, spec.services[n], id) && Housed(State(), spec, n + 1, j.containers.Values)
      ensures Sabotaged(spec) && Approach(old(State()), spec, gateway, plan, n, j0, old(Tried(spec))) ==>
                if n < plan.position then error.None? && Approach(State(), spec, gateway, plan, n + 1, j, Tried(spec))
                else error.Some? && leaked != {}
      ensures Serene() && Smooth(old(State()), spec, n) ==> error.None? && Smooth(State(), spec, n + 1)
    {
      hide Progress, Journaled, Consistent, Housed, Preparable, Approach, Sabotaged, Calm, HostedBy, PlacedOne, Foreseen, KeptOff, Truthful,
           Serene, Smooth, OwnLinks;
      ghost var tried := Tried(spec);
      NetworksDiffer(spec);
      ghost var start := State();
      var service := spec.services[n];
      var created, ok;
      j, id, created, ok, leaked := EnsureRecorded(before, spec, n, j0, leaked0);
      if !ok {
        return j, id, Some(ServiceFailed(service.key)), leaked;
      }
      ghost var w := State();
      ApproachedOne(start, w, spec, n, j0, tried, j, Tried(spec), id);
      SereneIsCalm(w);
      if Smooth(start, spec, n) {
        SmoothNext(start, w, spec, n, id);
        SmoothNetworks(w, spec, n + 1);
      }
      j, ok := AttachIfEgress(before, start, spec, n, j, leaked, id, created);
      StillOff(w, State(), spec, n, tried, Tried(spec), id);
      ApproachedOne(start, State(), spec, n, j0, tried, j, Tried(spec), id);
      if !ok {
        return j, id, Some(EgressAttachFailed), leaked;
      }
      PlacedNoMore(start, State(), spec, service, id);
      OwnLinksAdded(start.connections, w.connections, connections, spec, n, id);
      if Smooth(start, spec, n) {
        SmoothNext(start, State(), spec, n, id);
      }
      return j, id, None, leaked;
    }

    /** The image of the first collector. */
    method CollectorImage(services: seq<Service>) returns (image: string)
      ensures image == InitImage(services)
    {
      for k := 0 to |services|
        invariant InitImage(services) == InitImage(services[k..])
      {
        if services[k].serviceType == "collector" {
          return services[k].image;
        }
      }
      return "";
    }

    /** The machine's network and the shared one. */
    method PrepareNetworks(spec: Spec) returns (j: Journal, error: Option<SpawnError>)
      requires Valid() && spec.Valid()
      modifies this`networks, this`calls
      ensures Valid() && Journaled(old(State()), State(), spec, j, {}) && j == Nothing.(networkCreated := j.networkCreated)
      ensures error.None? ==> NetworksReady(networks, spec) && NetworksFit(old(networks), spec)
      ensures Sabotaged(spec) && Connection(NetworkName(spec), plan.container) !in connections && NetworksFit(old(networks), spec) ==> error.None?
      ensures Serene() && NetworksFit(old(networks), spec) ==> error.None?
    {
      hide Journaled, Consistent, HasLabels, Sabotaged, Calm, Labels, Serene;
      ghost var before := State();
      SereneIsCalm(before);
      JournalStarts(before, spec);
      StaysCalm(spec, before);
      j := Nothing;
      var made, ok := EnsureNetwork(NetworkName(spec), true, Labels(spec));
      if made {
        JournalNetwork(before, before, spec, j, Network(true, Labels(spec)));
        j := j.(networkCreated := true);
      }
      if !ok {
        return j, Some(NetworkFailed);
      }
      ghost var w := State();
      StaysCalm(spec, w);
      SereneIsCalm(w);
      made, ok := EnsureNetwork(EgressNetwork, false, EgressLabels);
      if made {
        JournalEgressNetwork(before, w, spec, j, Network(false, EgressLabels));
      }
      return j, if ok then None else Some(EgressNetworkFailed);
    }

    /** The networks and the volume. */
    method Prepare(spec: Spec) returns (j: Journal, error: Option<SpawnError>)
      requires Valid() && spec.Valid()
      modifies this`networks, this`volumes, this`calls
      ensures Valid() && Journaled(old(State()), State(), spec, j, {})
      ensures j.containers == map[] && j.machineConnections == map[] && j.egressConnections == map[]
      ensures error.None? ==> NetworksReady(networks, spec) && VolumeReady(volumes, spec)
      ensures error.None? ==> Preparable(old(State()), spec)
      ensures Sabotaged(spec) && Connection(NetworkName(spec), plan.container) !in connections && Preparable(old(State()), spec) ==> error.None?
      ensures Serene() && Preparable(old(State()), spec) ==> error.None?
    {
      hide Journaled, Consistent, HasLabels, ValidVolume, Sabotaged, Calm, InitImage, Labels, NetworksFit, Serene;
      ghost var before := State();
      j, error := PrepareNetworks(spec);
      if error.Some? {
        return;
      }
      ghost var w := State();
      StaysCalm(spec, w);
      SereneIsCalm(w);
      var made, ok := EnsureVolume(VolumeName(spec), Labels(spec), spec.diskGB);
      if made {
        JournalVolume(before, w, spec, j, volumes[VolumeName(spec)]);
        j := j.(volumeCreated := true);
      }
      if !ok {
        return j, Some(VolumeFailed);
      }
      StaysCalm(spec, State());
      SereneIsCalm(State());
      var initImage := CollectorImage(spec.services);
      ok := Succeeds();
      return j, if ok && initImage != "" then None else Some(PrepareFailed);
    }

    /** The networks and the volume are there, and the planned service is a culprit. */
    ghost predicate Ready(before: World, spec: Spec)
      reads this
    {
      Sabotaged(spec) && Culprit(before, spec, gateway.value, plan.position, plan.container) &&
      NetworkName(spec) in networks && EgressNetwork in networks && VolumeName(spec) in volumes
    }

    method AttachGateway(ghost before: World, spec: Spec, j0: Journal) returns (j: Journal, error: Option<SpawnError>)
      requires Valid() && spec.Valid() && Journaled(before, State(), spec, j0, {})
      requires containers == before.containers && connections == before.connections
      requires j0.containers == map[] && j0.machineConnections == map[] && j0.egressConnections == map[]
      modifies this`connections, this`calls, this`attempts
      ensures Valid() && Progress(before, State(), spec, gateway, 0, j, {}) && j.containers == map[]
      ensures old(connections) <= connections && containers == old(containers)
      ensures error.None? ==> gateway.Some? && connections <= old(connections) + {Connection(NetworkName(spec), gateway.value)}
      ensures error.None? && Truthful() ==> Connection(NetworkName(spec), gateway.value) in connections
      ensures Ready(before, spec) ==> error.None? && Approach(State(), spec, gateway, plan, 0, j, 0) && Tried(spec) == old(Tried(spec))
      ensures Serene() && gateway.Some? && gateway.value in containers && NetworkName(spec) in networks ==> error.None?
    {
      hide Journaled, Progress, Endangered, Calm, Approach, AllAgree, PlaceableFrom, Placeable, Truthful, Serene;
      j := j0;
      ghost var w := State();
      ProgressStarts(before, w, spec, gateway, j);
      if gateway.None? {
        return j, Some(GatewayRequired);
      }
      StaysCalm(spec, w);
      SereneIsCalm(w);
      var made, ok := ConnectNetwork(NetworkName(spec), gateway.value);
      if made {
        JournalConnection(before, w, spec, j, {}, "gateway", gateway.value);
        j := j.(machineConnections := j.machineConnections["gateway" := gateway.value]);
        assert LeakedAfter(spec, j0, {}, "gateway") == {};
        ProgressStarts(before, State(), spec, gateway, j);
        if Ready(before, spec) {
          ApproachStarts(before, State(), spec, gateway.value, plan, j);
        }
      } else {
        assert State() == w;
      }
      return j, if ok then None else Some(GatewayFailed);
    }

    /** The first loop: every service but the terminals. */
    method PlaceServices(ghost before: World, spec: Spec, j0: Journal)
      returns (j: Journal, found: map<string, ContainerId>, terminals: seq<Service>, error: Option<SpawnError>, ghost leaked: set<Connection>)
      requires Valid() && spec.Valid() && Progress(before, State(), spec, gateway, 0, j0, {}) && j0.containers == map[] && Preparable(before, spec)
      requires gateway.Some? && Wired(before, State(), spec, 0, gateway.value, map[], Truthful())
      modifies this`containers, this`connections, this`nextId, this`calls, this`attempts
      ensures Valid() && Settled(before, State(), spec, gateway, j, leaked)
      ensures error.None? ==> Wired(before, State(), spec, |spec.services|, gateway.value, found, Truthful())
      ensures Grown(old(State()), State())
      ensures error.None? ==> PlacedUpTo(State(), spec, |spec.services|, found, terminals)
      ensures Sabotaged(spec) && Approach(old(State()), spec, gateway, plan, 0, j0, old(Tried(spec))) ==> error.Some? && leaked != {}
      ensures Serene() && Smooth(old(State()), spec, 0) ==> error.None?
    {
      hide Progress, Placed, Housed, Preparable, Sabotaged, Approach, HostedBy, Consistent, Truthful, Wired, KeyBefore, OwnLinks, Serene,
           Smooth;
      j, leaked, found, terminals := j0, {}, map[], [];
      ghost var doomed := Sabotaged(spec) && Approach(State(), spec, gateway, plan, 0, j0, Tried(spec));
      ApproachEnds(State(), spec, 0, j0, Tried(spec));
      NothingHoused(State(), spec);
      assert j.containers.Values == {};
      var n := 0;
      while n < |spec.services|
        invariant n <= |spec.services|
        invariant Valid() && Progress(before, State(), spec, gateway, n, j, leaked) && Housed(State(), spec, n, j.containers.Values)
        invariant Grown(old(State()), State())
        invariant PlacedUpTo(State(), spec, n, found, terminals)
        invariant doomed ==> Sabotaged(spec) && n <= plan.position < |spec.services| && Approach(State(), spec, gateway, plan, n, j, Tried(spec))
        invariant Wired(before, State(), spec, n, gateway.value, found, Truthful())
        invariant forall key :: key in found ==> KeyBefore(spec, n, key)
        invariant Serene() && Smooth(old(State()), spec, 0) ==> Smooth(State(), spec, n)
      {
        var service := spec.services[n];
        ghost var w := State();
        KeyIsNew(spec, n);
        if service.serviceType == "terminal" {
          ProgressNothingNew(before, w, spec, gateway, n, j, leaked);
          HousedNext(w, w, spec, n, j.containers.Values, 0, false);
          if doomed {
            ApproachSkips(w, spec, gateway, plan, n, j, Tried(spec));
            ApproachEnds(w, spec, n + 1, j, Tried(spec));
          }
          WiredSkips(before, w, spec, n, gateway.value, found, Truthful());
          if Smooth(w, spec, n) {
            SmoothSkips(w, spec, n);
          }
          terminals := terminals + [service];
        } else {
          var id;
          j, id, error, leaked := PlaceService(before, spec, n, j, leaked);
          GrownTwice(old(State()), w, State());
          if error.Some? {
            ProgressSettles(before, State(), spec, gateway, n + 1, j, leaked);
            return;
          }
          PlaceNext(w, State(), spec, n, found, terminals, id);
          WiredNext(before, w, State(), spec, n, gateway.value, found, id, Truthful());
          found := found[service.key := id];
        }
        n := n + 1;
      }
      ProgressSettles(before, State(), spec, gateway, n, j, leaked);
      error := None;
    }

    /** The second loop: the terminals live in the IDE's container. */
    method PlaceTerminals(spec: Spec, found0: map<string, ContainerId>, terminals: seq<Service>)
      returns (found: map<string, ContainerId>, error: Option<SpawnError>)
      requires spec.Valid() && PlacedUpTo(State(), spec, |spec.services|, found0, terminals)
      ensures error.None? ==> AllPlaced(State(), spec, found)
      ensures forall k :: Ordinary(spec, k) ==> Same(found0, found, spec.services[k].key)
      ensures error.Some? <==> terminals != [] && "ide" !in found0
    {
      hide PlacedUpTo, AllPlaced;
      found := found0;
      TerminalsRemain(State(), spec, found, terminals);
      var n := 0;
      while n < |terminals|
        invariant n <= |terminals|
        invariant PlacedWithTerminals(State(), spec, found, terminals, n)
        invariant "ide" in found <==> "ide" in found0
        invariant forall k :: Ordinary(spec, k) ==> Same(found0, found, spec.services[k].key)
      {
        if "ide" !in found {
          return found, Some(TerminalWithoutIde);
        }
        TerminalListed(State(), spec, found, terminals, n);
        TerminalKeepsSame(spec, found0, found, terminals[n], found["ide"]);
        PlaceTerminal(State(), spec, found, terminals, n);
        found := found[terminals[n].key := found["ide"]];
        n := n + 1;
      }
      TerminalsDone(State(), spec, found, terminals);
      error := None;
    }

    /** Everything Spawn does before its deferred function. */
    method Acquire(spec: Spec)
      returns (j: Journal, found: map<string, ContainerId>, error: Option<SpawnError>, ghost leaked: set<Connection>)
      requires Valid() && spec.Valid()
      modifies this`containers, this`networks, this`connections, this`volumes, this`nextId, this`calls, this`attempts
      ensures Valid() && Settled(old(State()), State(), spec, gateway, j, leaked)
      ensures error.None? ==> NetworksReady(networks, spec) && VolumeReady(volumes, spec) && AllPlaced(State(), spec, found)
      ensures forall id :: id in old(containers) ==> id in containers && containers[id] == old(containers)[id]
      ensures error.None? ==> gateway.Some? && Wired(old(State()), State(), spec, |spec.services|, gateway.value, found, Truthful())
      ensures Doomed(old(State()), spec) && old(Tried(spec)) == 0 ==> error.Some? && leaked != {}
      ensures Serene() && Buildable(old(State()), spec, gateway) ==> error.None?
    {
      hide Journaled, Progress, PlacedUpTo, AllPlaced, Settled, Sabotaged, Approach, Preparable, AllAgree, PlaceableFrom, Placeable, Consistent,
           Truthful, Wired, Serene, Smooth, HasHost;
      ghost var before := State();
      found := map[];
      j, error := Prepare(spec);
      PreparedSettles(before, State(), spec, gateway, j);
      leaked := {};
      if error.Some? {
        return;
      }
      j, error := AttachGateway(before, spec, j);
      ProgressSettles(before, State(), spec, gateway, 0, j, {});
      if error.Some? {
        return;
      }
      WiredStarts(before, State(), spec, gateway.value, Truthful());
      if Buildable(before, spec, gateway) {
        SmoothStarts(State(), spec);
      }
      var terminals;
      j, found, terminals, error, leaked := PlaceServices(before, spec, j);
      if error.Some? {
        return;
      }
      ghost var placed := found;
      if HasHost(spec) {
        HostFound(State(), spec, found, terminals);
      }
      found, error := PlaceTerminals(spec, found, terminals);
      WiredByOrdinary(before, State(), spec, gateway.value, placed, found, Truthful());
    }

    /** The planned service and container are what endangers the world. */
    ghost predicate Doomed(w: World, spec: Spec) {
      Sabotaged(spec) && Preparable(w, spec) && Culprit(w, spec, gateway.value, plan.position, plan.container)
    }

    /** Spawn. A failure leaves everything as it was, but for the shared egress network, unless
        the record of the gateway's connection was lost; that happens only in an endangered
        world, and there it does happen when calls fail once both connections are made. */
    method Spawn(spec: Spec) returns (r: Result<Spawned, SpawnError>, ghost leaked: set<Connection>)
      requires Valid() && spec.Valid()
      modifies this`containers, this`networks, this`connections, this`volumes, this`nextId, this`calls, this`attempts
      ensures r.Failure? && !Endangered(old(State()), spec, gateway) ==> Restored(old(State()), State())
      ensures Serene() && Buildable(old(State()), spec, gateway) ==> r.Success?
      ensures Doomed(old(State()), spec) && old(Tried(spec)) == 0 ==> r.Failure? && leaked != {}
      ensures r.Failure? ==> (Restored(old(State()), State()) <==> leaked == {})
      ensures r.Failure? ==> containers == old(containers) && volumes == old(volumes) && connections == old(connections) + leaked
      ensures leaked != {} ==> LostRecord(old(State()), spec, gateway, leaked)
      ensures r.Success? ==> r.value.network == NetworkName(spec) && r.value.volume == VolumeName(spec) &&
                             NetworksReady(networks, spec) && VolumeReady(volumes, spec) && AllPlaced(State(), spec, r.value.containers)
      ensures r.Success? ==> gateway.Some? && Wired(old(State()), State(), spec, |spec.services|, gateway.value, r.value.containers, Truthful())
      ensures forall id :: id in old(containers) ==> id in containers && containers[id] == old(containers)[id]
    {
      hide Journaled, AllPlaced, Restored, GatewayKeyed, CleanedUp, Endangered, Doomed, Truthful, Wired, Serene, Buildable;
      ghost var before := State();
      var j, found, error;
      j, found, error, leaked := Acquire(spec);
      if error.Some? {
        RollbackIsExact(before, State(), spec, j, leaked);
        CleanUp(spec, j);
        return Failure(error.value), leaked;
      }
      return Success(Spawned(NetworkName(spec), VolumeName(spec), found)), leaked;
    }

    // ---- how the sabotage unfolds ----

    lemma StaysCalm(spec: Spec, w: World)
      ensures Sabotaged(spec) && Connection(NetworkName(spec), plan.container) !in w.connections ==> Calm(w)
    {}

    /** Up to the planned service everything succeeds without attaching its container, and
        there both connections are made and the start of the container fails. */
    lemma SabotageWorks(
      w: World, tried: multiset<Connection>, after: World, asked: multiset<Connection>, spec: Spec, n: nat, j: Journal, next: ContainerId,
      id: ContainerId, created: bool, attached: bool, ok: bool)
      requires spec.Valid() && Consistent(w) && Ordinary(spec, n) && forall i :: i in w.containers ==> i < next
      requires !created ==> after == w.(connections := w.connections + if attached then {Connection(NetworkName(spec), id)} else {})
      requires created ==> after == WithContainer(w, spec, spec.services[n], id) && id == next && asked == tried
      requires asked == tried || asked == tried + multiset{Connection(NetworkName(spec), id)}
      requires Foreseen(w, tried, after, asked, spec, spec.services[n], next, id, created, attached, ok)
      requires Sabotaged(spec) && Approach(w, spec, gateway, plan, n, j, tried[Planned(spec)])
      ensures if n < plan.position then ok && KeptOff(after, spec, plan, n, tried[Planned(spec)], asked[Planned(spec)])
              else !ok && attached && spec.services[n].key == "gateway" && "gateway" in j.machineConnections
    {
      hide AllAgree, Placeable, PlaceableFrom, Calm, Stormy, Sabotaged, Matches, Sharing;
      ApproachesPlaceable(w, spec, gateway, plan, n, j, tried[Planned(spec)]);
      StaysCalm(spec, w);
      if Named(w.containers, spec.services[n].containerName) {
        WhenSprung(spec, after);
        Conflicting(spec, Connection(NetworkName(spec), id), tried[Connection(NetworkName(spec), id)], w);
      } else {
        StaysCalm(spec, WithContainer(w, spec, spec.services[n], next));
      }
    }

    /** On a daemon without faults a service that can be placed is. */
    lemma SereneWorks(
      w: World, tried: multiset<Connection>, after: World, asked: multiset<Connection>, spec: Spec, service: Service, next: ContainerId,
      id: ContainerId, created: bool, attached: bool, ok: bool)
      requires Serene() && Foreseen(w, tried, after, asked, spec, service, next, id, created, attached, ok)
      requires NetworkName(spec) in w.networks && VolumeName(spec) in w.volumes && Placeable(w.containers, spec, service)
      ensures ok
    {
      hide Calm, Placeable, Serene;
      SereneIsCalm(w);
      SereneIsCalm(after);
      SereneIsCalm(WithContainer(w, spec, service, next));
    }

    lemma Conflicting(spec: Spec, c: Connection, n: nat, w: World)
      requires Sabotaged(spec)
      ensures conflicts(c, n, w) <==> c == Planned(spec) && n < Sharing(spec, plan.position, plan.position)
    {}

    lemma ApproachedOne(start: World, w: World, spec: Spec, n: nat, j0: Journal, tried: nat, j: Journal, after: nat, id: ContainerId)
      requires spec.Valid() && Ordinary(spec, n) && PlacedOne(start, w, spec, spec.services[n], id)
      requires j.machineConnections in {j0.machineConnections, j0.machineConnections[spec.services[n].key := id]}
      ensures Approach(start, spec, gateway, plan, n, j0, tried) && n < plan.position && KeptOff(w, spec, plan, n, tried, after) ==>
                Approach(w, spec, gateway, plan, n + 1, j, after)
      ensures Approach(w, spec, gateway, plan, n + 1, j, after) && Sabotaged(spec) ==> Calm(w) && EgressNetwork in w.networks
    {
      StaysCalm(spec, w);
      if Approach(start, spec, gateway, plan, n, j0, tried) && n < plan.position && KeptOff(w, spec, plan, n, tried, after) {
        ApproachNext(start, w, spec, gateway, plan, n, j0, tried, j, after, id);
      }
      hide AllAgree, PlaceableFrom, Calm, Sabotaged, PlacedOne, Sharing;
    }

    /** The egress network does not matter. */
    lemma StillOff(w: World, after: World, spec: Spec, n: nat, tried: nat, asked: nat, id: ContainerId)
      requires spec.Valid() && after.connections <= w.connections + {Connection(EgressNetwork, id)}
      ensures KeptOff(w, spec, plan, n, tried, asked) ==> KeptOff(after, spec, plan, n, tried, asked)
    {}

    lemma ApproachEnds(w: World, spec: Spec, n: nat, j: Journal, tried: nat)
      ensures Approach(w, spec, gateway, plan, n, j, tried) ==> n <= plan.position < |spec.services|
    {
      hide AllAgree, PlaceableFrom;
    }
  }

  lemma NothingHoused(w: World, spec: Spec)
    ensures Housed(w, spec, 0, {})
  {}

  lemma GrownTwice(a: World, b: World, c: World)
    requires Grown(a, b) && Grown(b, c)
    ensures Grown(a, c)
  {}

  lemma HostedStored(w: World, spec: Spec, service: Service, id: ContainerId)
    requires HostedBy(w, spec, service, id)
    ensures id in w.containers
  {}

  /** What ensuring one service's container does to the world. */
  lemma EnsuredOne(w: World, after: World, spec: Spec, n: nat, known: set<ContainerId>, id: ContainerId, created: bool, ok: bool)
    requires Ordinary(spec, n) && Housed(w, spec, n, known)
    requires created ==> ok && after == WithContainer(w, spec, spec.services[n], id) && id !in w.containers && spec.services[n].image != ""
    requires !created ==> after == w.(connections := after.connections) && w.connections <= after.connections &&
                          after.connections <= w.connections + {Connection(NetworkName(spec), id)}
    requires ok ==> HostedBy(after, spec, spec.services[n], id)
    ensures Grown(w, after)
    ensures ok ==> PlacedOne(w, after, spec, spec.services[n], id) && Housed(after, spec, n + 1, if created then known + {id} else known)
  {
    if ok {
      HousedNext(w, after, spec, n, known, id, created);
    }
    hide Housed;
  }

  /** And what attaching it to the egress network adds. */
  lemma EgressOne(start: World, w: World, after: World, spec: Spec, n: nat, known: set<ContainerId>, id: ContainerId)
    requires Ordinary(spec, n) && PlacedOne(start, w, spec, spec.services[n], id) && HostedBy(w, spec, spec.services[n], id)
    requires Housed(w, spec, n + 1, known) && after == w.(connections := after.connections)
    requires w.connections <= after.connections <= w.connections + {Connection(EgressNetwork, id)}
    ensures PlacedOne(start, after, spec, spec.services[n], id) && HostedBy(after, spec, spec.services[n], id)
    ensures Housed(after, spec, n + 1, known) && Grown(start, after)
  {
    StillHoused(w, after, spec, n + 1, known);
    hide Housed;
  }

  lemma StillHoused(a: World, b: World, spec: Spec, n: nat, known: set<ContainerId>)
    requires n <= |spec.services| && Housed(a, spec, n, known) && Grown(a, b)
    ensures Housed(b, spec, n, known)
  {
    forall k | 0 <= k < n && Ordinary(spec, k)
      ensures exists i :: HostedBy(b, spec, spec.services[k], i)
    {
      var i :| HostedBy(a, spec, spec.services[k], i);
      assert HostedBy(b, spec, spec.services[k], i);
    }
  }

  /** In every endangered world there is a spawn that fails and leaves the gateway attached:
      one whose calls fail from the moment the gateway and the container of the service keyed
      "gateway" are both attached, on a daemon that answers the earlier services of that
      container with a conflict. */
  method LoseRecord(w: World, nextId: ContainerId, spec: Spec, gateway: ContainerId, n: nat, id: ContainerId)
    returns (after: World, r: Result<Spawned, SpawnError>)
    requires Consistent(w) && (forall c :: c in w.containers ==> c < nextId) && spec.Valid()
    requires Preparable(w, spec) && Culprit(w, spec, gateway, n, id)
    ensures r.Failure? && after.connections == w.connections + {Connection(NetworkName(spec), gateway)} && !Restored(w, after)
  {
    hide Preparable, Restored, Consistent, Sharing;
    var planned, shared := Connection(NetworkName(spec), id), Sharing(spec, n, n);
    var faults := (c: nat, s: World) => Connection(NetworkName(spec), gateway) in s.connections && planned in s.connections;
    var conflicts := (c: Connection, k: nat, s: World) => c == planned && k < shared;
    var runtime := new DockerRuntime(w, nextId, Some(gateway), faults, conflicts, Plan(n, id));
    assert runtime.Doomed(w, spec);
    ghost var leaked;
    r, leaked := runtime.Spawn(spec);
    after := runtime.State();
  }

  /** The record of a container that a service created or attached. */
  method RecordService(
    ghost before: World, ghost w: World, ghost after: World, spec: Spec, ghost gateway: Option<ContainerId>, n: nat, j0: Journal,
    ghost leaked0: set<Connection>, id: ContainerId, created: bool, attached: bool)
    returns (j: Journal, ghost leaked: set<Connection>)
    requires spec.Valid() && n < |spec.services| && spec.services[n].serviceType != "terminal" && Preparable(before, spec) && Consistent(w)
    requires Progress(before, w, spec, gateway, n, j0, leaked0) && Housed(w, spec, n, j0.containers.Values)
    requires created ==> !attached && id !in w.containers && after == WithContainer(w, spec, spec.services[n], id)
    requires !created ==> after == w.(connections := w.connections + if attached then {Connection(NetworkName(spec), id)} else {})
    requires attached ==> id in w.containers && w.containers[id].name == spec.services[n].containerName &&
                          Matches(w.containers[id], spec, spec.services[n]) && Connection(NetworkName(spec), id) !in w.connections
    ensures Progress(before, after, spec, gateway, n + 1, j, leaked) && spec.services[n].key !in j.egressConnections
    ensures j.networkCreated == j0.networkCreated && j.volumeCreated == j0.volumeCreated
    ensures j.containers.Values == if created then j0.containers.Values + {id} else j0.containers.Values
    ensures j.machineConnections == if attached then j0.machineConnections[spec.services[n].key := id] else j0.machineConnections
    ensures attached && spec.services[n].key in j0.machineConnections ==> leaked != {}
  {
    hide Progress, Journaled, Consistent, Housed, Endangered, Preparable, Matches;
    var key := spec.services[n].key;
    j, leaked := j0, leaked0;
    KeyNotRecorded(before, w, spec, gateway, n, j, leaked);
    if attached {
      OverwritesGateway(before, w, spec, gateway, n, j, leaked, id);
      ProgressAttached(before, w, spec, gateway, n, j, leaked, id);
      leaked := LeakedAfter(spec, j, leaked, key);
      j := j.(machineConnections := j.machineConnections[key := id]);
    } else if created {
      ProgressCreated(before, w, spec, gateway, n, j, leaked, id, after.containers[id]);
      ValuesAfter(j.containers, key, id);
      j := j.(containers := j.containers[key := id]);
    } else {
      assert after == w;
      ProgressNothingNew(before, w, spec, gateway, n, j, leaked);
    }
  }

  lemma KeyNotRecorded(before: World, w: World, spec: Spec, gateway: Option<ContainerId>, n: nat, j: Journal, leaked: set<Connection>)
    requires spec.Valid() && n < |spec.services| && Progress(before, w, spec, gateway, n, j, leaked)
    ensures spec.services[n].key !in j.egressConnections && spec.services[n].key !in j.containers
  {
    KeyIsNew(spec, n);
  }

  /** The journal whenever the services' loop is left. */
  ghost predicate Settled(before: World, w: World, spec: Spec, gateway: Option<ContainerId>, j: Journal, leaked: set<Connection>) {
    Journaled(before, w, spec, j, leaked) && (leaked != {} ==> LostRecord(before, spec, gateway, leaked))
  }

  lemma PreparedSettles(before: World, w: World, spec: Spec, gateway: Option<ContainerId>, j: Journal)
    requires Journaled(before, w, spec, j, {})
    ensures Settled(before, w, spec, gateway, j, {})
  {}

  lemma ProgressSettles(before: World, w: World, spec: Spec, gateway: Option<ContainerId>, n: nat, j: Journal, leaked: set<Connection>)
    requires n <= |spec.services| && Progress(before, w, spec, gateway, n, j, leaked)
    ensures Settled(before, w, spec, gateway, j, leaked)
  {
    hide Journaled, Endangered;
  }

  /** What the first n services of the loop left behind: containers for the ordinary ones,
      the terminals put off. */
  ghost predicate PlacedUpTo(w: World, spec: Spec, n: nat, found: map<string, ContainerId>, terminals: seq<Service>)
    requires n <= |spec.services|
  {
    && (forall k :: 0 <= k < n && spec.services[k].serviceType != "terminal" ==> Placed(w, spec, spec.services[k], found))
    && (forall k :: 0 <= k < n && spec.services[k].serviceType == "terminal" ==> spec.services[k] in terminals)
    && (forall s :: s in terminals ==> s in spec.services && s.serviceType == "terminal")
  }

  lemma PlaceNext(w: World, after: World, spec: Spec, n: nat, found: map<string, ContainerId>, terminals: seq<Service>, id: ContainerId)
    requires spec.Valid() && n < |spec.services| && PlacedUpTo(w, spec, n, found, terminals) && Grown(w, after)
    requires spec.services[n].serviceType != "terminal" && HostedBy(after, spec, spec.services[n], id)
    ensures PlacedUpTo(after, spec, n + 1, found[spec.services[n].key := id], terminals)
  {}

  /** The second loop, after n of the terminals. */
  ghost predicate PlacedWithTerminals(w: World, spec: Spec, found: map<string, ContainerId>, terminals: seq<Service>, n: nat)
    requires n <= |terminals|
  {
    && (forall s :: s in spec.services && s.serviceType != "terminal" ==> Placed(w, spec, s, found))
    && (forall s :: s in spec.services && s.serviceType == "terminal" ==> s in terminals)
    && (forall s :: s in terminals ==> s in spec.services && s.serviceType == "terminal")
    && (n > 0 ==> "ide" in found)
    && (forall k :: 0 <= k < n ==> terminals[k].key in found && found[terminals[k].key] == found["ide"])
  }

  lemma TerminalsRemain(w: World, spec: Spec, found: map<string, ContainerId>, terminals: seq<Service>)
    requires PlacedUpTo(w, spec, |spec.services|, found, terminals)
    ensures PlacedWithTerminals(w, spec, found, terminals, 0)
  {}

  lemma TerminalsDone(w: World, spec: Spec, found: map<string, ContainerId>, terminals: seq<Service>)
    requires PlacedWithTerminals(w, spec, found, terminals, |terminals|)
    ensures AllPlaced(w, spec, found)
  {}

  lemma TerminalListed(w: World, spec: Spec, found: map<string, ContainerId>, terminals: seq<Service>, n: nat)
    requires n < |terminals| && PlacedWithTerminals(w, spec, found, terminals, n)
    ensures terminals[n] in spec.services && terminals[n].serviceType == "terminal"
  {}

  lemma PlaceTerminal(w: World, spec: Spec, found: map<string, ContainerId>, terminals: seq<Service>, n: nat)
    requires spec.Valid() && n < |terminals| && PlacedWithTerminals(w, spec, found, terminals, n) && "ide" in found
    ensures PlacedWithTerminals(w, spec, found[terminals[n].key := found["ide"]], terminals, n + 1)
  {}
}

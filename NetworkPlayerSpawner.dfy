/**
 * NetworkPlayerSpawner: on the server, a player object is spawned for the
 * host when the spawner comes up and for every other client when it
 * connects.  A client's spawn point and prefab are picked by its id modulo
 * the lengths of the configured arrays, with a chain of fallback prefabs.
 *
 * Object references are values: a null array or entry is `None`.  The
 * Instantiate, spawn and subscription calls are not modelled; the outcome
 * of each SpawnPlayer call is returned as a value instead.
 */
module NetworkPlayerSpawner {
  import opened Optional

  /** A Netcode client id, a C# `ulong`. */
  type ClientId = x: int | 0 <= x < 0x1_0000_0000_0000_0000

  datatype Transform = Transform(name: string)

  /** A prefab, and whether it carries a NetworkObject component. */
  datatype Prefab = Prefab(name: string, hasNetworkObject: bool)

  /** The spawner's serialized fields. */
  datatype SpawnerConfig = SpawnerConfig(
    spawnPoints: Option<seq<Transform>>,
    playerPrefabs: Option<seq<Option<Prefab>>>,
    defaultPlayerPrefab: Option<Prefab>)

  /** What the spawner reads from `NetworkManager.Singleton`. */
  datatype Network = Network(isServer: bool, isHost: bool, localClientId: ClientId, configPlayerPrefab: Option<Prefab>)

  /** What one SpawnPlayer call ends in. */
  datatype SpawnOutcome =
    | NoSpawnPoints
    | NoPrefab(clientId: ClientId)
    | NoNetworkObject(clientId: ClientId, prefab: Prefab)
    | Spawned(clientId: ClientId, spawnIndex: nat, spawnPoint: Transform, prefab: Prefab)

  /** `(int)(clientId % (ulong)length)`: always a valid index, and the id itself below the length. */
  function SlotIndex(clientId: ClientId, length: nat): (r: nat)
    requires length > 0
    ensures r < length
    ensures clientId < length ==> r == clientId
  {
    clientId % length
  }

  /** The prefab entry for a client, if the array has a non-null one at its slot. */
  function ArrayPrefab(cfg: SpawnerConfig, clientId: ClientId): (r: Option<Prefab>)
    ensures r.Some? <==>
              cfg.playerPrefabs.Some? && |cfg.playerPrefabs.value| > 0
              && cfg.playerPrefabs.value[SlotIndex(clientId, |cfg.playerPrefabs.value|)].Some?
    ensures r.Some? ==> r == cfg.playerPrefabs.value[SlotIndex(clientId, |cfg.playerPrefabs.value|)]
  {
    if cfg.playerPrefabs.Some? && |cfg.playerPrefabs.value| > 0 then
      var arr := cfg.playerPrefabs.value;
      var prefabIndex := SlotIndex(clientId, |arr|);
      // the bounds test in the source always holds
      if prefabIndex < |arr| && arr[prefabIndex].Some? then arr[prefabIndex] else None
    else None
  }

  /**
   * The prefab SpawnPlayer picks: the array's entry at the client's slot,
   * else the default prefab, else the NetworkConfig prefab.
   */
  function ChoosePrefab(cfg: SpawnerConfig, net: Network, clientId: ClientId): (r: Option<Prefab>)
    ensures ArrayPrefab(cfg, clientId).Some? ==> r == ArrayPrefab(cfg, clientId)
    ensures ArrayPrefab(cfg, clientId).None? && cfg.defaultPlayerPrefab.Some? ==> r == cfg.defaultPlayerPrefab
    ensures ArrayPrefab(cfg, clientId).None? && cfg.defaultPlayerPrefab.None? ==> r == net.configPlayerPrefab
    ensures r.None? <==>
              ArrayPrefab(cfg, clientId).None? && cfg.defaultPlayerPrefab.None? && net.configPlayerPrefab.None?
  {
    var fromArray := ArrayPrefab(cfg, clientId);
    if fromArray.Some? then fromArray
    else if cfg.defaultPlayerPrefab.Some? then cfg.defaultPlayerPrefab
    else net.configPlayerPrefab
  }

  /**
   * `SpawnPlayer(clientId)`: nothing without spawn points or without a
   * prefab; a prefab without a NetworkObject is instantiated and destroyed;
   * otherwise the client's player object is spawned at its slot.
   */
  function SpawnPlayer(cfg: SpawnerConfig, net: Network, clientId: ClientId): (r: SpawnOutcome)
    ensures r.NoSpawnPoints? <==> cfg.spawnPoints.None? || |cfg.spawnPoints.value| == 0
    ensures r.NoPrefab? <==> !r.NoSpawnPoints? && ChoosePrefab(cfg, net, clientId).None?
    ensures !r.NoSpawnPoints? ==> r.clientId == clientId
    ensures r.Spawned? ==>
              && r.spawnIndex < |cfg.spawnPoints.value|
              && r.spawnPoint == cfg.spawnPoints.value[r.spawnIndex]
              && r.spawnIndex == SlotIndex(clientId, |cfg.spawnPoints.value|)
              && Some(r.prefab) == ChoosePrefab(cfg, net, clientId)
              && r.prefab.hasNetworkObject
    ensures r.NoNetworkObject? ==> Some(r.prefab) == ChoosePrefab(cfg, net, clientId) && !r.prefab.hasNetworkObject
  {
    if cfg.spawnPoints.None? || |cfg.spawnPoints.value| == 0 then NoSpawnPoints
    else
      var spawnIndex := SlotIndex(clientId, |cfg.spawnPoints.value|);
      var prefab := ChoosePrefab(cfg, net, clientId);
      if prefab.None? then NoPrefab(clientId)
      else if !prefab.value.hasNetworkObject then NoNetworkObject(clientId, prefab.value)
      else Spawned(clientId, spawnIndex, cfg.spawnPoints.value[spawnIndex], prefab.value)
  }

  /** The SpawnPlayer calls `OnNetworkSpawn` makes: the host's own player, on a host. */
  function NetworkSpawnRequests(net: Network): (r: seq<ClientId>)
    ensures !net.isServer ==> r == []
    ensures net.isServer && net.isHost <==> r == [net.localClientId]
  {
    if !net.isServer then []
    else if net.isHost then [net.localClientId]
    else []
  }

  /** The SpawnPlayer calls `OnClientConnected(clientId)` makes: none for the host itself. */
  function ConnectedRequests(net: Network, clientId: ClientId): (r: seq<ClientId>)
    ensures r == [] || r == [clientId]
    ensures r == [clientId] <==> net.isServer && !(net.isHost && clientId == net.localClientId)
  {
    if !net.isServer then []
    else if clientId == net.localClientId && net.isHost then []
    else [clientId]
  }

  /** `OnNetworkSpawn`, then `OnClientConnected` for each connecting client in turn. */
  function SessionRequests(net: Network, connected: seq<ClientId>): seq<ClientId>
  {
    NetworkSpawnRequests(net) + ConnectRequests(net, connected)
  }

  function ConnectRequests(net: Network, connected: seq<ClientId>): seq<ClientId>
    decreases |connected|
  {
    if connected == [] then [] else ConnectedRequests(net, connected[0]) + ConnectRequests(net, connected[1..])
  }

  /** The outcomes of SpawnPlayer calls for `reqs`, in order. */
  function Outcomes(cfg: SpawnerConfig, net: Network, reqs: seq<ClientId>): (r: seq<SpawnOutcome>)
    ensures |r| == |reqs|
    decreases |reqs|
  {
    if reqs == [] then [] else [SpawnPlayer(cfg, net, reqs[0])] + Outcomes(cfg, net, reqs[1..])
  }

  /** The outcomes of a session's SpawnPlayer calls. */
  function SessionOutcomes(cfg: SpawnerConfig, net: Network, connected: seq<ClientId>): seq<SpawnOutcome>
  {
    Outcomes(cfg, net, SessionRequests(net, connected))
  }

  /** How many outcomes name `id` as their client. */
  function ForClient(outs: seq<SpawnOutcome>, id: ClientId): nat
    decreases |outs|
  {
    if outs == [] then 0
    else (if !outs[0].NoSpawnPoints? && outs[0].clientId == id then 1 else 0) + ForClient(outs[1..], id)
  }

  function Count(s: seq<ClientId>, id: ClientId): nat
    decreases |s|
  {
    if s == [] then 0 else (if s[0] == id then 1 else 0) + Count(s[1..], id)
  }

  lemma {:induction false} CountAppend(a: seq<ClientId>, b: seq<ClientId>, id: ClientId)
    ensures Count(a + b, id) == Count(a, id) + Count(b, id)
    decreases |a|
  {
    if a != [] {
      assert a + b != [] && (a + b)[0] == a[0];
      assert (a + b)[1..] == a[1..] + b;
      CountAppend(a[1..], b, id);
      assert Count(a + b, id) == (if a[0] == id then 1 else 0) + Count(a[1..] + b, id);
    } else {
      assert a + b == b;
    }
  }

  /** A non-server node spawns nothing, whoever connects. */
  lemma {:induction false} NonServerSpawnsNothing(net: Network, connected: seq<ClientId>)
    requires !net.isServer
    ensures SessionRequests(net, connected) == []
    decreases |connected|
  {
    if connected != [] {
      NonServerSpawnsNothing(net, connected[1..]);
    }
  }

  /**
   * On a host the host's player is spawned exactly once, in OnNetworkSpawn,
   * however often its own id is reported as connecting.
   */
  lemma {:induction false} HostSpawnedOnce(net: Network, connected: seq<ClientId>)
    requires net.isServer && net.isHost
    ensures Count(SessionRequests(net, connected), net.localClientId) == 1
  {
    HostNeverOnConnect(net, connected);
    CountAppend(NetworkSpawnRequests(net), ConnectRequests(net, connected), net.localClientId);
    assert Count([net.localClientId], net.localClientId) == 1;
  }

  lemma {:induction false} HostNeverOnConnect(net: Network, connected: seq<ClientId>)
    requires net.isServer && net.isHost
    ensures Count(ConnectRequests(net, connected), net.localClientId) == 0
    decreases |connected|
  {
    if connected != [] {
      HostNeverOnConnect(net, connected[1..]);
      CountAppend(ConnectedRequests(net, connected[0]), ConnectRequests(net, connected[1..]), net.localClientId);
    }
  }

  /** On a server every other client gets one SpawnPlayer call per connection. */
  lemma {:induction false} ClientSpawnedPerConnection(net: Network, connected: seq<ClientId>, id: ClientId)
    requires net.isServer && id != net.localClientId
    ensures Count(SessionRequests(net, connected), id) == Count(connected, id)
  {
    ConnectCountsConnections(net, connected, id);
    CountAppend(NetworkSpawnRequests(net), ConnectRequests(net, connected), id);
  }

  lemma {:induction false} ConnectCountsConnections(net: Network, connected: seq<ClientId>, id: ClientId)
    requires net.isServer && id != net.localClientId
    ensures Count(ConnectRequests(net, connected), id) == Count(connected, id)
    decreases |connected|
  {
    if connected != [] {
      ConnectCountsConnections(net, connected[1..], id);
      CountAppend(ConnectedRequests(net, connected[0]), ConnectRequests(net, connected[1..]), id);
    }
  }

  /**
   * With spawn points configured, every SpawnPlayer call leaves an outcome
   * naming its client, so the outcomes name each id as often as it was
   * requested.
   */
  lemma {:induction false} OutcomesNameRequests(cfg: SpawnerConfig, net: Network, reqs: seq<ClientId>, id: ClientId)
    requires cfg.spawnPoints.Some? && |cfg.spawnPoints.value| > 0
    ensures ForClient(Outcomes(cfg, net, reqs), id) == Count(reqs, id)
    decreases |reqs|
  {
    if reqs != [] {
      var outs := Outcomes(cfg, net, reqs);
      assert outs[0] == SpawnPlayer(cfg, net, reqs[0]);
      assert outs[1..] == Outcomes(cfg, net, reqs[1..]);
      OutcomesNameRequests(cfg, net, reqs[1..], id);
    }
  }

  /** A non-server node has no spawn outcomes at all. */
  lemma NonServerHasNoOutcomes(cfg: SpawnerConfig, net: Network, connected: seq<ClientId>)
    requires !net.isServer
    ensures SessionOutcomes(cfg, net, connected) == []
  {
    NonServerSpawnsNothing(net, connected);
  }

  /**
   * On a host with spawn points, the first outcome is the host's own
   * SpawnPlayer (at its slot, when a prefab with a NetworkObject is
   * found), and no other outcome names the host.
   */
  lemma HostOutcomeOnce(cfg: SpawnerConfig, net: Network, connected: seq<ClientId>)
    requires net.isServer && net.isHost
    requires cfg.spawnPoints.Some? && |cfg.spawnPoints.value| > 0
    ensures var outs := SessionOutcomes(cfg, net, connected);
            && |outs| > 0
            && outs[0] == SpawnPlayer(cfg, net, net.localClientId)
            && ForClient(outs, net.localClientId) == 1
    ensures var outs := SessionOutcomes(cfg, net, connected);
            outs[0].Spawned? ==> outs[0].spawnIndex == SlotIndex(net.localClientId, |cfg.spawnPoints.value|)
  {
    var reqs := SessionRequests(net, connected);
    assert reqs[0] == net.localClientId;
    HostSpawnedOnce(net, connected);
    OutcomesNameRequests(cfg, net, reqs, net.localClientId);
  }

  /** On a server with spawn points, every other client has one outcome per connection. */
  lemma ClientOutcomePerConnection(cfg: SpawnerConfig, net: Network, connected: seq<ClientId>, id: ClientId)
    requires net.isServer && id != net.localClientId
    requires cfg.spawnPoints.Some? && |cfg.spawnPoints.value| > 0
    ensures ForClient(SessionOutcomes(cfg, net, connected), id) == Count(connected, id)
  {
    ClientSpawnedPerConnection(net, connected, id);
    OutcomesNameRequests(cfg, net, SessionRequests(net, connected), id);
  }

  /**
   * Scenario: two spawn points, prefabs [A, null], a default D.  The host
   * (id 0) gets A at point 0; client 1 falls back to D at point 1; client
   * 2 gets A at point 0 again.
   */
  lemma TwoPointScenario(a: Prefab, d: Prefab, p0: Transform, p1: Transform, net: Network)
    requires a.hasNetworkObject && d.hasNetworkObject
    ensures var cfg := SpawnerConfig(Some([p0, p1]), Some([Some(a), None]), Some(d));
            && SpawnPlayer(cfg, net, 0) == Spawned(0, 0, p0, a)
            && SpawnPlayer(cfg, net, 1) == Spawned(1, 1, p1, d)
            && SpawnPlayer(cfg, net, 2) == Spawned(2, 0, p0, a)
  {
  }
}

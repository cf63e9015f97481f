/**
 * The network side of the Docker adapter: the port mapping handed to a container
 * create, and create-if-absent / remove-if-present of a named network over the
 * daemon's network table.
 */
module Networks {
  import opened Common
  import opened Engine

  /** A port a container exposes, bound to the same port on the host. */
  datatype ExposedPorts = ExposedPorts(port: string, protocol: string)

  datatype PortConfig = PortConfig(portBindings: map<Port, seq<PortBinding>>, portSet: set<Port>)

  /**
   * A port written as a non-empty string of digits. This is not exactly what
   * nat.NewPort accepts: it also takes the empty port and ranges such as
   * "8000-8010", and refuses numbers above 65535.
   */
  predicate IsPortNumber(s: string) {
    s != "" && forall i :: 0 <= i < |s| ==> '0' <= s[i] <= '9'
  }

  /** nat.NewPort(protocol, port). */
  function PortOf(p: ExposedPorts): Port {
    Port(p.protocol, p.port)
  }

  /** The mapping getNetworkConfig builds: every exposed port, each bound to the same host port. */
  function PortConfigOf(ports: seq<ExposedPorts>): PortConfig {
    var portSet := set i | 0 <= i < |ports| :: PortOf(ports[i]);
    PortConfig(map k | k in portSet :: [PortBinding("", k.number)], portSet)
  }

  method GetNetworkConfig(ports: seq<ExposedPorts>) returns (c: PortConfig)
    requires forall i :: 0 <= i < |ports| ==> IsPortNumber(ports[i].port)
    ensures c.portSet == set i | 0 <= i < |ports| :: PortOf(ports[i])
    ensures c.portBindings.Keys == c.portSet
    ensures forall i :: 0 <= i < |ports| ==> c.portBindings[PortOf(ports[i])] == [PortBinding("", ports[i].port)]
    ensures ports == [] ==> c.portSet == {} && c.portBindings == map[]
    ensures c == PortConfigOf(ports)
  {
    var portBindings: map<Port, seq<PortBinding>> := map[];
    var portSet: set<Port> := {};
    for i := 0 to |ports|
      invariant portSet == set j | 0 <= j < i :: PortOf(ports[j])
      invariant portBindings.Keys == portSet
      invariant forall k :: k in portBindings ==> portBindings[k] == [PortBinding("", k.number)]
    {
      var portName := PortOf(ports[i]);
      portBindings := portBindings[portName := [PortBinding("", ports[i].port)]];
      portSet := portSet + {portName};
    }
    c := PortConfig(portBindings, portSet);
  }

  // ---------------------------------------------------------------------------
  // Finding a network

  /** The zero NetworkResource returned when nothing is found. */
  const NoNetwork := Network("", "", "")

  const CouldNotCreate := Error("could not create network")

  datatype NetworkKey = ByName(name: string) | ById(id: string)

  predicate Selects(n: Network, key: NetworkKey) {
    match key
    case ByName(name) => n.name == name
    case ById(id) => n.id == id
  }

  /** The first network in list order that the key selects. */
  function FirstMatch(ns: seq<Network>, key: NetworkKey): Option<Network> {
    if ns == [] then None else if Selects(ns[0], key) then Some(ns[0]) else FirstMatch(ns[1..], key)
  }

  /** FirstMatch finds a network iff one is selected, and then the one with no selected network before it. */
  lemma {:induction false} FirstMatchIsFirst(ns: seq<Network>, key: NetworkKey)
    ensures FirstMatch(ns, key).None? <==> forall i :: 0 <= i < |ns| ==> !Selects(ns[i], key)
    ensures FirstMatch(ns, key).Some? ==>
      exists i :: 0 <= i < |ns| && ns[i] == FirstMatch(ns, key).value && Selects(ns[i], key)
        && forall j :: 0 <= j < i ==> !Selects(ns[j], key)
  {
    if ns != [] && !Selects(ns[0], key) {
      FirstMatchIsFirst(ns[1..], key);
      if FirstMatch(ns, key).Some? {
        var i :| 0 <= i < |ns[1..]| && ns[1..][i] == FirstMatch(ns, key).value && Selects(ns[1..][i], key)
          && forall j :: 0 <= j < i ==> !Selects(ns[1..][j], key);
        assert forall j :: 0 <= j < i + 1 ==> !Selects(ns[j], key) by {
          forall j | 0 <= j < i + 1 ensures !Selects(ns[j], key) {
            if j > 0 { assert ns[j] == ns[1..][j - 1]; }
          }
        }
      }
    } else if ns != [] {
      assert ns[0] == FirstMatch(ns, key).value;
    }
  }

  lemma {:induction false} FirstMatchAt(ns: seq<Network>, key: NetworkKey, i: nat)
    requires i < |ns| && Selects(ns[i], key)
    requires forall j :: 0 <= j < i ==> !Selects(ns[j], key)
    ensures FirstMatch(ns, key) == Some(ns[i])
  {
    if i > 0 {
      FirstMatchAt(ns[1..], key, i - 1);
    }
  }

  lemma {:induction false} FirstMatchNone(ns: seq<Network>, key: NetworkKey)
    requires forall j :: 0 <= j < |ns| ==> !Selects(ns[j], key)
    ensures FirstMatch(ns, key) == None
  {
    if ns != [] {
      FirstMatchNone(ns[1..], key);
    }
  }

  /** What findNetworkByName / findNetworkById return for a listing error and a listing. */
  function FindOutcome(ns: seq<Network>, key: NetworkKey, fault: Option<Error>): (bool, Network, Option<Error>) {
    if fault.Some? then (false, NoNetwork, fault)
    else match FirstMatch(ns, key)
      case Some(n) => (true, n, None)
      case None => (false, NoNetwork, None)
  }

  method FindNetworkByName(client: Daemon, name: string, fault: Option<Error>) returns (found: bool, network: Network, err: Option<Error>)
    ensures (found, network, err) == FindOutcome(client.networks, ByName(name), fault)
    ensures found ==> network in client.networks && network.name == name
    ensures !found ==> network == NoNetwork
  {
    var networks := client.NetworkList(fault);
    if networks.Failure? {
      return false, NoNetwork, Some(networks.error);
    }
    var ns := networks.value;
    for i := 0 to |ns|
      invariant forall j :: 0 <= j < i ==> ns[j].name != name
    {
      if ns[i].name == name {
        FirstMatchAt(ns, ByName(name), i);
        return true, ns[i], None;
      }
    }
    FirstMatchNone(ns, ByName(name));
    return false, NoNetwork, None;
  }

  method FindNetworkById(client: Daemon, id: string, fault: Option<Error>) returns (found: bool, network: Network, err: Option<Error>)
    ensures (found, network, err) == FindOutcome(client.networks, ById(id), fault)
    ensures found ==> network in client.networks && network.id == id
    ensures !found ==> network == NoNetwork
  {
    var networks := client.NetworkList(fault);
    if networks.Failure? {
      return false, NoNetwork, Some(networks.error);
    }
    var ns := networks.value;
    for i := 0 to |ns|
      invariant forall j :: 0 <= j < i ==> ns[j].id != id
    {
      if ns[i].id == id {
        FirstMatchAt(ns, ById(id), i);
        return true, ns[i], None;
      }
    }
    FirstMatchNone(ns, ById(id));
    return false, NoNetwork, None;
  }

  // ---------------------------------------------------------------------------
  // Ensuring and removing a network

  /** What the daemon answers to the requests of one EnsureNetwork or RemoveNetwork call. */
  datatype NetReplies = NetReplies(list: Option<Error>, create: Option<Error>, relist: Option<Error>, remove: Option<Error>)

  datatype Ensured = Ensured(created: bool, network: Network, err: Option<Error>, after: seq<Network>)

  /** EnsureNetwork over a network table: look the name up, create a bridge network if absent, find it again by id. */
  function EnsureNetworkSpec(ns: seq<Network>, name: string, r: NetReplies): Ensured {
    var (found, existing, lookupErr) := FindOutcome(ns, ByName(name), r.list);
    if lookupErr.Some? then Ensured(false, NoNetwork, lookupErr, ns)
    else if found then Ensured(false, existing, None, ns)
    else if r.create.Some? then Ensured(false, NoNetwork, r.create, ns)
    else
      var ns' := ns + [Network(FreshId(IdsOf(ns, NetworkId)), name, "bridge")];
      var (again, network, relistErr) := FindOutcome(ns', ById(FreshId(IdsOf(ns, NetworkId))), r.relist);
      if relistErr.Some? then Ensured(false, NoNetwork, relistErr, ns')
      else if again then Ensured(true, network, None, ns')
      else Ensured(false, NoNetwork, Some(CouldNotCreate), ns')
  }

  method EnsureNetwork(client: Daemon, name: string, r: NetReplies) returns (created: bool, network: Network, err: Option<Error>)
    requires client.Valid()
    modifies client
    ensures client.Valid() && client.containers == old(client.containers)
    ensures var e := EnsureNetworkSpec(old(client.networks), name, r);
      created == e.created && network == e.network && err == e.err && client.networks == e.after
  {
    var hasNetwork;
    hasNetwork, network, err := FindNetworkByName(client, name, r.list);
    if err.Some? {
      return false, NoNetwork, err;
    }
    if hasNetwork {
      return false, network, None;
    }
    var networkCreateResults := client.NetworkCreate(name, "bridge", r.create);
    if networkCreateResults.Failure? {
      return false, NoNetwork, Some(networkCreateResults.error);
    }
    hasNetwork, network, err := FindNetworkById(client, networkCreateResults.value, r.relist);
    if err.Some? {
      return false, NoNetwork, err;
    }
    if hasNetwork {
      return true, network, None;
    }
    return false, NoNetwork, Some(CouldNotCreate);
  }

  /** When the name is absent and every request succeeds, the new bridge network is found again and reported created. */
  lemma EnsureNetworkCreates(ns: seq<Network>, name: string, r: NetReplies)
    requires NetworksValid(ns)
    requires r.list.None? && r.create.None? && r.relist.None?
    requires forall i :: 0 <= i < |ns| ==> ns[i].name != name
    ensures var e := EnsureNetworkSpec(ns, name, r);
      e.created && e.err.None? && e.network == Network(FreshId(IdsOf(ns, NetworkId)), name, "bridge")
      && e.after == ns + [e.network]
  {
    FirstMatchNone(ns, ByName(name));
    var id := FreshId(IdsOf(ns, NetworkId));
    var ns' := ns + [Network(id, name, "bridge")];
    forall j | 0 <= j < |ns| ensures !Selects(ns'[j], ById(id)) {
      assert IdsOf(ns, NetworkId)[j] == ns[j].id;
    }
    FirstMatchAt(ns', ById(id), |ns|);
  }

  /** A second EnsureNetwork after a successful one creates nothing and reports created == false. */
  lemma EnsureNetworkIdempotent(ns: seq<Network>, name: string, r1: NetReplies, r2: NetReplies)
    requires NetworksValid(ns)
    requires EnsureNetworkSpec(ns, name, r1).err.None?
    requires r2.list.None?
    ensures var e1 := EnsureNetworkSpec(ns, name, r1);
      var e2 := EnsureNetworkSpec(e1.after, name, r2);
      !e2.created && e2.err.None? && e2.after == e1.after && e2.network.name == name
  {
    var e1 := EnsureNetworkSpec(ns, name, r1);
    FirstMatchIsFirst(ns, ByName(name));
    if FirstMatch(ns, ByName(name)).None? {
      EnsureNetworkCreates(ns, name, r1);
      assert Selects(e1.after[|ns|], ByName(name));
    } else {
      var i :| 0 <= i < |ns| && Selects(ns[i], ByName(name));
    }
    FirstMatchIsFirst(e1.after, ByName(name));
  }

  datatype Removed = Removed(removed: bool, err: Option<Error>, after: seq<Network>)

  /** RemoveNetwork over a network table: remove the first network of that name, if any. */
  function RemoveNetworkSpec(ns: seq<Network>, name: string, r: NetReplies): Removed {
    var (found, network, lookupErr) := FindOutcome(ns, ByName(name), r.list);
    if lookupErr.Some? then Removed(false, lookupErr, ns)
    else if !found then Removed(false, None, ns)
    else
      var e := if r.remove.Some? then r.remove else if !HasNetworkId(ns, network.id) then Some(NoSuchNetwork) else None;
      Removed(true, e, if e.Some? then ns else NetworksWithout(ns, network.id))
  }

  method RemoveNetwork(client: Daemon, name: string, r: NetReplies) returns (removed: bool, err: Option<Error>)
    requires client.Valid()
    modifies client
    ensures client.Valid() && client.containers == old(client.containers)
    ensures var e := RemoveNetworkSpec(old(client.networks), name, r);
      removed == e.removed && err == e.err && client.networks == e.after
  {
    var hasNetwork, network;
    hasNetwork, network, err := FindNetworkByName(client, name, r.list);
    if err.Some? {
      return false, err;
    }
    if !hasNetwork {
      return false, None;
    }
    err := client.NetworkRemove(network.id, r.remove);
    return true, err;
  }

  lemma {:induction false} WithoutAbsent(ns: seq<Network>, id: string)
    requires forall i :: 0 <= i < |ns| ==> ns[i].id != id
    ensures NetworksWithout(ns, id) == ns
  {
    if ns != [] {
      WithoutAbsent(ns[1..], id);
      assert ns == [ns[0]] + ns[1..];
    }
  }

  /** Removing the network EnsureNetwork has just created gives the table back as it was. */
  lemma EnsureThenRemove(ns: seq<Network>, name: string, r1: NetReplies, r2: NetReplies)
    requires NetworksValid(ns)
    requires EnsureNetworkSpec(ns, name, r1).created
    requires r2.list.None? && r2.remove.None?
    ensures var e := EnsureNetworkSpec(ns, name, r1);
      RemoveNetworkSpec(e.after, name, r2) == Removed(true, None, ns)
  {
    assert FirstMatch(ns, ByName(name)).None?;
    FirstMatchIsFirst(ns, ByName(name));
    EnsureNetworkCreates(ns, name, r1);
    var id := FreshId(IdsOf(ns, NetworkId));
    var n := Network(id, name, "bridge");
    var ns' := ns + [n];
    assert EnsureNetworkSpec(ns, name, r1).after == ns';
    FirstMatchAt(ns', ByName(name), |ns|);
    assert FindOutcome(ns', ByName(name), r2.list) == (true, n, None);
    assert HasNetworkId(ns', id) by { assert ns'[|ns|].id == id; }
    forall i | 0 <= i < |ns| ensures ns[i].id != id {
      assert IdsOf(ns, NetworkId)[i] == ns[i].id;
    }
    WithoutAbsent(ns, id);
    WithoutAppend(ns, [n], id);
    assert NetworksWithout([n], id) == [] by {
      assert [n][1..] == [];
    }
    assert NetworksWithout(ns', id) == ns;
  }

  lemma {:induction false} WithoutAppend(a: seq<Network>, b: seq<Network>, id: string)
    ensures NetworksWithout(a + b, id) == NetworksWithout(a, id) + NetworksWithout(b, id)
  {
    if a == [] {
      assert a + b == b;
    } else {
      var head := if a[0].id == id then [] else [a[0]];
      assert (a + b)[0] == a[0];
      assert (a + b)[1..] == a[1..] + b;
      calc {
        NetworksWithout(a + b, id);
        head + NetworksWithout(a[1..] + b, id);
        { WithoutAppend(a[1..], b, id); }
        head + (NetworksWithout(a[1..], id) + NetworksWithout(b, id));
        (head + NetworksWithout(a[1..], id)) + NetworksWithout(b, id);
        NetworksWithout(a, id) + NetworksWithout(b, id);
      }
    }
  }
}

/**
 * An abstract Docker daemon: the containers and networks it holds, and the
 * requests of its API that the adapter sends. This is the environment the
 * adapter talks to, not code of the adapter itself. Whatever the daemon does
 * that its state does not decide (a request failing, a wait status, log text)
 * is given to each request as an argument.
 */
module Engine {
  import opened Common

  /** A bind mount (mount.Mount with Type bind); also what an inspect reports. */
  datatype Mount = Mount(source: string, target: string)

  /** A container port key, nat.Port "<number>/<proto>". */
  datatype Port = Port(proto: string, number: string)

  datatype PortBinding = PortBinding(hostIP: string, hostPort: string)

  /** One ContainerCreate request: container.Config, HostConfig and NetworkingConfig together. */
  datatype CreateRequest = CreateRequest(
    name: string,
    image: string,
    tty: bool,
    exposed: set<Port>,
    cmd: seq<string>,
    hostname: string,
    env: seq<string>,
    labels: map<string, string>,
    bindings: map<Port, seq<PortBinding>>,
    mounts: seq<Mount>,
    endpoints: set<string>)

  /** A container as the daemon lists it; `names` are stored with a leading '/'. */
  datatype Container = Container(id: string, names: seq<string>, request: CreateRequest, running: bool)

  datatype Network = Network(id: string, name: string, driver: string)

  /** The label filter of a container listing. */
  datatype LabelFilter = AnyLabels | HasLabel(key: string) | LabelIs(key: string, value: string)

  const NoSuchContainer := Error("No such container")
  const NameConflict := Error("Conflict. The container name is already in use")
  const InvalidContainerName := Error("Invalid container name")
  const RemoveRunning := Error("You cannot remove a running container")
  const NoSuchNetwork := Error("No such network")

  // ---------------------------------------------------------------------------
  // Container table

  predicate Matches(c: Container, f: LabelFilter) {
    match f
    case AnyLabels => true
    case HasLabel(k) => k in c.request.labels
    case LabelIs(k, v) => k in c.request.labels && c.request.labels[k] == v
  }

  /** ContainerList: the containers the filter selects, running only unless `all`, in table order. */
  function Listing(cs: seq<Container>, all: bool, f: LabelFilter): (r: seq<Container>)
    ensures |r| <= |cs|
    ensures forall c :: c in r <==> c in cs && (all || c.running) && Matches(c, f)
  {
    if cs == [] then []
    else (if (all || cs[0].running) && Matches(cs[0], f) then [cs[0]] else []) + Listing(cs[1..], all, f)
  }

  /** The ids of a table of containers or networks, in table order. */
  function IdsOf<T>(xs: seq<T>, id: T -> string): (r: seq<string>)
    ensures |r| == |xs| && forall i :: 0 <= i < |xs| ==> r[i] == id(xs[i])
  {
    seq(|xs|, i requires 0 <= i < |xs| => id(xs[i]))
  }

  function ContainerId(c: Container): string { c.id }

  function NetworkId(n: Network): string { n.id }

  /** The container with this id, if the daemon has one. */
  function Lookup(cs: seq<Container>, id: string): (r: Option<Container>)
    ensures r.Some? ==> r.value in cs && r.value.id == id
    ensures r.None? ==> forall c :: c in cs ==> c.id != id
  {
    if cs == [] then None else if cs[0].id == id then Some(cs[0]) else Lookup(cs[1..], id)
  }

  /** The daemon's name check on create: some container already holds `nm`. */
  predicate NameTaken(cs: seq<Container>, nm: string) {
    exists i :: 0 <= i < |cs| && nm in cs[i].names
  }

  /** The table with the running flag of container `id` set to `running`. */
  function WithRunning(cs: seq<Container>, id: string, running: bool): (r: seq<Container>)
    ensures |r| == |cs|
    ensures forall i :: 0 <= i < |cs| ==> r[i] == if cs[i].id == id then cs[i].(running := running) else cs[i]
  {
    seq(|cs|, i requires 0 <= i < |cs| => if cs[i].id == id then cs[i].(running := running) else cs[i])
  }

  /** The table without container `id`. */
  function Without(cs: seq<Container>, id: string): (r: seq<Container>)
    ensures forall c :: c in r <==> c in cs && c.id != id
  {
    if cs == [] then [] else (if cs[0].id == id then [] else [cs[0]]) + Without(cs[1..], id)
  }

  function MaxLen(ss: seq<string>): (m: nat)
    ensures forall i :: 0 <= i < |ss| ==> |ss[i]| <= m
  {
    if ss == [] then 0 else var t := MaxLen(ss[1..]); if |ss[0]| > t then |ss[0]| else t
  }

  /** The id the daemon gives a new object: non-empty and unused (longer than every used id). */
  function FreshId(used: seq<string>): (id: string)
    ensures id != "" && id !in used
  {
    seq(MaxLen(used) + 1, _ => 'f')
  }

  /** A name as the daemon stores it: "/" followed by a valid name. */
  predicate StoredName(nm: string) {
    |nm| > 0 && nm[0] == '/' && ValidName(nm[1..])
  }

  /** What the daemon guarantees of its container table: ids are unique, names are unique. */
  ghost predicate ContainersValid(cs: seq<Container>) {
    && (forall c :: c in cs ==> c.id != "")
    && (forall c, d :: c in cs && d in cs && c.id == d.id ==> c == d)
    && (forall c, nm :: c in cs && nm in c.names ==> StoredName(nm))
    && (forall c, d, nm :: c in cs && d in cs && nm in c.names && nm in d.names ==> c == d)
  }

  ghost predicate NetworksValid(ns: seq<Network>) {
    && (forall n :: n in ns ==> n.id != "")
    && (forall n, m :: n in ns && m in ns && n.id == m.id ==> n == m)
  }

  /** The daemon's answer to ContainerCreate. */
  function CreateReply(cs: seq<Container>, req: CreateRequest, fault: Option<Error>): Result<string> {
    if fault.Some? then Failure(fault.value)
    else if !ValidName(req.name) then Failure(InvalidContainerName)
    else if NameTaken(cs, "/" + req.name) then Failure(NameConflict)
    else Success(FreshId(IdsOf(cs, ContainerId)))
  }

  /** The daemon's answer to ContainerStart and ContainerStop. */
  function KnownReply(cs: seq<Container>, id: string, fault: Option<Error>): Option<Error> {
    if fault.Some? then fault else if Lookup(cs, id).None? then Some(NoSuchContainer) else None
  }

  /** The daemon's answer to ContainerRemove: a running container is refused. */
  function RemoveReply(cs: seq<Container>, id: string, fault: Option<Error>): Option<Error> {
    if fault.Some? then fault
    else if Lookup(cs, id).None? then Some(NoSuchContainer)
    else if Lookup(cs, id).value.running then Some(RemoveRunning)
    else None
  }

  /** The daemon's answer to ContainerWait. */
  function WaitReply(cs: seq<Container>, id: string, reply: Result<int>): Result<int> {
    if reply.Failure? then reply else if Lookup(cs, id).None? then Failure(NoSuchContainer) else reply
  }

  /** Every container of the table after WithRunning is one before, with at most its running flag changed. */
  lemma WithRunningFrom(cs: seq<Container>, id: string, running: bool)
    ensures forall c :: c in WithRunning(cs, id, running) ==>
      exists d :: d in cs && c == d.(running := c.running) && (c.id != id ==> c == d)
  {
    var r := WithRunning(cs, id, running);
    forall c | c in r ensures exists d :: d in cs && c == d.(running := c.running) && (c.id != id ==> c == d) {
      var i :| 0 <= i < |r| && r[i] == c;
      assert cs[i] in cs;
    }
  }

  lemma WithRunningValid(cs: seq<Container>, id: string, running: bool)
    requires ContainersValid(cs)
    ensures ContainersValid(WithRunning(cs, id, running))
  {
    WithRunningFrom(cs, id, running);
  }

  lemma CreateValid(cs: seq<Container>, req: CreateRequest, fault: Option<Error>)
    requires ContainersValid(cs)
    requires CreateReply(cs, req, fault).Success?
    ensures ContainersValid(cs + [Container(CreateReply(cs, req, fault).value, ["/" + req.name], req, false)])
  {
    var id := FreshId(IdsOf(cs, ContainerId));
    var nc := Container(id, ["/" + req.name], req, false);
    var r := cs + [nc];
    assert ("/" + req.name)[1..] == req.name;
    forall c | c in cs ensures c.id != id && "/" + req.name !in c.names {
      var i :| 0 <= i < |cs| && cs[i] == c;
      assert IdsOf(cs, ContainerId)[i] == c.id;
    }
    assert forall c :: c in r <==> c in cs || c == nc;
  }

  // ---------------------------------------------------------------------------
  // The daemon

  class Daemon {
    var containers: seq<Container>
    var networks: seq<Network>

    ghost predicate Valid()
      reads this
    {
      ContainersValid(containers) && NetworksValid(networks)
    }

    method ContainerList(all: bool, filter: LabelFilter, fault: Option<Error>) returns (r: Result<seq<Container>>)
      ensures r == if fault.Some? then Failure(fault.value) else Success(Listing(containers, all, filter))
    {
      if fault.Some? {
        return Failure(fault.value);
      }
      return Success(Listing(containers, all, filter));
    }

    method ContainerCreate(req: CreateRequest, fault: Option<Error>) returns (r: Result<string>)
      requires Valid()
      modifies this
      ensures Valid() && networks == old(networks)
      ensures r == CreateReply(old(containers), req, fault)
      ensures containers == if r.Success? then old(containers) + [Container(r.value, ["/" + req.name], req, false)]
                            else old(containers)
    {
      r := CreateReply(containers, req, fault);
      if r.Success? {
        CreateValid(containers, req, fault);
        containers := containers + [Container(r.value, ["/" + req.name], req, false)];
      }
    }

    method ContainerStart(id: string, fault: Option<Error>) returns (err: Option<Error>)
      requires Valid()
      modifies this
      ensures Valid() && networks == old(networks)
      ensures err == KnownReply(old(containers), id, fault)
      ensures containers == if err.Some? then old(containers) else WithRunning(old(containers), id, true)
    {
      if fault.Some? {
        return fault;
      }
      if Lookup(containers, id).None? {
        return Some(NoSuchContainer);
      }
      WithRunningValid(containers, id, true);
      containers := WithRunning(containers, id, true);
      return None;
    }

    method ContainerStop(id: string, fault: Option<Error>) returns (err: Option<Error>)
      requires Valid()
      modifies this
      ensures Valid() && networks == old(networks)
      ensures err == KnownReply(old(containers), id, fault)
      ensures containers == if err.Some? then old(containers) else WithRunning(old(containers), id, false)
    {
      if fault.Some? {
        return fault;
      }
      if Lookup(containers, id).None? {
        return Some(NoSuchContainer);
      }
      WithRunningValid(containers, id, false);
      containers := WithRunning(containers, id, false);
      return None;
    }

    method ContainerRemove(id: string, fault: Option<Error>) returns (err: Option<Error>)
      requires Valid()
      modifies this
      ensures Valid() && networks == old(networks)
      ensures err == RemoveReply(old(containers), id, fault)
      ensures containers == if err.Some? then old(containers) else Without(old(containers), id)
    {
      if fault.Some? {
        return fault;
      }
      var c := Lookup(containers, id);
      if c.None? {
        return Some(NoSuchContainer);
      }
      if c.value.running {
        return Some(RemoveRunning);
      }
      containers := Without(containers, id);
      return None;
    }

    /** Blocks until the container exits; `reply` is the exit status or the error the wait channel gives. */
    method ContainerWait(id: string, reply: Result<int>) returns (r: Result<int>)
      requires Valid()
      modifies this
      ensures Valid() && networks == old(networks)
      ensures r == WaitReply(old(containers), id, reply)
      ensures containers == if r.Failure? then old(containers) else WithRunning(old(containers), id, false)
    {
      if reply.Failure? {
        return reply;
      }
      if Lookup(containers, id).None? {
        return Failure(NoSuchContainer);
      }
      WithRunningValid(containers, id, false);
      containers := WithRunning(containers, id, false);
      return reply;
    }

    /** The combined log text, or the error of the log stream; the daemon's state does not decide it. */
    method ContainerLogs(id: string, reply: Result<string>) returns (r: Result<string>)
      ensures r == reply
    {
      return reply;
    }

    method ContainerInspect(id: string, fault: Option<Error>) returns (r: Result<seq<Mount>>)
      ensures r == if fault.Some? then Failure(fault.value)
                   else if Lookup(containers, id).None? then Failure(NoSuchContainer)
                   else Success(Lookup(containers, id).value.request.mounts)
    {
      if fault.Some? {
        return Failure(fault.value);
      }
      var c := Lookup(containers, id);
      if c.None? {
        return Failure(NoSuchContainer);
      }
      return Success(c.value.request.mounts);
    }

    method NetworkList(fault: Option<Error>) returns (r: Result<seq<Network>>)
      ensures r == if fault.Some? then Failure(fault.value) else Success(networks)
    {
      if fault.Some? {
        return Failure(fault.value);
      }
      return Success(networks);
    }

    method NetworkCreate(name: string, driver: string, fault: Option<Error>) returns (r: Result<string>)
      requires Valid()
      modifies this
      ensures Valid() && containers == old(containers)
      ensures r == if fault.Some? then Failure(fault.value) else Success(FreshId(IdsOf(old(networks), NetworkId)))
      ensures networks == if r.Success? then old(networks) + [Network(r.value, name, driver)] else old(networks)
    {
      if fault.Some? {
        return Failure(fault.value);
      }
      var id := FreshId(IdsOf(networks, NetworkId));
      forall n | n in networks ensures n.id != id {
        var i :| 0 <= i < |networks| && networks[i] == n;
        assert IdsOf(networks, NetworkId)[i] == n.id;
      }
      networks := networks + [Network(id, name, driver)];
      return Success(id);
    }

    method NetworkRemove(id: string, fault: Option<Error>) returns (err: Option<Error>)
      requires Valid()
      modifies this
      ensures Valid() && containers == old(containers)
      ensures err == if fault.Some? then fault else if !HasNetworkId(old(networks), id) then Some(NoSuchNetwork) else None
      ensures networks == if err.Some? then old(networks) else NetworksWithout(old(networks), id)
    {
      if fault.Some? {
        return fault;
      }
      if !HasNetworkId(networks, id) {
        return Some(NoSuchNetwork);
      }
      networks := NetworksWithout(networks, id);
      return None;
    }
  }

  // ---------------------------------------------------------------------------
  // Network table

  predicate HasNetworkId(ns: seq<Network>, id: string) {
    exists i :: 0 <= i < |ns| && ns[i].id == id
  }

  function NetworksWithout(ns: seq<Network>, id: string): (r: seq<Network>)
    ensures forall n :: n in r <==> n in ns && n.id != id
  {
    if ns == [] then [] else (if ns[0].id == id then [] else [ns[0]]) + NetworksWithout(ns[1..], id)
  }
}

/**
 * The container side of the Docker adapter (package docker, container.go):
 * listing by site label, looking a running container up by name, and the
 * run / run-and-clean / stop / restart / exec operations over the daemon's
 * container table.
 */
module Containers {
  import opened Common
  import opened Engine
  import opened Networks

  /** The label that marks a container as belonging to a site. */
  const SiteLabel := "kana.site"

  datatype ContainerConfig = ContainerConfig(
    name: string,
    image: string,
    ports: seq<ExposedPorts>,
    hostName: string,
    networkName: string,
    volumes: seq<Mount>,
    command: seq<string>,
    env: seq<string>,
    labels: map<string, string>)

  datatype ExecResult = ExecResult(stdOut: string, stdErr: string, exitCode: int)

  /** The zero ExecResult{}. */
  const NoExecResult := ExecResult("", "", 0)

  /**
   * What the daemon answers to the requests of one adapter call: a fault per
   * request kind (None: the daemon's own rules decide), the wait channel's
   * value and the log stream's text.
   */
  datatype Replies = Replies(
    list: Option<Error>,
    create: Option<Error>,
    start: Option<Error>,
    stop: Option<Error>,
    remove: Option<Error>,
    inspect: Option<Error>,
    wait: Result<int>,
    logs: Result<string>)

  /** How one exec behaves: the error of each stage (create, attach, output copy, inspect) and what it printed. */
  datatype ExecReply = ExecReply(
    createErr: Option<Error>,
    attachErr: Option<Error>,
    copyErr: Option<Error>,
    inspectErr: Option<Error>,
    stdOut: string,
    stdErr: string,
    exitCode: int)

  // ---------------------------------------------------------------------------
  // Listing by site

  /** The label filter: the key alone when no site is given, key=site otherwise. */
  function SiteFilter(site: string): (f: LabelFilter)
    ensures forall c :: Matches(c, f) <==> OwnedBy(c, site)
  {
    if |site| == 0 then HasLabel(SiteLabel) else LabelIs(SiteLabel, site)
  }

  /** The container carries the site label, with value `site` unless `site` is empty. */
  predicate OwnedBy(c: Container, site: string) {
    SiteLabel in c.request.labels && (site == "" || c.request.labels[SiteLabel] == site)
  }

  method ListContainers(client: Daemon, site: string, fault: Option<Error>) returns (ids: seq<string>, err: Option<Error>)
    ensures err == fault
    ensures fault.Some? ==> ids == []
    ensures fault.None? ==> ids == IdsOf(Listing(client.containers, true, SiteFilter(site)), ContainerId)
  {
    var f: LabelFilter;
    if |site| == 0 {
      f := HasLabel(SiteLabel);
    } else {
      f := LabelIs(SiteLabel, site);
    }
    var containers := client.ContainerList(true, f, fault);
    if containers.Failure? {
      return [], Some(containers.error);
    }
    var cs := containers.value;
    var containerIds := new string[|cs|];
    for i := 0 to |cs|
      invariant forall j :: 0 <= j < i ==> containerIds[j] == cs[j].id
    {
      containerIds[i] := cs[i].id;
    }
    return containerIds[..], None;
  }

  /** The listed ids are exactly those of the site's containers, running or stopped. */
  lemma ListedAreOwned(cs: seq<Container>, site: string)
    ensures forall id :: id in IdsOf(Listing(cs, true, SiteFilter(site)), ContainerId) <==>
      exists c :: c in cs && c.id == id && OwnedBy(c, site)
  {
    var l := Listing(cs, true, SiteFilter(site));
    forall id ensures id in IdsOf(l, ContainerId) <==> exists c :: c in cs && c.id == id && OwnedBy(c, site) {
      if id in IdsOf(l, ContainerId) {
        var i :| 0 <= i < |l| && IdsOf(l, ContainerId)[i] == id;
        assert l[i] in l;
      }
      if exists c :: c in cs && c.id == id && OwnedBy(c, site) {
        var c :| c in cs && c.id == id && OwnedBy(c, site);
        assert c in l;
        var i :| 0 <= i < |l| && l[i] == c;
        assert IdsOf(l, ContainerId)[i] == id;
      }
    }
  }

  // ---------------------------------------------------------------------------
  // The running container of a name

  /** One of the container's names, with the slashes at both ends trimmed, is `name`. */
  predicate Named(c: Container, name: string) {
    exists k :: 0 <= k < |c.names| && name == TrimSlashes(c.names[k])
  }

  /** The id of the first container in list order with that name. */
  function FirstNamed(cs: seq<Container>, name: string): Option<string> {
    if cs == [] then None else if Named(cs[0], name) then Some(cs[0].id) else FirstNamed(cs[1..], name)
  }

  /** What IsContainerRunning finds: a listing error finds nothing; only running containers are listed. */
  function RunningIdOf(cs: seq<Container>, name: string, fault: Option<Error>): Option<string> {
    if fault.Some? then None else FirstNamed(Listing(cs, false, AnyLabels), name)
  }

  /** FirstNamed finds an id iff some container has the name, and then the first such container's id. */
  lemma {:induction false} FirstNamedIsFirst(cs: seq<Container>, name: string)
    ensures FirstNamed(cs, name).None? <==> forall i :: 0 <= i < |cs| ==> !Named(cs[i], name)
    ensures FirstNamed(cs, name).Some? ==>
      exists i :: 0 <= i < |cs| && cs[i].id == FirstNamed(cs, name).value && Named(cs[i], name)
        && forall j :: 0 <= j < i ==> !Named(cs[j], name)
  {
    if cs != [] && !Named(cs[0], name) {
      FirstNamedIsFirst(cs[1..], name);
      if FirstNamed(cs, name).Some? {
        var i :| 0 <= i < |cs[1..]| && cs[1..][i].id == FirstNamed(cs, name).value && Named(cs[1..][i], name)
          && forall j :: 0 <= j < i ==> !Named(cs[1..][j], name);
        assert forall j :: 0 <= j < i + 1 ==> !Named(cs[j], name) by {
          forall j | 0 <= j < i + 1 ensures !Named(cs[j], name) {
            if j > 0 { assert cs[j] == cs[1..][j - 1]; }
          }
        }
      }
    }
  }

  lemma {:induction false} FirstNamedAt(cs: seq<Container>, name: string, i: nat)
    requires i < |cs| && Named(cs[i], name)
    requires forall j :: 0 <= j < i ==> !Named(cs[j], name)
    ensures FirstNamed(cs, name) == Some(cs[i].id)
  {
    if i > 0 {
      FirstNamedAt(cs[1..], name, i - 1);
    }
  }

  lemma {:induction false} FirstNamedNone(cs: seq<Container>, name: string)
    requires forall j :: 0 <= j < |cs| ==> !Named(cs[j], name)
    ensures FirstNamed(cs, name) == None
  {
    if cs != [] {
      FirstNamedNone(cs[1..], name);
    }
  }

  method IsContainerRunning(client: Daemon, containerName: string, fault: Option<Error>) returns (id: string, isRunning: bool)
    ensures isRunning <==> RunningIdOf(client.containers, containerName, fault).Some?
    ensures id == if isRunning then RunningIdOf(client.containers, containerName, fault).value else ""
  {
    var containers := client.ContainerList(false, AnyLabels, fault);
    if containers.Failure? {
      return "", false;
    }
    var cs := containers.value;
    for i := 0 to |cs|
      invariant forall j :: 0 <= j < i ==> !Named(cs[j], containerName)
    {
      var names := cs[i].names;
      for k := 0 to |names|
        invariant forall l :: 0 <= l < k ==> containerName != TrimSlashes(names[l])
      {
        if containerName == TrimSlashes(names[k]) {
          assert Named(cs[i], containerName);
          FirstNamedAt(cs, containerName, i);
          return cs[i].id, true;
        }
      }
      assert !Named(cs[i], containerName);
    }
    FirstNamedNone(cs, containerName);
    return "", false;
  }

  /** A name of a container the daemon holds trims to `name` only if it is "/" + `name`. */
  lemma NamedStored(cs: seq<Container>, c: Container, name: string)
    requires ContainersValid(cs) && c in cs && Named(c, name)
    ensures ValidName(name) && "/" + name in c.names
  {
    var k :| 0 <= k < |c.names| && name == TrimSlashes(c.names[k]);
    var nm := c.names[k];
    assert StoredName(nm);
    assert nm == "/" + nm[1..];
    TrimStoredName(nm[1..]);
  }

  /** In a table the daemon keeps, at most one container answers to a name. */
  lemma NamedUnique(cs: seq<Container>, name: string, c: Container, d: Container)
    requires ContainersValid(cs) && c in cs && d in cs
    requires Named(c, name) && Named(d, name)
    ensures c == d
  {
    NamedStored(cs, c, name);
    NamedStored(cs, d, name);
  }

  /** A container created as `name` answers to `name`. */
  lemma CreatedIsNamed(c: Container, name: string)
    requires ValidName(name) && c.names == ["/" + name]
    ensures Named(c, name)
  {
    TrimStoredName(name);
    assert name == TrimSlashes(c.names[0]);
  }

  /** In a table the daemon keeps, the running container of a name is what IsContainerRunning finds. */
  lemma RunningIdIs(cs: seq<Container>, name: string, c: Container)
    requires ContainersValid(cs) && c in cs && c.running && Named(c, name)
    ensures RunningIdOf(cs, name, None) == Some(c.id)
  {
    var l := Listing(cs, false, AnyLabels);
    assert c in l;
    FirstNamedIsFirst(l, name);
    var i :| 0 <= i < |l| && l[i] == c;
    assert FirstNamed(l, name).Some?;
    var j :| 0 <= j < |l| && l[j].id == FirstNamed(l, name).value && Named(l[j], name);
    assert l[j] in l;
    NamedUnique(cs, name, c, l[j]);
  }

  /** What IsContainerRunning finds is a running container of that name. */
  lemma RunningIdFound(cs: seq<Container>, name: string, fault: Option<Error>)
    requires RunningIdOf(cs, name, fault).Some?
    ensures exists c :: c in cs && c.id == RunningIdOf(cs, name, fault).value && c.running && Named(c, name)
  {
    var l := Listing(cs, false, AnyLabels);
    FirstNamedIsFirst(l, name);
    var i :| 0 <= i < |l| && l[i].id == FirstNamed(l, name).value && Named(l[i], name);
    assert l[i] in l;
  }

  /** With no running container of that name, IsContainerRunning finds nothing. */
  lemma NoneRunning(cs: seq<Container>, name: string, fault: Option<Error>)
    requires forall c :: c in cs && c.running ==> !Named(c, name)
    ensures RunningIdOf(cs, name, fault) == None
  {
    var l := Listing(cs, false, AnyLabels);
    forall j | 0 <= j < |l| ensures !Named(l[j], name) {
      assert l[j] in l;
    }
    FirstNamedNone(l, name);
  }

  /** When IsContainerRunning finds nothing with the listing answered, no running container has the name. */
  lemma RunningIdNone(cs: seq<Container>, name: string)
    requires RunningIdOf(cs, name, None).None?
    ensures forall c :: c in cs && c.running ==> !Named(c, name)
  {
    var l := Listing(cs, false, AnyLabels);
    FirstNamedIsFirst(l, name);
    forall c | c in cs && c.running ensures !Named(c, name) {
      assert c in l;
      var i :| 0 <= i < |l| && l[i] == c;
    }
  }

  // ---------------------------------------------------------------------------
  // Mounts

  /** The mounts ContainerGetMounts reports: none unless running; an inspect error reads as no mounts. */
  function MountsOf(cs: seq<Container>, name: string, r: Replies): seq<Mount> {
    match RunningIdOf(cs, name, r.list)
    case None => []
    case Some(id) =>
      if r.inspect.Some? || Lookup(cs, id).None? then [] else Lookup(cs, id).value.request.mounts
  }

  method ContainerGetMounts(client: Daemon, containerName: string, r: Replies) returns (mounts: seq<Mount>)
    ensures RunningIdOf(client.containers, containerName, r.list).None? ==> mounts == []
    ensures mounts == MountsOf(client.containers, containerName, r)
  {
    var containerID, isRunning := IsContainerRunning(client, containerName, r.list);
    if !isRunning {
      return [];
    }
    var results := client.ContainerInspect(containerID, r.inspect);
    if results.Failure? {
      return [];
    }
    return results.value;
  }

  /** With a healthy daemon, the mounts are those the running container of that name was created with. */
  lemma MountsOfRunning(cs: seq<Container>, name: string, r: Replies, c: Container)
    requires ContainersValid(cs) && c in cs && c.running && Named(c, name)
    requires r.list.None? && r.inspect.None?
    ensures MountsOf(cs, name, r) == c.request.mounts
  {
    RunningIdIs(cs, name, c);
    var found := Lookup(cs, c.id);
    assert found.Some?;
  }

  // ---------------------------------------------------------------------------
  // Run

  /** The create request ContainerRun sends for a configuration. */
  function CreateRequestFor(config: ContainerConfig): (req: CreateRequest)
    ensures req.name == config.name && req.tty
    ensures req.exposed == PortConfigOf(config.ports).portSet
    ensures req.bindings == PortConfigOf(config.ports).portBindings
    ensures req.mounts == config.volumes && req.labels == config.labels && req.hostname == config.hostName
    ensures req.endpoints == if |config.networkName| > 0 then {config.networkName} else {}
  {
    var pc := PortConfigOf(config.ports);
    CreateRequest(
      config.name, config.image, true, pc.portSet, config.command, config.hostName, config.env, config.labels,
      pc.portBindings, config.volumes,
      if |config.networkName| > 0 then {config.networkName} else {})
  }

  datatype Ran = Ran(id: string, err: Option<Error>, after: seq<Container>)

  /**
   * ContainerRun: a running container of that name is reused; otherwise a
   * create, then a start of the new container.
   */
  function RunSpec(cs: seq<Container>, config: ContainerConfig, r: Replies): Ran {
    match RunningIdOf(cs, config.name, r.list)
    case Some(id) => Ran(id, None, cs)
    case None =>
      var req := CreateRequestFor(config);
      match CreateReply(cs, req, r.create)
      case Failure(e) => Ran("", Some(e), cs)
      case Success(id) =>
        var created := cs + [Container(id, ["/" + config.name], req, false)];
        var e := KnownReply(created, id, r.start);
        if e.Some? then Ran("", e, created) else Ran(id, None, WithRunning(created, id, true))
  }

  method ContainerRun(client: Daemon, config: ContainerConfig, r: Replies) returns (id: string, err: Option<Error>)
    requires client.Valid()
    requires forall i :: 0 <= i < |config.ports| ==> IsPortNumber(config.ports[i].port)
    modifies client
    ensures client.Valid() && client.networks == old(client.networks)
    ensures RunningIdOf(old(client.containers), config.name, r.list).Some? ==> client.containers == old(client.containers)
    ensures CreateReply(old(client.containers), CreateRequestFor(config), r.create).Failure? ==> client.containers == old(client.containers)
    ensures err.Some? ==> id == ""
    ensures Ran(id, err, client.containers) == RunSpec(old(client.containers), config, r)
  {
    var containerID, isRunning := IsContainerRunning(client, config.name, r.list);
    if isRunning {
      return containerID, None;
    }
    var containerPorts := GetNetworkConfig(config.ports);
    var bindings: map<Port, seq<PortBinding>> := map[];
    if |containerPorts.portBindings| > 0 {
      bindings := containerPorts.portBindings;
    }
    var endpoints: set<string> := {};
    if |config.networkName| > 0 {
      endpoints := {config.networkName};
    }
    var req := CreateRequest(
      config.name, config.image, true, containerPorts.portSet, config.command, config.hostName, config.env,
      config.labels, bindings, config.volumes, endpoints);
    assert req == CreateRequestFor(config);
    var resp := client.ContainerCreate(req, r.create);
    if resp.Failure? {
      return "", Some(resp.error);
    }
    err := client.ContainerStart(resp.value, r.start);
    if err.Some? {
      return "", err;
    }
    return resp.value, None;
  }

  /** A run keeps the daemon's table rules. */
  lemma RunValid(cs: seq<Container>, config: ContainerConfig, r: Replies)
    requires ContainersValid(cs)
    ensures ContainersValid(RunSpec(cs, config, r).after)
  {
    var req := CreateRequestFor(config);
    if RunningIdOf(cs, config.name, r.list).None? && CreateReply(cs, req, r.create).Success? {
      CreateValid(cs, req, r.create);
      var id := CreateReply(cs, req, r.create).value;
      WithRunningValid(cs + [Container(id, ["/" + config.name], req, false)], id, true);
    }
  }

  /**
   * After a successful run, the container of that name is running under the
   * returned id, every other container is as it was, and running again
   * reuses it: nothing is created or started.
   */
  lemma RunIdempotent(cs: seq<Container>, config: ContainerConfig, r1: Replies, r2: Replies)
    requires ContainersValid(cs)
    requires RunSpec(cs, config, r1).err.None?
    requires r2.list.None?
    ensures var o := RunSpec(cs, config, r1);
      && RunningIdOf(o.after, config.name, None) == Some(o.id)
      && (forall c :: c in cs && c.id != o.id ==> c in o.after)
      && RunSpec(o.after, config, r2) == Ran(o.id, None, o.after)
  {
    var o := RunSpec(cs, config, r1);
    RunValid(cs, config, r1);
    match RunningIdOf(cs, config.name, r1.list)
    case Some(id) =>
      RunningIdFound(cs, config.name, r1.list);
      var c :| c in cs && c.id == id && c.running && Named(c, config.name);
      RunningIdIs(cs, config.name, c);
    case None =>
      var req := CreateRequestFor(config);
      var id := CreateReply(cs, req, r1.create).value;
      var created := cs + [Container(id, ["/" + config.name], req, false)];
      assert o.after == WithRunning(created, id, true);
      var c := o.after[|cs|];
      assert c == Container(id, ["/" + config.name], req, true);
      CreatedIsNamed(c, config.name);
      assert c in o.after;
      RunningIdIs(o.after, config.name, c);
      forall d | d in cs && d.id != id ensures d in o.after {
        var i :| 0 <= i < |cs| && cs[i] == d;
        assert o.after[i] == d;
      }
  }

  /** A run never changes, stops or removes a container that was already there. */
  lemma RunKeeps(cs: seq<Container>, config: ContainerConfig, r: Replies)
    ensures forall c :: c in cs ==> c in RunSpec(cs, config, r).after
  {
    var req := CreateRequestFor(config);
    if RunningIdOf(cs, config.name, r.list).None? && CreateReply(cs, req, r.create).Success? {
      var id := CreateReply(cs, req, r.create).value;
      var created := cs + [Container(id, ["/" + config.name], req, false)];
      if KnownReply(created, id, r.start).None? {
        var after := WithRunning(created, id, true);
        forall c | c in cs ensures c in after {
          var i :| 0 <= i < |cs| && cs[i] == c;
          assert IdsOf(cs, ContainerId)[i] == c.id;
          assert after[i] == c;
        }
      }
    }
  }

  // ---------------------------------------------------------------------------
  // Wait, logs, run-and-clean

  method ContainerWait(client: Daemon, id: string, reply: Result<int>) returns (state: int, err: Option<Error>)
    requires client.Valid()
    modifies client
    ensures client.Valid() && client.networks == old(client.networks)
    ensures WaitReply(old(client.containers), id, reply).Failure? ==>
      state == 0 && err == Some(WaitReply(old(client.containers), id, reply).error) && client.containers == old(client.containers)
    ensures WaitReply(old(client.containers), id, reply).Success? ==>
      state == reply.value && err == None && client.containers == WithRunning(old(client.containers), id, false)
  {
    var result := client.ContainerWait(id, reply);
    if result.Failure? {
      return 0, Some(result.error);
    }
    return result.value, None;
  }

  method ContainerLog(client: Daemon, id: string, reply: Result<string>) returns (result: string, err: Option<Error>)
    ensures reply.Failure? ==> result == "" && err == Some(reply.error)
    ensures reply.Success? ==> result == reply.value && err == None
  {
    var logs := client.ContainerLogs(id, reply);
    if logs.Failure? {
      return "", Some(logs.error);
    }
    return logs.value, None;
  }

  datatype Cleaned = Cleaned(statusCode: int, body: string, err: Option<Error>, after: seq<Container>)

  /**
   * ContainerRunAndClean: run, wait for the exit, read the log (its error is
   * dropped), remove. The error returned is the run's, the wait's, or else
   * the removal's.
   */
  function RunAndCleanSpec(cs: seq<Container>, config: ContainerConfig, r: Replies): Cleaned {
    var run := RunSpec(cs, config, r);
    if run.err.Some? then Cleaned(0, "", run.err, run.after)
    else
      var w := WaitReply(run.after, run.id, r.wait);
      if w.Failure? then Cleaned(0, "", Some(w.error), run.after)
      else
        var exited := WithRunning(run.after, run.id, false);
        var body := if r.logs.Success? then r.logs.value else "";
        var e := RemoveReply(exited, run.id, r.remove);
        Cleaned(w.value, body, e, if e.Some? then exited else Without(exited, run.id))
  }

  method ContainerRunAndClean(client: Daemon, config: ContainerConfig, r: Replies) returns (statusCode: int, body: string, err: Option<Error>)
    requires client.Valid()
    requires forall i :: 0 <= i < |config.ports| ==> IsPortNumber(config.ports[i].port)
    modifies client
    ensures client.Valid() && client.networks == old(client.networks)
    ensures RunSpec(old(client.containers), config, r).err.Some? ==>
      statusCode == 0 && client.containers == RunSpec(old(client.containers), config, r).after
    ensures Cleaned(statusCode, body, err, client.containers) == RunAndCleanSpec(old(client.containers), config, r)
  {
    statusCode, body := 0, "";
    var id;
    id, err := ContainerRun(client, config, r);
    if err.Some? {
      return;
    }
    statusCode, err := ContainerWait(client, id, r.wait);
    if err.Some? {
      return;
    }
    var logErr;
    body, logErr := ContainerLog(client, id, r.logs);
    err := client.ContainerRemove(id, r.remove);
  }

  /**
   * After a successful run the table is one the daemon keeps, and holds a
   * running container `m` of that name with the returned id; no other
   * container of the table before has that id, and all others are still there.
   */
  lemma RunHolds(cs: seq<Container>, config: ContainerConfig, r: Replies) returns (m: Container)
    requires ContainersValid(cs)
    requires RunSpec(cs, config, r).err.None?
    ensures var run := RunSpec(cs, config, r);
      && ContainersValid(run.after)
      && m in run.after && m.id == run.id && m.running && Named(m, config.name)
      && (forall c :: c in cs && c.id == run.id ==> c == m)
      && (forall c :: c in cs && c.id != run.id ==> c in run.after)
  {
    var run := RunSpec(cs, config, r);
    RunIdempotent(cs, config, r, r.(list := None));
    RunValid(cs, config, r);
    RunningIdFound(run.after, config.name, None);
    m :| m in run.after && m.id == run.id && m.running && Named(m, config.name);
    if RunningIdOf(cs, config.name, r.list).None? {
      forall c | c in cs ensures c.id != run.id {
        var i :| 0 <= i < |cs| && cs[i] == c;
        assert IdsOf(cs, ContainerId)[i] == c.id;
      }
    }
  }

  /**
   * With the run, the wait and the removal answered, the call succeeds and
   * returns the wait status: the exit status itself is never an error. A
   * failed log read only empties the body.
   */
  lemma RunAndCleanSucceeds(cs: seq<Container>, config: ContainerConfig, r: Replies)
    requires ContainersValid(cs)
    requires RunSpec(cs, config, r).err.None? && r.wait.Success? && r.remove.None?
    ensures var o := RunAndCleanSpec(cs, config, r);
      && o.err.None? && o.statusCode == r.wait.value
      && o.body == if r.logs.Success? then r.logs.value else ""
  {
    var run := RunSpec(cs, config, r);
    var m := RunHolds(cs, config, r);
    var found := Lookup(run.after, run.id);
    assert found == Some(m);
    var exited := WithRunning(run.after, run.id, false);
    var i :| 0 <= i < |run.after| && run.after[i] == m;
    assert exited[i] == m.(running := false);
    WithRunningValid(run.after, run.id, false);
    var gone := Lookup(exited, run.id);
    assert gone == Some(m.(running := false));
  }

  /**
   * A clean run leaves no container of that name behind, and every other
   * container of the table as it was.
   */
  lemma RunAndCleanLeavesNone(cs: seq<Container>, config: ContainerConfig, r: Replies)
    requires ContainersValid(cs)
    requires RunAndCleanSpec(cs, config, r).err.None?
    ensures var o := RunAndCleanSpec(cs, config, r);
      && (forall c :: c in o.after ==> !Named(c, config.name))
      && (forall c :: c in cs && !Named(c, config.name) ==> c in o.after)
  {
    var o := RunAndCleanSpec(cs, config, r);
    var run := RunSpec(cs, config, r);
    var m := RunHolds(cs, config, r);
    var exited := WithRunning(run.after, run.id, false);
    assert o.after == Without(exited, run.id);
    forall c | c in o.after ensures !Named(c, config.name) {
      var i :| 0 <= i < |exited| && exited[i] == c;
      assert run.after[i] == c;
      if Named(c, config.name) {
        assert run.after[i] in run.after;
        NamedUnique(run.after, config.name, c, m);
      }
    }
    forall c | c in cs && !Named(c, config.name) ensures c in o.after {
      assert c.id != run.id;
      var i :| 0 <= i < |run.after| && run.after[i] == c;
      assert exited[i] == c;
    }
  }

  // ---------------------------------------------------------------------------
  // Stop and restart

  datatype Controlled = Controlled(ok: bool, err: Option<Error>, after: seq<Container>)

  /** ContainerStop: nothing to do unless running; otherwise stop, then remove the same id. */
  function StopSpec(cs: seq<Container>, name: string, r: Replies): Controlled {
    match RunningIdOf(cs, name, r.list)
    case None => Controlled(true, None, cs)
    case Some(id) =>
      var e := KnownReply(cs, id, r.stop);
      if e.Some? then Controlled(false, e, cs)
      else
        var stopped := WithRunning(cs, id, false);
        var e2 := RemoveReply(stopped, id, r.remove);
        if e2.Some? then Controlled(false, e2, stopped) else Controlled(true, None, Without(stopped, id))
  }

  method ContainerStop(client: Daemon, containerName: string, r: Replies) returns (ok: bool, err: Option<Error>)
    requires client.Valid()
    modifies client
    ensures client.Valid() && client.networks == old(client.networks)
    ensures RunningIdOf(old(client.containers), containerName, r.list).None? ==>
      ok && err.None? && client.containers == old(client.containers)
    ensures Controlled(ok, err, client.containers) == StopSpec(old(client.containers), containerName, r)
  {
    var containerID, isRunning := IsContainerRunning(client, containerName, r.list);
    if !isRunning {
      return true, None;
    }
    err := client.ContainerStop(containerID, r.stop);
    if err.Some? {
      return false, err;
    }
    err := client.ContainerRemove(containerID, r.remove);
    if err.Some? {
      return false, err;
    }
    return true, None;
  }

  /** Marking the one running container of a name as stopped leaves none of that name running. */
  lemma StoppedLeavesNone(cs: seq<Container>, name: string, m: Container)
    requires ContainersValid(cs) && m in cs && m.running && Named(m, name)
    ensures forall c :: c in WithRunning(cs, m.id, false) && c.running ==> !Named(c, name)
  {
    var stopped := WithRunning(cs, m.id, false);
    forall c | c in stopped && c.running ensures !Named(c, name) {
      var i :| 0 <= i < |stopped| && stopped[i] == c;
      assert cs[i] == c;
      if Named(c, name) {
        assert cs[i] in cs;
        NamedUnique(cs, name, c, m);
      }
    }
  }

  /** A successful stop, with the listing answered, leaves no running container of that name behind. */
  lemma StopClears(cs: seq<Container>, name: string, r: Replies)
    requires ContainersValid(cs)
    requires r.list.None? && StopSpec(cs, name, r).err.None?
    ensures forall c :: c in StopSpec(cs, name, r).after && c.running ==> !Named(c, name)
  {
    match RunningIdOf(cs, name, r.list)
    case None =>
      RunningIdNone(cs, name);
    case Some(id) =>
      RunningIdFound(cs, name, r.list);
      var m :| m in cs && m.id == id && m.running && Named(m, name);
      StoppedLeavesNone(cs, name, m);
  }

  /** A successful stop removes at most the running container of that name. */
  lemma StopKeepsOthers(cs: seq<Container>, name: string, r: Replies)
    requires ContainersValid(cs)
    requires StopSpec(cs, name, r).err.None?
    ensures forall c :: c in cs && !(c.running && Named(c, name)) ==> c in StopSpec(cs, name, r).after
  {
    if RunningIdOf(cs, name, r.list).Some? {
      var o := StopSpec(cs, name, r);
      var id := RunningIdOf(cs, name, r.list).value;
      RunningIdFound(cs, name, r.list);
      var m :| m in cs && m.id == id && m.running && Named(m, name);
      var stopped := WithRunning(cs, id, false);
      forall c | c in cs && !(c.running && Named(c, name)) ensures c in o.after {
        assert c != m;
        var i :| 0 <= i < |cs| && cs[i] == c;
        assert stopped[i] == c;
      }
    }
  }

  /**
   * A successful stop (with the listing answered) leaves no running container
   * of that name and removes only that one; stopping again does nothing.
   */
  lemma StopIdempotent(cs: seq<Container>, name: string, r1: Replies, r2: Replies)
    requires ContainersValid(cs)
    requires r1.list.None? && StopSpec(cs, name, r1).err.None?
    ensures var o := StopSpec(cs, name, r1);
      && RunningIdOf(o.after, name, None) == None
      && (forall c :: c in cs && !(c.running && Named(c, name)) ==> c in o.after)
      && StopSpec(o.after, name, r2) == Controlled(true, None, o.after)
  {
    var o := StopSpec(cs, name, r1);
    StopClears(cs, name, r1);
    StopKeepsOthers(cs, name, r1);
    NoneRunning(o.after, name, r2.list);
    NoneRunning(o.after, name, None);
  }

  /** A stop starts nothing and keeps the daemon's table rules: every running container after was running before. */
  lemma StopNeverStarts(cs: seq<Container>, name: string, r: Replies)
    requires ContainersValid(cs)
    ensures ContainersValid(StopSpec(cs, name, r).after)
    ensures forall c :: c in StopSpec(cs, name, r).after && c.running ==> c in cs
  {
    if RunningIdOf(cs, name, r.list).Some? {
      var id := RunningIdOf(cs, name, r.list).value;
      var stopped := WithRunning(cs, id, false);
      WithRunningValid(cs, id, false);
      forall c | c in stopped && c.running ensures c in cs {
        var i :| 0 <= i < |stopped| && stopped[i] == c;
      }
    }
  }

  /** ContainerRestart: nothing to do unless running; otherwise stop, then start the same id. */
  function RestartSpec(cs: seq<Container>, name: string, r: Replies): Controlled {
    match RunningIdOf(cs, name, r.list)
    case None => Controlled(true, None, cs)
    case Some(id) =>
      var e := KnownReply(cs, id, r.stop);
      if e.Some? then Controlled(false, e, cs)
      else
        var stopped := WithRunning(cs, id, false);
        var e2 := KnownReply(stopped, id, r.start);
        if e2.Some? then Controlled(false, e2, stopped) else Controlled(true, None, WithRunning(stopped, id, true))
  }

  method ContainerRestart(client: Daemon, containerName: string, r: Replies) returns (ok: bool, err: Option<Error>)
    requires client.Valid()
    modifies client
    ensures client.Valid() && client.networks == old(client.networks)
    ensures RunningIdOf(old(client.containers), containerName, r.list).None? ==>
      ok && err.None? && client.containers == old(client.containers)
    ensures Controlled(ok, err, client.containers) == RestartSpec(old(client.containers), containerName, r)
  {
    var containerID, isRunning := IsContainerRunning(client, containerName, r.list);
    if !isRunning {
      return true, None;
    }
    err := client.ContainerStop(containerID, r.stop);
    if err.Some? {
      return false, err;
    }
    err := client.ContainerStart(containerID, r.start);
    if err.Some? {
      return false, err;
    }
    return true, None;
  }

  /**
   * A restart never removes a container: the ids are those before, in the
   * same order. A successful restart leaves the table exactly as it was.
   */
  lemma RestartKeepsContainers(cs: seq<Container>, name: string, r: Replies)
    requires ContainersValid(cs)
    ensures IdsOf(RestartSpec(cs, name, r).after, ContainerId) == IdsOf(cs, ContainerId)
    ensures RestartSpec(cs, name, r).err.None? ==> RestartSpec(cs, name, r).after == cs
  {
    var o := RestartSpec(cs, name, r);
    if RunningIdOf(cs, name, r.list).Some? {
      var id := RunningIdOf(cs, name, r.list).value;
      RunningIdFound(cs, name, r.list);
      var m :| m in cs && m.id == id && m.running && Named(m, name);
      if o.err.None? {
        var after := WithRunning(WithRunning(cs, id, false), id, true);
        assert o.after == after;
        forall i | 0 <= i < |cs| ensures after[i] == cs[i] {
          if cs[i].id == id {
            assert cs[i] in cs;
            assert cs[i] == m;
          }
        }
      }
    }
  }

  // ---------------------------------------------------------------------------
  // Exec

  /** The command an exec runs: the given words under `sh -c`. */
  function ShellCommand(command: seq<string>): (full: seq<string>)
    ensures |full| == |command| + 2 && full[..2] == ["sh", "-c"] && full[2..] == command
  {
    ["sh", "-c"] + command
  }

  /** ContainerExec: zero result unless running; the first failing stage's error with a zero result. */
  function ExecSpec(cs: seq<Container>, name: string, command: seq<string>, fault: Option<Error>,
                    exec: (string, seq<string>) -> ExecReply): (ExecResult, Option<Error>)
  {
    match RunningIdOf(cs, name, fault)
    case None => (NoExecResult, None)
    case Some(id) =>
      var x := exec(id, ShellCommand(command));
      if x.createErr.Some? then (NoExecResult, x.createErr)
      else if x.attachErr.Some? then (NoExecResult, x.attachErr)
      else if x.copyErr.Some? then (NoExecResult, x.copyErr)
      else if x.inspectErr.Some? then (NoExecResult, x.inspectErr)
      else (ExecResult(x.stdOut, x.stdErr, x.exitCode), None)
  }

  method ContainerExec(client: Daemon, containerName: string, command: seq<string>, fault: Option<Error>,
                       exec: (string, seq<string>) -> ExecReply) returns (result: ExecResult, err: Option<Error>)
    ensures (result, err) == ExecSpec(client.containers, containerName, command, fault, exec)
  {
    var containerID, isRunning := IsContainerRunning(client, containerName, fault);
    if !isRunning {
      return NoExecResult, None;
    }
    var fullCommand := ["sh", "-c"];
    fullCommand := fullCommand + command;
    var reply := exec(containerID, fullCommand);
    if reply.createErr.Some? {
      return NoExecResult, reply.createErr;
    }
    if reply.attachErr.Some? {
      return NoExecResult, reply.attachErr;
    }
    if reply.copyErr.Some? {
      return NoExecResult, reply.copyErr;
    }
    if reply.inspectErr.Some? {
      return NoExecResult, reply.inspectErr;
    }
    return ExecResult(reply.stdOut, reply.stdErr, reply.exitCode), None;
  }

  /**
   * Every error path yields the zero result; a container not running yields
   * the zero result and no error; otherwise the output and exit code are
   * those of `sh -c` followed by the command in the container found by name.
   * A non-zero exit code is not an error.
   */
  lemma ExecOutcome(cs: seq<Container>, name: string, command: seq<string>, fault: Option<Error>,
                    exec: (string, seq<string>) -> ExecReply)
    ensures var (res, err) := ExecSpec(cs, name, command, fault, exec);
      && (err.Some? ==> res == NoExecResult)
      && (RunningIdOf(cs, name, fault).None? ==> res == NoExecResult && err.None?)
      && (err.None? && RunningIdOf(cs, name, fault).Some? ==>
            var x := exec(RunningIdOf(cs, name, fault).value, ["sh", "-c"] + command);
            res == ExecResult(x.stdOut, x.stdErr, x.exitCode))
  {
  }
}

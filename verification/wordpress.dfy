/**
 * The WordPress side of a site (wordpress.go): the containers a site is made
 * of and how they are configured, starting and stopping them, and running
 * wp-cli in a one-shot container.
 */
module WordPress {
  import opened Common
  import opened Engine
  import opened Networks
  import opened Containers
  import opened Sites

  /** The Docker network every site container joins. */
  const NetworkName := "kana"

  /** Where WordPress lives inside its containers. */
  const WebRoot := "/var/www/html"

  /** What GetRunningConfig reports of the running site. */
  datatype CurrentConfig = CurrentConfig(siteType: string, local: bool, xdebug: bool)

  datatype PluginInfo = PluginInfo(name: string, status: string, update: string, version: string)

  // ---------------------------------------------------------------------------
  // The site's containers

  /** GetSiteContainers: the database container, then the WordPress container. */
  function SiteContainers(siteName: string): (names: seq<string>)
    ensures names == ["kana_" + siteName + "_database", "kana_" + siteName + "_wordpress"]
    ensures names[0] != names[1]
  {
    RolesNeverCollide(siteName, siteName);
    assert ContainerName(siteName, "database") == "kana_" + siteName + "_database";
    assert ContainerName(siteName, "wordpress") == "kana_" + siteName + "_wordpress";
    [ContainerName(siteName, "database"), ContainerName(siteName, "wordpress")]
  }

  /** getLocalAppDir: <cwd>/wordpress, or the error of os.Getwd or of creating it. */
  function LocalAppDir(cwd: Result<string>, mkdirErr: Option<Error>): (r: Result<string>)
    ensures cwd.Failure? ==> r == Failure(cwd.error)
    ensures cwd.Success? && mkdirErr.Some? ==> r == Failure(mkdirErr.value)
    ensures cwd.Success? && mkdirErr.None? ==> r == Success(PathJoin(cwd.value, "wordpress"))
  {
    if cwd.Failure? then Failure(cwd.error)
    else if mkdirErr.Some? then Failure(mkdirErr.value)
    else Success(PathJoin(cwd.value, "wordpress"))
  }

  /**
   * getMounts: the application directory on the web root always comes first;
   * the working directory is added as the plugin or theme of that name for a
   * plugin or theme site. Without a working directory only the first mount
   * is returned, with the error.
   */
  function SiteMounts(appDir: string, siteType: string, siteName: string, cwd: Result<string>): (r: (seq<Mount>, Option<Error>))
    ensures 1 <= |r.0| <= 2 && r.0[0] == Mount(appDir, WebRoot)
    ensures cwd.Failure? ==> r == ([Mount(appDir, WebRoot)], Some(cwd.error))
    ensures cwd.Success? ==> r.1.None? && (|r.0| == 2 <==> siteType == "plugin" || siteType == "theme")
    ensures cwd.Success? && siteType == "plugin" ==> r.0[1] == Mount(cwd.value, WebRoot + "/wp-content/plugins/" + siteName)
    ensures cwd.Success? && siteType == "theme" ==> r.0[1] == Mount(cwd.value, WebRoot + "/wp-content/themes/" + siteName)
  {
    var appVolumes := [Mount(appDir, WebRoot)];
    if cwd.Failure? then (appVolumes, Some(cwd.error))
    else
      var withPlugin :=
        if siteType == "plugin" then appVolumes + [Mount(cwd.value, PathJoin(PathJoin(PathJoin(WebRoot, "wp-content"), "plugins"), siteName))]
        else appVolumes;
      var withTheme :=
        if siteType == "theme" then withPlugin + [Mount(cwd.value, PathJoin(PathJoin(PathJoin(WebRoot, "wp-content"), "themes"), siteName))]
        else withPlugin;
      (withTheme, None)
  }

  /** The traefik router rule of a site: its domain as the Host matcher. */
  function TraefikRule(siteName: string, appDomain: string): string {
    "Host(`" + SiteDomain(siteName, appDomain) + "`)"
  }

  /** The label prefix of the site's plain-HTTP router. */
  function HttpRouter(siteName: string): string {
    "traefik.http.routers.wordpress-" + siteName + "-http"
  }

  /** The label prefix of the site's HTTPS router. */
  function SecureRouter(siteName: string): string {
    "traefik.http.routers.wordpress-" + siteName
  }

  function DatabaseSpec(siteName: string, databaseDir: string): ContainerConfig {
    ContainerConfig(
      ContainerName(siteName, "database"), "mariadb", [], ContainerName(siteName, "database"), NetworkName,
      [Mount(databaseDir, "/var/lib/mysql")], [],
      ["MARIADB_ROOT_PASSWORD=password", "MARIADB_DATABASE=wordpress", "MARIADB_USER=wordpress", "MARIADB_PASSWORD=wordpress"],
      map[SiteLabel := siteName])
  }

  function WordPressSpec(siteName: string, appDomain: string, php: string, appVolumes: seq<Mount>): ContainerConfig {
    ContainerConfig(
      ContainerName(siteName, "wordpress"), "wordpress:php" + php, [], ContainerName(siteName, "wordpress"), NetworkName,
      appVolumes, [],
      ["WORDPRESS_DB_HOST=" + ContainerName(siteName, "database"), "WORDPRESS_DB_USER=wordpress",
       "WORDPRESS_DB_PASSWORD=wordpress", "WORDPRESS_DB_NAME=wordpress"],
      map[
        "traefik.enable" := "true",
        HttpRouter(siteName) + ".entrypoints" := "web",
        HttpRouter(siteName) + ".rule" := TraefikRule(siteName, appDomain),
        SecureRouter(siteName) + ".entrypoints" := "websecure",
        SecureRouter(siteName) + ".rule" := TraefikRule(siteName, appDomain),
        SecureRouter(siteName) + ".tls" := "true",
        SiteLabel := siteName])
  }

  /** The wp-cli container: the command runs under `wp --path=/var/www/html`. */
  function CliSpec(siteName: string, php: string, command: seq<string>, appVolumes: seq<Mount>): (c: ContainerConfig)
    ensures |c.command| == |command| + 2 && c.command[0] == "wp" && c.command[1] == "--path=" + WebRoot && c.command[2..] == command
  {
    ContainerConfig(
      ContainerName(siteName, "wordpress_cli"), "wordpress:cli-php" + php, [], ContainerName(siteName, "wordpress_cli"),
      NetworkName, appVolumes, ["wp", "--path=" + WebRoot] + command,
      ["WORDPRESS_DB_HOST=" + ContainerName(siteName, "database"), "WORDPRESS_DB_USER=wordpress",
       "WORDPRESS_DB_PASSWORD=wordpress", "WORDPRESS_DB_NAME=wordpress"],
      map[SiteLabel := siteName])
  }

  /**
   * Every container of a site carries the ownership label with the site's
   * name, joins the site network and is its own host name; the WordPress and
   * wp-cli containers find the database under the database container's name;
   * the database and wp-cli containers carry no label but the ownership label.
   */
  lemma SpecsWiring(siteName: string, appDomain: string, php: string, databaseDir: string, appVolumes: seq<Mount>, command: seq<string>)
    ensures var specs := [DatabaseSpec(siteName, databaseDir), WordPressSpec(siteName, appDomain, php, appVolumes),
                          CliSpec(siteName, php, command, appVolumes)];
      forall k :: 0 <= k < |specs| ==>
        && SiteLabel in specs[k].labels && specs[k].labels[SiteLabel] == siteName
        && specs[k].hostName == specs[k].name && specs[k].networkName == NetworkName
        && (k > 0 ==> specs[k].env[0] == "WORDPRESS_DB_HOST=" + specs[0].name)
    ensures DatabaseSpec(siteName, databaseDir).labels.Keys == {SiteLabel}
    ensures CliSpec(siteName, php, command, appVolumes).labels.Keys == {SiteLabel}
  {
    var w := WordPressSpec(siteName, appDomain, php, appVolumes);
    assert SiteLabel in w.labels && w.labels[SiteLabel] == siteName;
  }

  /**
   * Only the WordPress container is routed by traefik: both its routers match
   * the site's domain, and TLS is on for the HTTPS router and absent from the
   * plain one.
   */
  lemma TraefikRouting(siteName: string, appDomain: string, php: string, appVolumes: seq<Mount>)
    ensures var labels := WordPressSpec(siteName, appDomain, php, appVolumes).labels;
      && labels[HttpRouter(siteName) + ".rule"] == labels[SecureRouter(siteName) + ".rule"] == TraefikRule(siteName, appDomain)
      && labels[HttpRouter(siteName) + ".entrypoints"] == "web"
      && labels[SecureRouter(siteName) + ".entrypoints"] == "websecure"
      && labels[SecureRouter(siteName) + ".tls"] == "true"
      && HttpRouter(siteName) + ".tls" !in labels
  {
    var n := siteName;
    var prefix := "traefik.http.routers.wordpress-";
    assert |prefix| == 31;
    var httpRule := HttpRouter(n) + ".rule";
    var httpEntry := HttpRouter(n) + ".entrypoints";
    var secEntry := SecureRouter(n) + ".entrypoints";
    var secRule := SecureRouter(n) + ".rule";
    var secTls := SecureRouter(n) + ".tls";
    var httpTls := HttpRouter(n) + ".tls";
    assert |httpEntry| == 48 + |n| && |httpRule| == 41 + |n| && |secEntry| == 43 + |n|;
    assert |secRule| == 36 + |n| && |secTls| == 35 + |n| && |httpTls| == 40 + |n|;
    assert |SiteLabel| == 9 && |"traefik.enable"| == 14;
  }

  /** The rule's host is the site's domain: traefik routes exactly the URLs the site reports. */
  lemma RuleMatchesURL(s: Site)
    requires s.Valid()
    ensures TraefikRule(s.staticConfig.siteName, s.staticConfig.appDomain) == "Host(`" + s.siteDomain + "`)"
    ensures HostOf(s.GetURL(false)) == Some(s.siteDomain) && HostOf(s.GetURL(true)) == Some(s.siteDomain)
  {
    GetURLOnDomain(s, false);
    GetURLOnDomain(s, true);
  }

  // ---------------------------------------------------------------------------
  // Starting

  /** A request StartWordPress makes of Docker, in the order made. */
  datatype Step = NetworkStep | ImageStep(image: string) | RunStep(name: string)

  /** Pull each image, then run its container, one container after the other. */
  function RunPlan(specs: seq<ContainerConfig>): (plan: seq<Step>)
    ensures |plan| == 2 * |specs|
    ensures forall j :: 0 <= j < |specs| ==> plan[2 * j] == ImageStep(specs[j].image) && plan[2 * j + 1] == RunStep(specs[j].name)
  {
    if specs == [] then [] else [ImageStep(specs[0].image), RunStep(specs[0].name)] + RunPlan(specs[1..])
  }

  datatype Launched = Launched(err: Option<Error>, after: seq<Container>, steps: seq<Step>)

  /** One pass of the start loop: EnsureImage, then ContainerRun unless the pull failed. */
  function StartOne(cs: seq<Container>, c: ContainerConfig, imageErr: string -> Option<Error>, r: Replies): Launched {
    if imageErr(c.image).Some? then Launched(imageErr(c.image), cs, [ImageStep(c.image)])
    else
      var run := RunSpec(cs, c, r);
      Launched(run.err, run.after, [ImageStep(c.image), RunStep(c.name)])
  }

  /**
   * A loop that makes `pass(cs, c, k)` for each container c in order, the
   * k-th pass on the table the one before left; the first error ends it.
   */
  function LaunchEach(cs: seq<Container>, specs: seq<ContainerConfig>,
                      pass: (seq<Container>, ContainerConfig, nat) -> Launched, k: nat): Launched
    decreases |specs|
  {
    if specs == [] then Launched(None, cs, [])
    else
      var one := pass(cs, specs[0], k);
      if one.err.Some? then one
      else
        var rest := LaunchEach(one.after, specs[1..], pass, k + 1);
        rest.(steps := one.steps + rest.steps)
  }

  /** The loop over a + b is the loop over a followed, when all of a passed, by the loop over b. */
  lemma {:induction false} LaunchEachAppend(cs: seq<Container>, a: seq<ContainerConfig>, b: seq<ContainerConfig>,
                                           pass: (seq<Container>, ContainerConfig, nat) -> Launched, k: nat)
    requires LaunchEach(cs, a, pass, k).err.None?
    ensures var before := LaunchEach(cs, a, pass, k);
      var rest := LaunchEach(before.after, b, pass, k + |a|);
      LaunchEach(cs, a + b, pass, k) == rest.(steps := before.steps + rest.steps)
    decreases |a|
  {
    if a == [] {
      assert a + b == b;
    } else {
      var one := pass(cs, a[0], k);
      assert (a + b)[0] == a[0] && (a + b)[1..] == a[1..] + b;
      LaunchEachAppend(one.after, a[1..], b, pass, k + 1);
      var mid := LaunchEach(one.after, a[1..], pass, k + 1);
      var rest := LaunchEach(mid.after, b, pass, k + |a|);
      assert one.steps + (mid.steps + rest.steps) == (one.steps + mid.steps) + rest.steps;
    }
  }

  /**
   * A failing pass ends the loop: when the passes before j made no error and
   * pass j fails, that pass is the last one made, its error is returned and
   * the table is the one it left.
   */
  lemma LaunchEachEndsAtError(cs: seq<Container>, specs: seq<ContainerConfig>,
                              pass: (seq<Container>, ContainerConfig, nat) -> Launched, k: nat, j: nat)
    requires j < |specs|
    requires LaunchEach(cs, specs[..j], pass, k).err.None?
    ensures var before := LaunchEach(cs, specs[..j], pass, k);
      var failing := pass(before.after, specs[j], k + j);
      failing.err.Some? ==> LaunchEach(cs, specs, pass, k) == failing.(steps := before.steps + failing.steps)
  {
    LaunchEachAppend(cs, specs[..j], specs[j..], pass, k);
    assert specs[..j] + specs[j..] == specs && specs[j..][0] == specs[j];
  }

  /** The start loop: StartOne per container; `replies(k)` answers the k-th run. */
  function RunEach(cs: seq<Container>, specs: seq<ContainerConfig>, imageErr: string -> Option<Error>,
                   replies: nat -> Replies, k: nat): Launched
  {
    LaunchEach(cs, specs, (x: seq<Container>, c: ContainerConfig, i: nat) => StartOne(x, c, imageErr, replies(i)), k)
  }

  /** The start loop makes its first pass, and goes on with the rest only when that pass makes no error. */
  lemma RunEachUnfold(cs: seq<Container>, specs: seq<ContainerConfig>, imageErr: string -> Option<Error>,
                      replies: nat -> Replies, k: nat)
    requires specs != []
    ensures var one := StartOne(cs, specs[0], imageErr, replies(k));
      var rest := RunEach(one.after, specs[1..], imageErr, replies, k + 1);
      RunEach(cs, specs, imageErr, replies, k) == if one.err.Some? then one else rest.(steps := one.steps + rest.steps)
  {
  }

  /** The start loop makes a prefix of its plan, and all of it when it succeeds. */
  lemma {:induction false} RunEachTrace(cs: seq<Container>, specs: seq<ContainerConfig>, imageErr: string -> Option<Error>,
                                       replies: nat -> Replies, k: nat)
    ensures var l := RunEach(cs, specs, imageErr, replies, k);
      && l.steps <= RunPlan(specs)
      && (l.err.None? ==> l.steps == RunPlan(specs))
      && (specs != [] ==> |l.steps| > 0)
    decreases |specs|
  {
    if specs != [] {
      var one := StartOne(cs, specs[0], imageErr, replies(k));
      if one.err.None? {
        RunEachTrace(one.after, specs[1..], imageErr, replies, k + 1);
      }
    }
  }

  /**
   * A failing step ends the start loop: when the containers before j started
   * without error and the pull or the run of container j fails, that step is
   * the last one made, its error is returned and the table is the one it left.
   */
  lemma RunEachEndsAtError(cs: seq<Container>, specs: seq<ContainerConfig>, imageErr: string -> Option<Error>,
                           replies: nat -> Replies, k: nat, j: nat)
    requires j < |specs|
    requires RunEach(cs, specs[..j], imageErr, replies, k).err.None?
    ensures var before := RunEach(cs, specs[..j], imageErr, replies, k);
      var failing := StartOne(before.after, specs[j], imageErr, replies(k + j));
      failing.err.Some? ==> RunEach(cs, specs, imageErr, replies, k) == failing.(steps := before.steps + failing.steps)
  {
    LaunchEachEndsAtError(cs, specs, (x: seq<Container>, c: ContainerConfig, i: nat) => StartOne(x, c, imageErr, replies(i)), k, j);
  }

  /** The start loop keeps every container that was there and the daemon's table rules. */
  lemma {:induction false} RunEachKeeps(cs: seq<Container>, specs: seq<ContainerConfig>, imageErr: string -> Option<Error>,
                                       replies: nat -> Replies, k: nat)
    requires ContainersValid(cs)
    ensures var l := RunEach(cs, specs, imageErr, replies, k);
      ContainersValid(l.after) && forall m :: m in cs ==> m in l.after
    decreases |specs|
  {
    if specs != [] {
      var c := specs[0];
      var one := StartOne(cs, c, imageErr, replies(k));
      if imageErr(c.image).None? {
        RunValid(cs, c, replies(k));
        RunKeeps(cs, c, replies(k));
        if one.err.None? {
          RunEachKeeps(one.after, specs[1..], imageErr, replies, k + 1);
        }
      }
    }
  }

  /** When the start loop succeeds, each container of the plan is running under its name. */
  lemma {:induction false} RunEachRuns(cs: seq<Container>, specs: seq<ContainerConfig>, imageErr: string -> Option<Error>,
                                      replies: nat -> Replies, k: nat)
    requires ContainersValid(cs)
    requires RunEach(cs, specs, imageErr, replies, k).err.None?
    ensures forall j :: 0 <= j < |specs| ==>
      exists c :: c in RunEach(cs, specs, imageErr, replies, k).after && c.running && Named(c, specs[j].name)
    decreases |specs|
  {
    if specs != [] {
      var c := specs[0];
      var run := RunSpec(cs, c, replies(k));
      RunValid(cs, c, replies(k));
      var m := RunHolds(cs, c, replies(k));
      RunEachRuns(run.after, specs[1..], imageErr, replies, k + 1);
      RunEachKeeps(run.after, specs[1..], imageErr, replies, k + 1);
      var l := RunEach(cs, specs, imageErr, replies, k);
      assert l.after == RunEach(run.after, specs[1..], imageErr, replies, k + 1).after;
      forall j | 0 <= j < |specs| ensures exists d :: d in l.after && d.running && Named(d, specs[j].name) {
        if j == 0 {
          assert m in l.after;
        } else {
          assert specs[j] == specs[1..][j - 1];
        }
      }
    }
  }

  /** StartWordPress: what it returns and leaves, and the Docker requests it made. */
  datatype Started = Started(err: Option<Error>, containers: seq<Container>, networks: seq<Network>, steps: seq<Step>)

  /** The outside answers StartWordPress depends on besides the daemon. */
  datatype StartEnv = StartEnv(
    net: NetReplies,
    isLocal: bool,
    cwd: Result<string>,
    localDirErr: Option<Error>,
    dirErr: Option<Error>,
    imageErr: string -> Option<Error>,
    replies: nat -> Replies)

  function StartSpecs(sc: StaticConfig, cfg: SiteConfig, appVolumes: seq<Mount>): seq<ContainerConfig> {
    [DatabaseSpec(sc.siteName, PathJoin(sc.siteDirectory, "database")),
     WordPressSpec(sc.siteName, sc.appDomain, cfg.php, appVolumes)]
  }

  /** The requests of a complete start: the network, then image and run of the database, then of WordPress. */
  function StartPlan(sc: StaticConfig, cfg: SiteConfig): seq<Step> {
    [NetworkStep,
     ImageStep("mariadb"), RunStep(ContainerName(sc.siteName, "database")),
     ImageStep("wordpress:php" + cfg.php), RunStep(ContainerName(sc.siteName, "wordpress"))]
  }

  /**
   * The mounts of the WordPress container, or the error that ends the start
   * after the network step and before any image is pulled.
   */
  function StartVolumes(sc: StaticConfig, cfg: SiteConfig, e: StartEnv): (r: Result<seq<Mount>>)
    ensures r.Success? ==> 1 <= |r.value| && r.value[0].target == WebRoot
    ensures e.cwd.Failure? ==> r.Failure?
    ensures e.isLocal && e.cwd.Success? && r.Success? ==> r.value[0].source == PathJoin(e.cwd.value, "wordpress")
    ensures !e.isLocal && r.Success? ==> r.value[0].source == PathJoin(sc.siteDirectory, "app")
    ensures e.isLocal && e.cwd.Success? && e.localDirErr.Some? ==> r == Failure(e.localDirErr.value)
  {
    var appDir := if e.isLocal then LocalAppDir(e.cwd, e.localDirErr) else Success(PathJoin(sc.siteDirectory, "app"));
    if appDir.Failure? then Failure(appDir.error)
    else if e.dirErr.Some? then Failure(e.dirErr.value)
    else
      var (appVolumes, mountErr) := SiteMounts(appDir.value, cfg.siteType, sc.siteName, e.cwd);
      if mountErr.Some? then Failure(mountErr.value) else Success(appVolumes)
  }

  function StartSpec(sc: StaticConfig, cfg: SiteConfig, cs: seq<Container>, ns: seq<Network>, e: StartEnv): Started {
    var en := EnsureNetworkSpec(ns, NetworkName, e.net);
    if en.err.Some? then Started(en.err, cs, en.after, [NetworkStep])
    else match StartVolumes(sc, cfg, e)
      case Failure(err) => Started(Some(err), cs, en.after, [NetworkStep])
      case Success(appVolumes) =>
        var run := RunEach(cs, StartSpecs(sc, cfg, appVolumes), e.imageErr, e.replies, 0);
        Started(run.err, run.after, en.after, [NetworkStep] + run.steps)
  }

  method StartWordPress(s: Site, e: StartEnv) returns (err: Option<Error>)
    requires s.docker.Valid()
    modifies s.docker
    ensures s.docker.Valid()
    ensures var st := StartSpec(s.staticConfig, s.siteConfig, old(s.docker.containers), old(s.docker.networks), e);
      err == st.err && s.docker.containers == st.containers && s.docker.networks == st.networks
  {
    var created, network;
    created, network, err := EnsureNetwork(s.docker, NetworkName, e.net);
    if err.Some? {
      return;
    }
    var appDir := PathJoin(s.staticConfig.siteDirectory, "app");
    if e.isLocal {
      var local := LocalAppDir(e.cwd, e.localDirErr);
      if local.Failure? {
        return Some(local.error);
      }
      appDir := local.value;
    }
    if e.dirErr.Some? {
      return e.dirErr;
    }
    var (appVolumes, mountErr) := SiteMounts(appDir, s.siteConfig.siteType, s.staticConfig.siteName, e.cwd);
    if mountErr.Some? {
      return mountErr;
    }
    var wordPressContainers := StartSpecs(s.staticConfig, s.siteConfig, appVolumes);
    ghost var whole := RunEach(s.docker.containers, wordPressContainers, e.imageErr, e.replies, 0);
    ghost var networks := s.docker.networks;
    assert wordPressContainers[0..] == wordPressContainers;
    for i := 0 to |wordPressContainers|
      invariant s.docker.Valid() && s.docker.networks == networks
      invariant var rest := RunEach(s.docker.containers, wordPressContainers[i..], e.imageErr, e.replies, i);
        whole.err == rest.err && whole.after == rest.after
    {
      var container := wordPressContainers[i];
      assert wordPressContainers[i..][0] == container && wordPressContainers[i..][1..] == wordPressContainers[i + 1..];
      RunEachUnfold(s.docker.containers, wordPressContainers[i..], e.imageErr, e.replies, i);
      err := e.imageErr(container.image);
      if err.Some? {
        return;
      }
      var id;
      id, err := ContainerRun(s.docker, container, e.replies(i));
      if err.Some? {
        return;
      }
    }
    return None;
  }

  /** The start plan is the network step followed by the plan of the two containers. */
  lemma StartPlanIs(sc: StaticConfig, cfg: SiteConfig, appVolumes: seq<Mount>)
    ensures [NetworkStep] + RunPlan(StartSpecs(sc, cfg, appVolumes)) == StartPlan(sc, cfg)
  {
    var specs := StartSpecs(sc, cfg, appVolumes);
    assert specs[1..][1..] == [];
  }

  /**
   * StartWordPress makes a prefix of the start plan: the network first, and
   * for each container its image before its run, the database before
   * WordPress; a failed network step, or a failure to find the directories
   * and mounts, ends it with no container touched; it stops short of the
   * whole plan only at an error.
   */
  lemma StartOrder(sc: StaticConfig, cfg: SiteConfig, cs: seq<Container>, ns: seq<Network>, e: StartEnv)
    ensures var st := StartSpec(sc, cfg, cs, ns, e);
      && |st.steps| >= 1 && st.steps <= StartPlan(sc, cfg)
      && (EnsureNetworkSpec(ns, NetworkName, e.net).err.Some? ==> st.steps == [NetworkStep] && st.containers == cs)
      && (EnsureNetworkSpec(ns, NetworkName, e.net).err.None? && StartVolumes(sc, cfg, e).Failure? ==>
            st.err == Some(StartVolumes(sc, cfg, e).error) && st.steps == [NetworkStep] && st.containers == cs)
      && (st.err.None? ==> st.steps == StartPlan(sc, cfg))
  {
    var en := EnsureNetworkSpec(ns, NetworkName, e.net);
    if en.err.None? {
      var volumes := StartVolumes(sc, cfg, e);
      if volumes.Success? {
        var appVolumes := volumes.value;
        var specs := StartSpecs(sc, cfg, appVolumes);
        RunEachTrace(cs, specs, e.imageErr, e.replies, 0);
        StartPlanIs(sc, cfg, appVolumes);
      }
    }
  }

  /** The plan of the containers before container j of a start (the database is 0, WordPress 1). */
  lemma StartPlanBefore(sc: StaticConfig, cfg: SiteConfig, appVolumes: seq<Mount>, j: nat)
    requires j < 2
    ensures var specs := StartSpecs(sc, cfg, appVolumes);
      && [NetworkStep] + RunPlan(specs[..j]) + [ImageStep(specs[j].image)] == StartPlan(sc, cfg)[..2 * j + 2]
      && [NetworkStep] + RunPlan(specs[..j]) + [ImageStep(specs[j].image), RunStep(specs[j].name)] == StartPlan(sc, cfg)[..2 * j + 3]
  {
    var specs := StartSpecs(sc, cfg, appVolumes);
    if j == 1 {
      assert specs[..1][1..] == [];
    } else {
      assert specs[..0] == [];
    }
  }

  /**
   * A failed image pull ends the start: when the containers before container
   * j (the database is 0, WordPress 1) started without error and the image of
   * container j cannot be pulled, that pull is the last step of the plan made,
   * its error is returned and the table is the one the earlier runs left.
   */
  lemma StartEndsAtImage(sc: StaticConfig, cfg: SiteConfig, cs: seq<Container>, ns: seq<Network>, e: StartEnv, j: nat)
    requires j < 2
    requires EnsureNetworkSpec(ns, NetworkName, e.net).err.None? && StartVolumes(sc, cfg, e).Success?
    requires RunEach(cs, StartSpecs(sc, cfg, StartVolumes(sc, cfg, e).value)[..j], e.imageErr, e.replies, 0).err.None?
    ensures var specs := StartSpecs(sc, cfg, StartVolumes(sc, cfg, e).value);
      var before := RunEach(cs, specs[..j], e.imageErr, e.replies, 0);
      var st := StartSpec(sc, cfg, cs, ns, e);
      e.imageErr(specs[j].image).Some? ==>
        st.err == e.imageErr(specs[j].image) && st.containers == before.after && st.steps == StartPlan(sc, cfg)[..2 * j + 2]
  {
    var appVolumes := StartVolumes(sc, cfg, e).value;
    var specs := StartSpecs(sc, cfg, appVolumes);
    var before := RunEach(cs, specs[..j], e.imageErr, e.replies, 0);
    if e.imageErr(specs[j].image).Some? {
      RunEachTrace(cs, specs[..j], e.imageErr, e.replies, 0);
      RunEachEndsAtError(cs, specs, e.imageErr, e.replies, 0, j);
      StartPlanBefore(sc, cfg, appVolumes, j);
      var l := RunEach(cs, specs, e.imageErr, e.replies, 0);
      assert StartSpec(sc, cfg, cs, ns, e).steps == [NetworkStep] + l.steps;
      assert l.steps == RunPlan(specs[..j]) + [ImageStep(specs[j].image)];
    }
  }

  /**
   * A failed run ends the start: when the containers before container j
   * started without error, the image of container j is pulled and its run
   * fails, that run is the last step of the plan made, its error is returned
   * and the table is the one it left.
   */
  lemma StartEndsAtRun(sc: StaticConfig, cfg: SiteConfig, cs: seq<Container>, ns: seq<Network>, e: StartEnv, j: nat)
    requires j < 2
    requires EnsureNetworkSpec(ns, NetworkName, e.net).err.None? && StartVolumes(sc, cfg, e).Success?
    requires RunEach(cs, StartSpecs(sc, cfg, StartVolumes(sc, cfg, e).value)[..j], e.imageErr, e.replies, 0).err.None?
    requires e.imageErr(StartSpecs(sc, cfg, StartVolumes(sc, cfg, e).value)[j].image).None?
    ensures var specs := StartSpecs(sc, cfg, StartVolumes(sc, cfg, e).value);
      var before := RunEach(cs, specs[..j], e.imageErr, e.replies, 0);
      var run := RunSpec(before.after, specs[j], e.replies(j));
      var st := StartSpec(sc, cfg, cs, ns, e);
      run.err.Some? ==> st.err == run.err && st.containers == run.after && st.steps == StartPlan(sc, cfg)[..2 * j + 3]
  {
    var appVolumes := StartVolumes(sc, cfg, e).value;
    var specs := StartSpecs(sc, cfg, appVolumes);
    var before := RunEach(cs, specs[..j], e.imageErr, e.replies, 0);
    var run := RunSpec(before.after, specs[j], e.replies(j));
    if run.err.Some? {
      RunEachTrace(cs, specs[..j], e.imageErr, e.replies, 0);
      RunEachEndsAtError(cs, specs, e.imageErr, e.replies, 0, j);
      assert StartOne(before.after, specs[j], e.imageErr, e.replies(0 + j))
        == Launched(run.err, run.after, [ImageStep(specs[j].image), RunStep(specs[j].name)]);
      StartPlanBefore(sc, cfg, appVolumes, j);
      var l := RunEach(cs, specs, e.imageErr, e.replies, 0);
      assert StartSpec(sc, cfg, cs, ns, e).steps == [NetworkStep] + l.steps;
      assert l.steps == RunPlan(specs[..j]) + [ImageStep(specs[j].image), RunStep(specs[j].name)];
    }
  }

  /**
   * StartWordPress keeps the containers already there, and on success both
   * site containers are running under their names.
   */
  lemma StartRuns(sc: StaticConfig, cfg: SiteConfig, cs: seq<Container>, ns: seq<Network>, e: StartEnv)
    requires ContainersValid(cs)
    ensures var st := StartSpec(sc, cfg, cs, ns, e);
      && ContainersValid(st.containers)
      && (forall m :: m in cs ==> m in st.containers)
      && (st.err.None? ==>
            forall name :: name in SiteContainers(sc.siteName) ==> RunningIdOf(st.containers, name, None).Some?)
  {
    var st := StartSpec(sc, cfg, cs, ns, e);
    var en := EnsureNetworkSpec(ns, NetworkName, e.net);
    if en.err.None? {
      var volumes := StartVolumes(sc, cfg, e);
      if volumes.Success? {
        var appVolumes := volumes.value;
        var specs := StartSpecs(sc, cfg, appVolumes);
        RunEachKeeps(cs, specs, e.imageErr, e.replies, 0);
        var run := RunEach(cs, specs, e.imageErr, e.replies, 0);
        if st.err.None? {
          RunEachRuns(cs, specs, e.imageErr, e.replies, 0);
          forall name | name in SiteContainers(sc.siteName) ensures RunningIdOf(st.containers, name, None).Some? {
            var j := if name == specs[0].name then 0 else 1;
            var c :| c in run.after && c.running && Named(c, specs[j].name);
            RunningIdIs(run.after, name, c);
          }
        }
      }
    }
  }

  // ---------------------------------------------------------------------------
  // Stopping

  datatype Halted = Halted(err: Option<Error>, after: seq<Container>, stopped: seq<string>)

  /** The stop loop: ContainerStop per name in order, ending at the first error; `replies(k)` answers the k-th stop. */
  function StopEach(cs: seq<Container>, names: seq<string>, replies: nat -> Replies, k: nat): Halted
    decreases |names|
  {
    if names == [] then Halted(None, cs, [])
    else
      var o := StopSpec(cs, names[0], replies(k));
      if o.err.Some? then Halted(o.err, o.after, [names[0]])
      else
        var rest := StopEach(o.after, names[1..], replies, k + 1);
        rest.(stopped := [names[0]] + rest.stopped)
  }

  /** The stop loop stops a prefix of the names in order, all of them when it succeeds. */
  lemma {:induction false} StopEachTrace(cs: seq<Container>, names: seq<string>, replies: nat -> Replies, k: nat)
    ensures var h := StopEach(cs, names, replies, k);
      && |h.stopped| <= |names| && h.stopped == names[..|h.stopped|]
      && (h.err.None? ==> h.stopped == names)
    decreases |names|
  {
    if names != [] {
      var o := StopSpec(cs, names[0], replies(k));
      if o.err.None? {
        StopEachTrace(o.after, names[1..], replies, k + 1);
      }
    }
  }

  /**
   * A failing stop ends the stop loop: when the names before j stopped
   * without error and stopping name j fails, it is the last name stopped, its
   * error is returned and the table is the one it left.
   */
  lemma {:induction false} StopEachEndsAtError(cs: seq<Container>, names: seq<string>, replies: nat -> Replies, k: nat, j: nat)
    requires j < |names|
    requires StopEach(cs, names[..j], replies, k).err.None?
    ensures var before := StopEach(cs, names[..j], replies, k);
      var o := StopSpec(before.after, names[j], replies(k + j));
      o.err.Some? ==> StopEach(cs, names, replies, k) == Halted(o.err, o.after, before.stopped + [names[j]])
    decreases j
  {
    if j > 0 {
      assert names[..j][0] == names[0] && names[..j][1..] == names[1..][..j - 1];
      var o := StopSpec(cs, names[0], replies(k));
      StopEachEndsAtError(o.after, names[1..], replies, k + 1, j - 1);
      assert names[1..][j - 1] == names[j];
      var rest := StopEach(o.after, names[1..][..j - 1], replies, k + 1);
      assert [names[0]] + (rest.stopped + [names[j]]) == ([names[0]] + rest.stopped) + [names[j]];
    } else {
      assert names[..0] == [];
    }
  }

  /** The stop loop starts nothing and keeps the daemon's table rules. */
  lemma {:induction false} StopEachNeverStarts(cs: seq<Container>, names: seq<string>, replies: nat -> Replies, k: nat)
    requires ContainersValid(cs)
    ensures var h := StopEach(cs, names, replies, k);
      ContainersValid(h.after) && forall c :: c in h.after && c.running ==> c in cs
    decreases |names|
  {
    if names != [] {
      var o := StopSpec(cs, names[0], replies(k));
      StopNeverStarts(cs, names[0], replies(k));
      if o.err.None? {
        StopEachNeverStarts(o.after, names[1..], replies, k + 1);
      }
    }
  }

  /** When the stop loop succeeds with the listings answered, none of the names is running. */
  lemma {:induction false} StopEachHalts(cs: seq<Container>, names: seq<string>, replies: nat -> Replies, k: nat)
    requires ContainersValid(cs)
    requires forall j :: k <= j < k + |names| ==> replies(j).list.None?
    requires StopEach(cs, names, replies, k).err.None?
    ensures forall j :: 0 <= j < |names| ==> RunningIdOf(StopEach(cs, names, replies, k).after, names[j], None).None?
    decreases |names|
  {
    if names != [] {
      var o := StopSpec(cs, names[0], replies(k));
      var h := StopEach(cs, names, replies, k);
      StopNeverStarts(cs, names[0], replies(k));
      StopIdempotent(cs, names[0], replies(k), replies(k));
      StopEachHalts(o.after, names[1..], replies, k + 1);
      StopEachNeverStarts(o.after, names[1..], replies, k + 1);
      RunningIdNone(o.after, names[0]);
      NoneRunning(h.after, names[0], None);
      forall j | 1 <= j < |names| ensures RunningIdOf(h.after, names[j], None).None? {
        assert names[j] == names[1..][j - 1];
      }
    }
  }

  /**
   * StopWordPress: the stop loop over the site's containers, then the traefik
   * proxy step, which is modelled by its error alone and changes no container
   * or network.
   */
  function StopSiteSpec(cs: seq<Container>, siteName: string, replies: nat -> Replies,
                        traefikErr: Option<Error>, maybeStopErr: Option<Error>): (Halted, bool)
  {
    var h := StopEach(cs, SiteContainers(siteName), replies, 0);
    if h.err.Some? then (h, false)
    else if traefikErr.Some? then (h.(err := traefikErr), true)
    else (h.(err := maybeStopErr), true)
  }

  method StopWordPress(s: Site, replies: nat -> Replies, traefikErr: Option<Error>, maybeStopErr: Option<Error>)
    returns (err: Option<Error>, ghost proxyReached: bool)
    requires s.docker.Valid()
    modifies s.docker
    ensures s.docker.Valid() && s.docker.networks == old(s.docker.networks)
    ensures var (h, p) := StopSiteSpec(old(s.docker.containers), s.staticConfig.siteName, replies, traefikErr, maybeStopErr);
      err == h.err && s.docker.containers == h.after && proxyReached == p
  {
    var wordPressContainers := SiteContainers(s.staticConfig.siteName);
    ghost var whole := StopEach(s.docker.containers, wordPressContainers, replies, 0);
    assert wordPressContainers[0..] == wordPressContainers;
    for i := 0 to |wordPressContainers|
      invariant s.docker.Valid() && s.docker.networks == old(s.docker.networks)
      invariant var rest := StopEach(s.docker.containers, wordPressContainers[i..], replies, i);
        whole.err == rest.err && whole.after == rest.after
    {
      assert wordPressContainers[i..][1..] == wordPressContainers[i + 1..];
      var stopped;
      stopped, err := ContainerStop(s.docker, wordPressContainers[i], replies(i));
      if err.Some? {
        return err, false;
      }
    }
    if traefikErr.Some? {
      return traefikErr, true;
    }
    return maybeStopErr, true;
  }

  /**
   * StopWordPress stops the database container before the WordPress
   * container; a stop error ends it before the proxy step; once the proxy
   * step is reached (with the listings answered) neither container is
   * running, and nothing was started.
   */
  lemma StopSiteHalts(cs: seq<Container>, siteName: string, replies: nat -> Replies,
                      traefikErr: Option<Error>, maybeStopErr: Option<Error>)
    requires ContainersValid(cs)
    ensures var (h, proxyReached) := StopSiteSpec(cs, siteName, replies, traefikErr, maybeStopErr);
      && |h.stopped| <= 2 && h.stopped == SiteContainers(siteName)[..|h.stopped|]
      && (!proxyReached ==> h.err.Some?)
      && (proxyReached ==> h.stopped == SiteContainers(siteName))
      && (forall c :: c in h.after && c.running ==> c in cs)
      && (proxyReached && replies(0).list.None? && replies(1).list.None? ==>
            forall name :: name in SiteContainers(siteName) ==> RunningIdOf(h.after, name, None).None?)
  {
    var names := SiteContainers(siteName);
    StopEachTrace(cs, names, replies, 0);
    StopEachNeverStarts(cs, names, replies, 0);
    var h := StopEach(cs, names, replies, 0);
    if h.err.None? && replies(0).list.None? && replies(1).list.None? {
      StopEachHalts(cs, names, replies, 0);
    }
  }

  /**
   * A stop error ends StopWordPress before the proxy step: when the site's
   * containers before container j (the database is 0, WordPress 1) stopped
   * without error and stopping container j fails, it is the last container
   * stopped, its error is returned and the table is the one it left.
   */
  lemma StopSiteEndsAtError(cs: seq<Container>, siteName: string, replies: nat -> Replies,
                            traefikErr: Option<Error>, maybeStopErr: Option<Error>, j: nat)
    requires j < 2
    requires StopEach(cs, SiteContainers(siteName)[..j], replies, 0).err.None?
    ensures var names := SiteContainers(siteName);
      var before := StopEach(cs, names[..j], replies, 0);
      var o := StopSpec(before.after, names[j], replies(j));
      o.err.Some? ==> StopSiteSpec(cs, siteName, replies, traefikErr, maybeStopErr) == (Halted(o.err, o.after, names[..j + 1]), false)
  {
    var names := SiteContainers(siteName);
    StopEachEndsAtError(cs, names, replies, 0, j);
    StopEachTrace(cs, names[..j], replies, 0);
    assert names[..j] + [names[j]] == names[..j + 1];
  }

  // ---------------------------------------------------------------------------
  // wp-cli

  /** The outside answers one RunWPCli depends on besides the daemon. */
  datatype CliEnv = CliEnv(
    net: NetReplies,
    running: CurrentConfig,
    cwd: Result<string>,
    localDirErr: Option<Error>,
    imageErr: string -> Option<Error>,
    replies: Replies)

  datatype CliOutcome = CliOutcome(output: string, err: Option<Error>, containers: seq<Container>, networks: seq<Network>)

  /** The mounts of the wp-cli container, from the running configuration. */
  function CliVolumes(sc: StaticConfig, e: CliEnv): (r: Result<seq<Mount>>)
    ensures r.Success? ==> 1 <= |r.value| && r.value[0].target == WebRoot
    ensures e.cwd.Failure? ==> r.Failure?
    ensures e.running.local && e.cwd.Success? && r.Success? ==> r.value[0].source == PathJoin(e.cwd.value, "wordpress")
    ensures !e.running.local && r.Success? ==> r.value[0].source == PathJoin(PathJoin(PathJoin(sc.appDirectory, "sites"), sc.siteName), "app")
    ensures e.running.local && e.cwd.Success? && e.localDirErr.Some? ==> r == Failure(e.localDirErr.value)
  {
    var siteDir := PathJoin(PathJoin(sc.appDirectory, "sites"), sc.siteName);
    var appDir := if e.running.local then LocalAppDir(e.cwd, e.localDirErr) else Success(PathJoin(siteDir, "app"));
    if appDir.Failure? then Failure(appDir.error)
    else
      var (appVolumes, mountErr) := SiteMounts(appDir.value, e.running.siteType, sc.siteName, e.cwd);
      if mountErr.Some? then Failure(mountErr.value) else Success(appVolumes)
  }

  /**
   * RunWPCli: ensure the network, find the application directory and mounts
   * of the running configuration, pull the wp-cli image, and run the command
   * in a one-shot container; its log is the output, its exit status dropped.
   */
  function WPCliSpec(sc: StaticConfig, dyn: DynamicConfig, cs: seq<Container>, ns: seq<Network>, command: seq<string>, e: CliEnv): CliOutcome {
    var en := EnsureNetworkSpec(ns, NetworkName, e.net);
    if en.err.Some? then CliOutcome("", en.err, cs, en.after)
    else match CliVolumes(sc, e)
      case Failure(err) => CliOutcome("", Some(err), cs, en.after)
      case Success(appVolumes) =>
        var container := CliSpec(sc.siteName, dyn.php, command, appVolumes);
        var imageErr := e.imageErr(container.image);
        if imageErr.Some? then CliOutcome("", imageErr, cs, en.after)
        else
          var rc := RunAndCleanSpec(cs, container, e.replies);
          if rc.err.Some? then CliOutcome("", rc.err, rc.after, en.after) else CliOutcome(rc.body, None, rc.after, en.after)
  }

  method RunWPCli(s: Site, command: seq<string>, e: CliEnv) returns (output: string, err: Option<Error>)
    requires s.docker.Valid()
    modifies s.docker
    ensures s.docker.Valid()
    ensures CliOutcome(output, err, s.docker.containers, s.docker.networks)
      == WPCliSpec(s.staticConfig, s.dynamicConfig, old(s.docker.containers), old(s.docker.networks), command, e)
  {
    var created, network;
    created, network, err := EnsureNetwork(s.docker, NetworkName, e.net);
    if err.Some? {
      return "", err;
    }
    var siteDir := PathJoin(PathJoin(s.staticConfig.appDirectory, "sites"), s.staticConfig.siteName);
    var appDir := PathJoin(siteDir, "app");
    var runningConfig := e.running;
    if runningConfig.local {
      var local := LocalAppDir(e.cwd, e.localDirErr);
      if local.Failure? {
        return "", Some(local.error);
      }
      appDir := local.value;
    }
    var (appVolumes, mountErr) := SiteMounts(appDir, runningConfig.siteType, s.staticConfig.siteName, e.cwd);
    if mountErr.Some? {
      return "", mountErr;
    }
    var fullCommand := ["wp", "--path=" + WebRoot];
    fullCommand := fullCommand + command;
    var container := ContainerConfig(
      ContainerName(s.staticConfig.siteName, "wordpress_cli"), "wordpress:cli-php" + s.dynamicConfig.php, [],
      ContainerName(s.staticConfig.siteName, "wordpress_cli"), NetworkName, appVolumes, fullCommand,
      ["WORDPRESS_DB_HOST=" + ContainerName(s.staticConfig.siteName, "database"), "WORDPRESS_DB_USER=wordpress",
       "WORDPRESS_DB_PASSWORD=wordpress", "WORDPRESS_DB_NAME=wordpress"],
      map[SiteLabel := s.staticConfig.siteName]);
    assert container == CliSpec(s.staticConfig.siteName, s.dynamicConfig.php, command, appVolumes);
    err := e.imageErr(container.image);
    if err.Some? {
      return "", err;
    }
    var statusCode;
    statusCode, output, err := ContainerRunAndClean(s.docker, container, e.replies);
    if err.Some? {
      return "", err;
    }
    return output, None;
  }

  /**
   * The exit status of the wp-cli command is not an error: once the network,
   * the mounts, the image, the run, the wait and the removal are answered,
   * RunWPCli succeeds whatever status the command exited with, and returns
   * the command's log.
   */
  lemma WPCliIgnoresExitStatus(sc: StaticConfig, dyn: DynamicConfig, cs: seq<Container>, ns: seq<Network>, command: seq<string>,
                               e: CliEnv)
    requires ContainersValid(cs)
    requires EnsureNetworkSpec(ns, NetworkName, e.net).err.None? && CliVolumes(sc, e).Success?
    requires var container := CliSpec(sc.siteName, dyn.php, command, CliVolumes(sc, e).value);
      e.imageErr(container.image).None? && RunSpec(cs, container, e.replies).err.None?
    requires e.replies.wait.Success? && e.replies.remove.None?
    ensures var o := WPCliSpec(sc, dyn, cs, ns, command, e);
      o.err.None? && o.output == if e.replies.logs.Success? then e.replies.logs.value else ""
  {
    var container := CliSpec(sc.siteName, dyn.php, command, CliVolumes(sc, e).value);
    RunAndCleanSucceeds(cs, container, e.replies);
  }

  /**
   * A successful wp-cli run leaves no wp-cli container of the site behind
   * and keeps every other container.
   */
  lemma WPCliCleansUp(sc: StaticConfig, dyn: DynamicConfig, cs: seq<Container>, ns: seq<Network>, command: seq<string>, e: CliEnv)
    requires ContainersValid(cs)
    requires WPCliSpec(sc, dyn, cs, ns, command, e).err.None?
    ensures var o := WPCliSpec(sc, dyn, cs, ns, command, e);
      && (forall c :: c in o.containers ==> !Named(c, ContainerName(sc.siteName, "wordpress_cli")))
      && (forall c :: c in cs && !Named(c, ContainerName(sc.siteName, "wordpress_cli")) ==> c in o.containers)
  {
    var volumes := CliVolumes(sc, e);
    var container := CliSpec(sc.siteName, dyn.php, command, volumes.value);
    RunAndCleanLeavesNone(cs, container, e.replies);
  }

  /** The wp-cli arguments of InstallWordPress: a core install on the secure URL with the admin account. */
  function InstallCommand(sc: StaticConfig, cfg: SiteConfig, dyn: DynamicConfig, secureURL: string): seq<string> {
    ["core", "install",
     "--url=" + secureURL,
     "--title=Kana Development " + cfg.siteType + ": " + sc.siteName,
     "--admin_user=" + dyn.adminUsername,
     "--admin_password=" + dyn.adminPassword,
     "--admin_email=" + dyn.adminEmail]
  }

  method InstallWordPress(s: Site, e: CliEnv) returns (err: Option<Error>)
    requires s.docker.Valid()
    modifies s.docker
    ensures s.docker.Valid()
    ensures var o := WPCliSpec(s.staticConfig, s.dynamicConfig, old(s.docker.containers), old(s.docker.networks),
                               InstallCommand(s.staticConfig, s.siteConfig, s.dynamicConfig, s.GetURL(false)), e);
      err == o.err && s.docker.containers == o.containers && s.docker.networks == o.networks
  {
    var setupCommand := InstallCommand(s.staticConfig, s.siteConfig, s.dynamicConfig, s.GetURL(false));
    var output;
    output, err := RunWPCli(s, setupCommand, e);
  }

  /** The wp-cli arguments that install and activate one plugin. */
  function PluginInstallCommand(plugin: string): seq<string> {
    ["plugin", "install", "--activate", plugin]
  }

  datatype Installed = Installed(err: Option<Error>, containers: seq<Container>, networks: seq<Network>, issued: seq<seq<string>>)

  /** InstallDefaultPlugins from plugin k on: one wp-cli run per plugin, ending at the first error. */
  function PluginsFrom(sc: StaticConfig, dyn: DynamicConfig, cs: seq<Container>, ns: seq<Network>,
                       plugins: seq<string>, k: nat, envs: nat -> CliEnv): Installed
    decreases |plugins| - k
  {
    if k >= |plugins| then Installed(None, cs, ns, [])
    else
      var command := PluginInstallCommand(plugins[k]);
      var o := WPCliSpec(sc, dyn, cs, ns, command, envs(k));
      if o.err.Some? then Installed(o.err, o.containers, o.networks, [command])
      else
        var rest := PluginsFrom(sc, dyn, o.containers, o.networks, plugins, k + 1, envs);
        rest.(issued := [command] + rest.issued)
  }

  /** The install commands of the plugins, in the configured order. */
  function PluginPlan(plugins: seq<string>): (plan: seq<seq<string>>)
    ensures |plan| == |plugins|
    ensures forall i :: 0 <= i < |plugins| ==> plan[i] == PluginInstallCommand(plugins[i])
  {
    if plugins == [] then [] else [PluginInstallCommand(plugins[0])] + PluginPlan(plugins[1..])
  }

  lemma {:induction false} PluginsFromPrefix(sc: StaticConfig, dyn: DynamicConfig, cs: seq<Container>, ns: seq<Network>,
                                            plugins: seq<string>, k: nat, envs: nat -> CliEnv)
    requires k <= |plugins|
    ensures var p := PluginsFrom(sc, dyn, cs, ns, plugins, k, envs);
      p.issued <= PluginPlan(plugins[k..])
    decreases |plugins| - k
  {
    if k < |plugins| {
      var o := WPCliSpec(sc, dyn, cs, ns, PluginInstallCommand(plugins[k]), envs(k));
      if o.err.None? {
        PluginsFromPrefix(sc, dyn, o.containers, o.networks, plugins, k + 1, envs);
        var rest := PluginsFrom(sc, dyn, o.containers, o.networks, plugins, k + 1, envs);
        var p := PluginsFrom(sc, dyn, cs, ns, plugins, k, envs);
        assert p.issued == [PluginInstallCommand(plugins[k])] + rest.issued;
        assert plugins[k..][1..] == plugins[k + 1..];
      }
    }
  }

  lemma {:induction false} PluginsFromComplete(sc: StaticConfig, dyn: DynamicConfig, cs: seq<Container>, ns: seq<Network>,
                                              plugins: seq<string>, k: nat, envs: nat -> CliEnv)
    requires k <= |plugins|
    ensures var p := PluginsFrom(sc, dyn, cs, ns, plugins, k, envs);
      (p.err.None? ==> k + |p.issued| == |plugins|) && (p.err.Some? ==> |p.issued| > 0)
    decreases |plugins| - k
  {
    if k < |plugins| {
      var o := WPCliSpec(sc, dyn, cs, ns, PluginInstallCommand(plugins[k]), envs(k));
      if o.err.None? {
        PluginsFromComplete(sc, dyn, o.containers, o.networks, plugins, k + 1, envs);
      }
    }
  }

  /**
   * A failing install ends the plugin loop: when the plugins from k up to j
   * installed without error and plugin j fails, its install is the last one
   * run, its error is returned and the tables are the ones it left.
   */
  lemma {:induction false} PluginsEndAtError(sc: StaticConfig, dyn: DynamicConfig, cs: seq<Container>, ns: seq<Network>,
                                            plugins: seq<string>, k: nat, j: nat, envs: nat -> CliEnv)
    requires k <= j < |plugins|
    requires PluginsFrom(sc, dyn, cs, ns, plugins[..j], k, envs).err.None?
    ensures var before := PluginsFrom(sc, dyn, cs, ns, plugins[..j], k, envs);
      var o := WPCliSpec(sc, dyn, before.containers, before.networks, PluginInstallCommand(plugins[j]), envs(j));
      o.err.Some? ==>
        PluginsFrom(sc, dyn, cs, ns, plugins, k, envs)
          == Installed(o.err, o.containers, o.networks, before.issued + [PluginInstallCommand(plugins[j])])
    decreases j - k
  {
    if k < j {
      var command := PluginInstallCommand(plugins[k]);
      assert plugins[..j][k] == plugins[k];
      var o := WPCliSpec(sc, dyn, cs, ns, command, envs(k));
      PluginsEndAtError(sc, dyn, o.containers, o.networks, plugins, k + 1, j, envs);
      var rest := PluginsFrom(sc, dyn, o.containers, o.networks, plugins[..j], k + 1, envs);
      var last := PluginInstallCommand(plugins[j]);
      assert [command] + (rest.issued + [last]) == ([command] + rest.issued) + [last];
    }
  }

  /**
   * InstallDefaultPlugins runs one install per configured plugin, in order:
   * the commands run are a prefix of the plan, all of it when no run fails,
   * and at least one is run before a failure (PluginsEndAtError states that
   * the failing install is the last).
   */
  lemma PluginsInOrder(sc: StaticConfig, dyn: DynamicConfig, cs: seq<Container>, ns: seq<Network>,
                       plugins: seq<string>, envs: nat -> CliEnv)
    ensures var p := PluginsFrom(sc, dyn, cs, ns, plugins, 0, envs);
      && p.issued <= PluginPlan(plugins)
      && (p.err.None? ==> p.issued == PluginPlan(plugins))
      && (p.err.Some? ==> |p.issued| > 0)
  {
    PluginsFromPrefix(sc, dyn, cs, ns, plugins, 0, envs);
    PluginsFromComplete(sc, dyn, cs, ns, plugins, 0, envs);
    assert plugins[0..] == plugins;
  }

  method InstallDefaultPlugins(s: Site, envs: nat -> CliEnv) returns (err: Option<Error>)
    requires s.docker.Valid()
    modifies s.docker
    ensures s.docker.Valid()
    ensures var p := PluginsFrom(s.staticConfig, s.dynamicConfig, old(s.docker.containers), old(s.docker.networks),
                                 s.siteConfig.plugins, 0, envs);
      err == p.err && s.docker.containers == p.containers && s.docker.networks == p.networks
  {
    var plugins := s.siteConfig.plugins;
    ghost var whole := PluginsFrom(s.staticConfig, s.dynamicConfig, s.docker.containers, s.docker.networks, plugins, 0, envs);
    for i := 0 to |plugins|
      invariant s.docker.Valid()
      invariant var rest := PluginsFrom(s.staticConfig, s.dynamicConfig, s.docker.containers, s.docker.networks, plugins, i, envs);
        whole.err == rest.err && whole.containers == rest.containers && whole.networks == rest.networks
    {
      var setupCommand := ["plugin", "install", "--activate", plugins[i]];
      var output;
      output, err := RunWPCli(s, setupCommand, envs(i));
      if err.Some? {
        return;
      }
    }
    return None;
  }

  // ---------------------------------------------------------------------------
  // Installed plugins

  /** A plugin the site reports: not a drop-in, not the site's own plugin, not one WordPress ships. */
  predicate Kept(p: PluginInfo, siteName: string) {
    p.status != "dropin" && p.name != siteName && p.name != "hello" && p.name != "akismet"
  }

  /** The names of the kept plugins, in input order. */
  function KeptPlugins(raw: seq<PluginInfo>, siteName: string): seq<string> {
    if raw == [] then [] else (if Kept(raw[0], siteName) then [raw[0].name] else []) + KeptPlugins(raw[1..], siteName)
  }

  /** Filtering distributes over concatenation, so the input order is kept. */
  lemma {:induction false} KeptPluginsAppend(a: seq<PluginInfo>, b: seq<PluginInfo>, siteName: string)
    ensures KeptPlugins(a + b, siteName) == KeptPlugins(a, siteName) + KeptPlugins(b, siteName)
  {
    if a != [] {
      KeptPluginsAppend(a[1..], b, siteName);
      assert (a + b)[1..] == a[1..] + b;
    } else {
      assert a + b == b;
    }
  }

  /** A name is reported iff some kept plugin of the input has it; no more names than plugins. */
  lemma {:induction false} KeptPluginsMembers(raw: seq<PluginInfo>, siteName: string)
    ensures |KeptPlugins(raw, siteName)| <= |raw|
    ensures forall x :: x in KeptPlugins(raw, siteName) <==> exists i :: 0 <= i < |raw| && raw[i].name == x && Kept(raw[i], siteName)
  {
    if raw != [] {
      KeptPluginsMembers(raw[1..], siteName);
      forall x | (exists i :: 0 <= i < |raw| && raw[i].name == x && Kept(raw[i], siteName))
        ensures x in KeptPlugins(raw, siteName)
      {
        var i :| 0 <= i < |raw| && raw[i].name == x && Kept(raw[i], siteName);
        if i > 0 {
          assert raw[1..][i - 1] == raw[i];
        }
      }
      forall x | x in KeptPlugins(raw[1..], siteName)
        ensures exists i :: 0 <= i < |raw| && raw[i].name == x && Kept(raw[i], siteName)
      {
        var i :| 0 <= i < |raw[1..]| && raw[1..][i].name == x && Kept(raw[1..][i], siteName);
        assert raw[i + 1] == raw[1..][i];
      }
    }
  }

  /** GetInstalledWordPressPlugins: no names on a wp-cli or JSON error, otherwise the kept names. */
  method GetInstalledWordPressPlugins(s: Site, e: CliEnv, parse: string -> Result<seq<PluginInfo>>)
    returns (plugins: seq<string>, err: Option<Error>)
    requires s.docker.Valid()
    modifies s.docker
    ensures s.docker.Valid()
    ensures var o := WPCliSpec(s.staticConfig, s.dynamicConfig, old(s.docker.containers), old(s.docker.networks),
                               ["plugin", "list", "--format=json"], e);
      && s.docker.containers == o.containers && s.docker.networks == o.networks
      && (o.err.Some? ==> plugins == [] && err == o.err)
      && (o.err.None? && parse(o.output).Failure? ==> plugins == [] && err == Some(parse(o.output).error))
      && (o.err.None? && parse(o.output).Success? ==> plugins == KeptPlugins(parse(o.output).value, s.staticConfig.siteName) && err.None?)
  {
    var commands := ["plugin", "list", "--format=json"];
    var commandOutput;
    commandOutput, err := RunWPCli(s, commands, e);
    if err.Some? {
      return [], err;
    }
    var rawPlugins := parse(commandOutput);
    if rawPlugins.Failure? {
      return [], Some(rawPlugins.error);
    }
    plugins := FilterPlugins(rawPlugins.value, s.staticConfig.siteName);
    return plugins, None;
  }

  /** The filtering loop of GetInstalledWordPressPlugins. */
  method FilterPlugins(raw: seq<PluginInfo>, siteName: string) returns (plugins: seq<string>)
    ensures plugins == KeptPlugins(raw, siteName)
  {
    plugins := [];
    for i := 0 to |raw|
      invariant plugins == KeptPlugins(raw[..i], siteName)
    {
      var plugin := raw[i];
      KeptPluginsAppend(raw[..i], [plugin], siteName);
      assert raw[..i + 1] == raw[..i] + [plugin];
      if plugin.status != "dropin" && plugin.name != siteName && plugin.name != "hello" && plugin.name != "akismet" {
        plugins := plugins + [plugin.name];
      }
    }
    assert raw[..|raw|] == raw;
  }

  // ---------------------------------------------------------------------------
  // Running or not

  /**
   * IsSiteRunning: some container carries the site's label. A listing error
   * reads as not running, and a stopped container counts, since the listing
   * includes stopped containers.
   */
  method IsSiteRunning(s: Site, fault: Option<Error>) returns (running: bool)
    ensures running <==> fault.None? && exists c :: c in s.docker.containers && OwnedBy(c, s.staticConfig.siteName)
  {
    var containers, err := ListContainers(s.docker, s.staticConfig.siteName, fault);
    ListedAreOwned(s.docker.containers, s.staticConfig.siteName);
    if fault.None? && |containers| != 0 {
      assert containers[0] in containers;
    }
    return |containers| != 0;
  }
}

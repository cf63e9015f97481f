/**
 * A site (site.go): its identity (name, domain and URLs), the name flag that
 * renames it, the readiness check of its HTTPS endpoint, and commands run in
 * its WordPress container, among them the Xdebug installation.
 */
module Sites {
  import opened Common
  import opened Engine
  import opened Containers
  import opened Availability

  /** The fixed application settings (appConfig.StaticConfig) this core reads. */
  datatype StaticConfig = StaticConfig(
    siteName: string,
    siteDirectory: string,
    appDirectory: string,
    appDomain: string,
    workingDirectory: string,
    rootCert: string)

  /** The application-wide options read from the dynamic configuration. */
  datatype DynamicConfig = DynamicConfig(php: string, adminUsername: string, adminPassword: string, adminEmail: string)

  /** The per-site options read from the site configuration. */
  datatype SiteConfig = SiteConfig(siteType: string, php: string, local: bool, xdebug: bool, plugins: seq<string>)

  // ---------------------------------------------------------------------------
  // Names and URLs

  function SiteDomain(siteName: string, appDomain: string): string {
    siteName + "." + appDomain
  }

  function SecureURL(domain: string): string {
    "https://" + domain + "/"
  }

  function PlainURL(domain: string): string {
    "http://" + domain + "/"
  }

  /** The host of a URL of the form scheme://host/ for the two schemes a site serves. */
  function HostOf(u: string): Option<string> {
    if |u| >= 9 && u[..8] == "https://" && u[|u| - 1] == '/' then Some(u[8..|u| - 1])
    else if |u| >= 8 && u[..7] == "http://" && u[|u| - 1] == '/' then Some(u[7..|u| - 1])
    else None
  }

  /** Both URLs of a site give its domain back, and the two never coincide. */
  lemma URLsCarryDomain(domain: string, other: string)
    ensures HostOf(SecureURL(domain)) == Some(domain)
    ensures HostOf(PlainURL(domain)) == Some(domain)
    ensures SecureURL(domain) != PlainURL(other)
  {
    var s := SecureURL(domain);
    assert s[..8] == "https://" && s[8..|s| - 1] == domain;
    var p := PlainURL(domain);
    assert p[..7] == "http://" && p[7..|p| - 1] == domain;
    assert p[..8] != "https://" by { assert p[4] == ':'; }
    assert SecureURL(domain)[4] != PlainURL(other)[4];
  }

  /** The name of a site's container with the given role ("database", "wordpress", "wordpress_cli"). */
  function ContainerName(siteName: string, role: string): string {
    "kana_" + siteName + "_" + role
  }

  /** Within one role, distinct sites never share a container name. */
  lemma ContainerNameInjective(a: string, b: string, role: string)
    requires ContainerName(a, role) == ContainerName(b, role)
    ensures a == b
  {
    var na := ContainerName(a, role);
    assert |a| == |b|;
    assert a == na[5..5 + |a|];
  }

  /** The database and WordPress containers of any two sites have different names. */
  lemma RolesNeverCollide(a: string, b: string)
    ensures ContainerName(a, "database") != ContainerName(b, "wordpress")
    ensures ContainerName(a, "database") != ContainerName(b, "wordpress_cli")
    ensures ContainerName(a, "wordpress") != ContainerName(b, "wordpress_cli")
  {
    var d := ContainerName(a, "database");
    var w := ContainerName(b, "wordpress");
    var c := ContainerName(b, "wordpress_cli");
    var w2 := ContainerName(a, "wordpress");
    assert d[|d| - 1] == 'e' && w[|w| - 1] == 's' && c[|c| - 1] == 'i' && w2[|w2| - 1] == 's';
  }

  // ---------------------------------------------------------------------------
  // The name flag

  /** The parts of a cobra command the name flag looks at. */
  datatype Command = Command(use: string, nameChanged: bool, name: string, pluginChanged: bool, themeChanged: bool, localChanged: bool)

  /** The link file (link.json) in the site directory: its link value, absent, or present but unreadable. */
  datatype LinkFile = LinkPresent(link: string) | LinkMissing | LinkUnreadable

  const InvalidStartFlags := Error("invalid flags detected. 'plugin' 'theme' and 'local' flags are not valid with named sites")

  predicate IgnoresNameFlag(use: string) {
    use == "config" || use == "version" || use == "help"
  }

  /** A named "start" that also sets the plugin, theme or local flag. */
  predicate RefusesStartFlags(cmd: Command) {
    cmd.nameChanged && cmd.use == "start" && (cmd.pluginChanged || cmd.themeChanged || cmd.localChanged)
  }

  /**
   * ProcessNameFlag on the static configuration: commands that do not use a
   * site leave it alone; "start" with a name refuses the plugin, theme and
   * local flags; a name renames the site and moves its directory; then the
   * working directory is the link file's, or the default link written when
   * the file is missing (a failed write returns its error).
   */
  function NameFlagSpec(sc: StaticConfig, cmd: Command, sanitize: string -> string, link: LinkFile, writeErr: Option<Error>): (StaticConfig, Option<Error>) {
    if IgnoresNameFlag(cmd.use) then (sc, None)
    else if RefusesStartFlags(cmd) then (sc, Some(InvalidStartFlags))
    else
      var renamed :=
        if cmd.nameChanged then
          var n := sanitize(cmd.name);
          sc.(siteName := n, siteDirectory := PathJoin(PathJoin(sc.appDirectory, "sites"), n))
        else sc;
      var siteLink := if cmd.nameChanged then renamed.siteDirectory else sc.workingDirectory;
      match link
      case LinkPresent(l) => (renamed.(workingDirectory := l), None)
      case LinkMissing => if writeErr.Some? then (renamed, writeErr) else (renamed.(workingDirectory := siteLink), None)
      case LinkUnreadable => (renamed.(workingDirectory := siteLink), None)
  }

  /**
   * The name flag changes the site's name only to the sanitized flag value,
   * and its directory, application directory and domain settings stay tied:
   * the directory is <app>/sites/<name>; without the flag the name, the
   * directories and the domain are kept. A refused or ignored command changes
   * nothing.
   */
  lemma NameFlagRenames(sc: StaticConfig, cmd: Command, sanitize: string -> string, link: LinkFile, writeErr: Option<Error>)
    ensures var (after, err) := NameFlagSpec(sc, cmd, sanitize, link, writeErr);
      && after.appDirectory == sc.appDirectory && after.appDomain == sc.appDomain && after.rootCert == sc.rootCert
      && (IgnoresNameFlag(cmd.use) ==> after == sc && err.None?)
      && (RefusesStartFlags(cmd) ==> after == sc && err == Some(InvalidStartFlags))
      && (!IgnoresNameFlag(cmd.use) && cmd.nameChanged && !RefusesStartFlags(cmd) ==>
            after.siteName == sanitize(cmd.name)
            && after.siteDirectory == sc.appDirectory + "/sites/" + sanitize(cmd.name))
      && (!cmd.nameChanged ==> after.siteName == sc.siteName && after.siteDirectory == sc.siteDirectory)
  {
    var (after, err) := NameFlagSpec(sc, cmd, sanitize, link, writeErr);
    if !IgnoresNameFlag(cmd.use) && cmd.nameChanged && !RefusesStartFlags(cmd) {
      var n := sanitize(cmd.name);
      assert PathJoin(PathJoin(sc.appDirectory, "sites"), n) == sc.appDirectory + "/sites/" + n;
    }
  }

  // ---------------------------------------------------------------------------
  // Readiness

  /** One HTTP GET of the site: a transport error or a status code. */
  datatype HttpOutcome = HttpError(err: Error) | Status(code: int)

  const Timeout := Error("timeout reached. unable to open site")

  /** The GETs VerifySite may make: the initial one and 31 in the loop. */
  const MaxGets := 32

  predicate Decisive(o: HttpOutcome) {
    o.HttpError? || o.code == 200
  }

  /** The first GET number in [from, to) that ends the wait: an error or a 200. */
  function FirstDecisive(get: nat -> HttpOutcome, from: nat, to: nat): (k: Option<nat>)
    ensures k.Some? ==> from <= k.value < to && Decisive(get(k.value))
    decreases (to as int) - (from as int)
  {
    if from >= to then None else if Decisive(get(from)) then Some(from) else FirstDecisive(get, from + 1, to)
  }

  lemma {:induction false} FirstDecisiveIsFirst(get: nat -> HttpOutcome, from: nat, to: nat)
    ensures FirstDecisive(get, from, to).None? <==> forall j :: from <= j < to ==> !Decisive(get(j))
    ensures FirstDecisive(get, from, to).Some? ==> forall j :: from <= j < FirstDecisive(get, from, to).value ==> !Decisive(get(j))
    decreases (to as int) - (from as int)
  {
    if from < to && !Decisive(get(from)) {
      FirstDecisiveIsFirst(get, from + 1, to);
    }
  }

  /** The outcome of VerifySite: up or not, the error, the GETs made and the sleeps taken. */
  datatype Verified = Verified(up: bool, err: Option<Error>, gets: nat, sleeps: nat)

  /** The GETs of one URL, numbered from 0. */
  function GetsOf(get: (string, nat) -> HttpOutcome, u: string): nat -> HttpOutcome {
    (k: nat) => get(u, k)
  }

  function VerifySpec(certErr: Option<Error>, get: nat -> HttpOutcome): Verified {
    if certErr.Some? then Verified(false, certErr, 0, 0)
    else if get(0).HttpError? then Verified(false, Some(get(0).err), 1, 0)
    else if get(0).code == 200 then Verified(true, None, 1, 0)
    else match FirstDecisive(get, 1, MaxGets)
      case Some(k) =>
        if get(k).HttpError? then Verified(false, Some(get(k).err), k + 1, k - 1) else Verified(true, None, k + 1, k - 1)
      case None => Verified(false, Some(Timeout), MaxGets, MaxGets - 2)
  }

  /**
   * The readiness loop is bounded by 32 GETs and 30 sleeps, sleeps only
   * between GETs, reports the site up iff it returns no error, makes no GET
   * when the certificate cannot be read, and returns the error of the GET it
   * stopped at as it came.
   */
  lemma VerifyBounds(certErr: Option<Error>, get: nat -> HttpOutcome)
    ensures var v := VerifySpec(certErr, get);
      && v.gets <= MaxGets && v.sleeps <= MaxGets - 2 && (v.gets == 0 || v.sleeps < v.gets)
      && (v.up <==> v.err.None?)
      && (certErr.Some? ==> v == Verified(false, certErr, 0, 0))
      && (v.err.Some? && v.err != certErr && v.err != Some(Timeout) ==> v.gets >= 1 && get(v.gets - 1) == HttpError(v.err.value))
  {
  }

  /**
   * Once the certificate is read, the wait stops at the first GET that fails
   * or answers 200, with that GET's error or success, after one sleep per
   * loop GET but the first; when none of the 32 GETs does, it times out after
   * all 32 GETs and 30 sleeps.
   */
  lemma VerifyStops(certErr: Option<Error>, get: nat -> HttpOutcome)
    requires certErr.None?
    ensures var v := VerifySpec(certErr, get);
      && 1 <= v.gets <= MaxGets
      && v.sleeps == (if v.gets == 1 then 0 else v.gets - 2)
      && (forall j :: 0 <= j < v.gets - 1 ==> !Decisive(get(j)))
      && (Decisive(get(v.gets - 1)) ==> v.err == if get(v.gets - 1).HttpError? then Some(get(v.gets - 1).err) else None)
      && (!Decisive(get(v.gets - 1)) ==> v.gets == MaxGets && v.err == Some(Timeout))
  {
    if !Decisive(get(0)) {
      FirstDecisiveIsFirst(get, 1, MaxGets);
    }
  }

  /** The site is reported up iff a 200 comes before any GET error within the 32 GETs. */
  lemma VerifyUp(certErr: Option<Error>, get: nat -> HttpOutcome)
    ensures VerifySpec(certErr, get).up <==>
      certErr.None? && exists k :: 0 <= k < MaxGets && get(k) == Status(200) && forall j: nat :: j < k ==> !Decisive(get(j))
  {
    var v := VerifySpec(certErr, get);
    if certErr.None? && !Decisive(get(0)) {
      FirstDecisiveIsFirst(get, 1, MaxGets);
      if v.up {
        var k := FirstDecisive(get, 1, MaxGets).value;
        assert get(k) == Status(200);
      }
      if exists k :: 0 <= k < MaxGets && get(k) == Status(200) && forall j: nat :: j < k ==> !Decisive(get(j)) {
        var k :| 0 <= k < MaxGets && get(k) == Status(200) && forall j: nat :: j < k ==> !Decisive(get(j));
        assert FirstDecisive(get, 1, MaxGets).Some?;
        var f := FirstDecisive(get, 1, MaxGets).value;
        assert f == k;
      }
    } else if certErr.None? && get(0) == Status(200) {
      assert forall j: nat :: j < 0 ==> !Decisive(get(j));
    } else if certErr.None? {
      forall k | 0 <= k < MaxGets && get(k) == Status(200) ensures exists j :: 0 <= j < k && Decisive(get(j)) {
        assert k != 0;
        assert Decisive(get(0));
      }
    }
  }

  // ---------------------------------------------------------------------------
  // Xdebug

  /** The commands InstallXdebug runs, in order. */
  const XdebugCommands: seq<string> := [
    "pecl list | grep xdebug",
    "pecl install xdebug",
    "docker-php-ext-enable xdebug",
    "echo 'xdebug.start_with_request=yes' >> /usr/local/etc/php/php.ini",
    "echo 'xdebug.mode=debug' >> /usr/local/etc/php/php.ini",
    "echo 'xdebug.client_host=host.docker.internal' >> /usr/local/etc/php/php.ini",
    "echo 'xdebug.discover_client_host=on' >> /usr/local/etc/php/php.ini",
    "echo 'xdebug.start_with_request=trigger' >> /usr/local/etc/php/php.ini"
  ]

  /** Each command with its restart flag: only the last one restarts the container. */
  function XdebugPlan(): (plan: seq<(string, bool)>)
    ensures |plan| == |XdebugCommands| == 8
    ensures forall i :: 0 <= i < |plan| ==> plan[i] == (XdebugCommands[i], i == 7)
  {
    seq(|XdebugCommands|, i requires 0 <= i < |XdebugCommands| => (XdebugCommands[i], i + 1 == |XdebugCommands|))
  }

  /** runCli: the outcome, the error and the table after. */
  datatype CliRan = CliRan(output: ExecResult, err: Option<Error>, after: seq<Container>)

  /** runCli: exec in the site's WordPress container; restart it only when asked and the exec succeeded. */
  function RunCliSpec(cs: seq<Container>, siteName: string, command: string, restart: bool, r: Replies,
                      exec: (string, seq<string>) -> ExecReply): CliRan
  {
    var name := ContainerName(siteName, "wordpress");
    var (out, e) := ExecSpec(cs, name, [command], r.list, exec);
    if e.Some? then CliRan(NoExecResult, e, cs)
    else if restart then
      var rs := RestartSpec(cs, name, r);
      CliRan(out, rs.err, rs.after)
    else CliRan(out, None, cs)
  }

  /**
   * runCli never removes a container, leaves the table alone unless it
   * restarts, and a failed exec restarts nothing and yields a zero output.
   */
  lemma RunCliKeepsContainers(cs: seq<Container>, siteName: string, command: string, restart: bool, r: Replies,
                              exec: (string, seq<string>) -> ExecReply)
    requires ContainersValid(cs)
    ensures var o := RunCliSpec(cs, siteName, command, restart, r, exec);
      && IdsOf(o.after, ContainerId) == IdsOf(cs, ContainerId)
      && (!restart ==> o.after == cs)
      && (ExecSpec(cs, ContainerName(siteName, "wordpress"), [command], r.list, exec).1.Some? ==>
            o.after == cs && o.output == NoExecResult)
  {
    var name := ContainerName(siteName, "wordpress");
    RestartKeepsContainers(cs, name, r);
    ExecOutcome(cs, name, [command], r.list, exec);
  }

  /** runCli keeps the daemon's table rules. */
  lemma RunCliValid(cs: seq<Container>, siteName: string, command: string, restart: bool, r: Replies,
                    exec: (string, seq<string>) -> ExecReply)
    requires ContainersValid(cs)
    ensures ContainersValid(RunCliSpec(cs, siteName, command, restart, r, exec).after)
  {
    var name := ContainerName(siteName, "wordpress");
    if RunningIdOf(cs, name, r.list).Some? {
      var id := RunningIdOf(cs, name, r.list).value;
      WithRunningValid(cs, id, false);
      WithRunningValid(WithRunning(cs, id, false), id, true);
    }
  }

  /** InstallXdebug: the result, the error, the table after and the (command, restart) pairs run. */
  datatype Xdebugged = Xdebugged(ok: bool, err: Option<Error>, after: seq<Container>, issued: seq<(string, bool)>)

  /**
   * The Xdebug commands from number i up to (not including) `until`;
   * `replies(i)` is what the daemon answers around command i.
   */
  function XdebugFrom(cs: seq<Container>, siteName: string, i: nat, until: nat, replies: nat -> Replies,
                      exec: (string, seq<string>) -> ExecReply): Xdebugged
    decreases |XdebugCommands| - i
  {
    if i >= until || i >= |XdebugCommands| then Xdebugged(true, None, cs, [])
    else
      var step := XdebugPlan()[i];
      var o := RunCliSpec(cs, siteName, step.0, step.1, replies(i), exec);
      if o.err.Some? then Xdebugged(false, o.err, o.after, [step])
      else if i == 0 && Contains(o.output.stdOut, "xdebug") then Xdebugged(false, None, o.after, [step])
      else
        var rest := XdebugFrom(o.after, siteName, i + 1, until, replies, exec);
        rest.(issued := [step] + rest.issued)
  }

  function XdebugSpec(enabled: bool, cs: seq<Container>, siteName: string, replies: nat -> Replies,
                      exec: (string, seq<string>) -> ExecReply): Xdebugged
  {
    if !enabled then Xdebugged(false, None, cs, []) else XdebugFrom(cs, siteName, 0, |XdebugCommands|, replies, exec)
  }

  lemma {:induction false} XdebugFromPrefix(cs: seq<Container>, siteName: string, i: nat, replies: nat -> Replies,
                                           exec: (string, seq<string>) -> ExecReply)
    requires i <= |XdebugCommands|
    ensures var x := XdebugFrom(cs, siteName, i, |XdebugCommands|, replies, exec);
      x.issued <= XdebugPlan()[i..] && (i < |XdebugCommands| ==> |x.issued| >= 1)
    decreases |XdebugCommands| - i
  {
    var plan := XdebugPlan();
    if i < |XdebugCommands| {
      var step := plan[i];
      var o := RunCliSpec(cs, siteName, step.0, step.1, replies(i), exec);
      if o.err.None? && !(i == 0 && Contains(o.output.stdOut, "xdebug")) {
        XdebugFromPrefix(o.after, siteName, i + 1, replies, exec);
        assert plan[i..] == [plan[i]] + plan[i + 1..];
      }
    }
  }

  lemma {:induction false} XdebugFromOk(cs: seq<Container>, siteName: string, i: nat, replies: nat -> Replies,
                                       exec: (string, seq<string>) -> ExecReply)
    requires i <= |XdebugCommands|
    ensures var x := XdebugFrom(cs, siteName, i, |XdebugCommands|, replies, exec);
      && (x.ok <==> x.err.None? && i + |x.issued| == |XdebugPlan()|)
      && (x.err.None? && !x.ok ==> i == 0 && |x.issued| == 1)
    decreases |XdebugCommands| - i
  {
    if i < |XdebugCommands| {
      var step := XdebugPlan()[i];
      var o := RunCliSpec(cs, siteName, step.0, step.1, replies(i), exec);
      if o.err.None? && !(i == 0 && Contains(o.output.stdOut, "xdebug")) {
        XdebugFromOk(o.after, siteName, i + 1, replies, exec);
      }
    }
  }

  /**
   * A failing command ends the Xdebug sequence: when commands i up to j ran
   * without error or early exit and command j fails, command j is the last
   * one issued, its error is returned and the table is the one it left.
   */
  lemma {:induction false} XdebugEndsAtError(cs: seq<Container>, siteName: string, i: nat, j: nat, replies: nat -> Replies,
                                            exec: (string, seq<string>) -> ExecReply)
    requires i <= j < |XdebugCommands|
    requires XdebugFrom(cs, siteName, i, j, replies, exec).ok
    ensures var before := XdebugFrom(cs, siteName, i, j, replies, exec);
      var o := RunCliSpec(before.after, siteName, XdebugPlan()[j].0, XdebugPlan()[j].1, replies(j), exec);
      o.err.Some? ==>
        XdebugFrom(cs, siteName, i, |XdebugCommands|, replies, exec) == Xdebugged(false, o.err, o.after, before.issued + [XdebugPlan()[j]])
    decreases j - i
  {
    if i < j {
      var step := XdebugPlan()[i];
      var o := RunCliSpec(cs, siteName, step.0, step.1, replies(i), exec);
      XdebugEndsAtError(o.after, siteName, i + 1, j, replies, exec);
      var rest := XdebugFrom(o.after, siteName, i + 1, j, replies, exec);
      assert [step] + (rest.issued + [XdebugPlan()[j]]) == ([step] + rest.issued) + [XdebugPlan()[j]];
    }
  }

  /**
   * InstallXdebug runs a prefix of the eight commands in order, with a
   * restart requested only with the last; nothing when the option is off; it
   * ends with no error and not installed exactly when the first command
   * succeeds and its output mentions xdebug, right after that command; it
   * reports installed iff all eight ran without error.
   */
  lemma XdebugTrace(enabled: bool, cs: seq<Container>, siteName: string, replies: nat -> Replies,
                    exec: (string, seq<string>) -> ExecReply)
    ensures var x := XdebugSpec(enabled, cs, siteName, replies, exec);
      && (!enabled ==> x == Xdebugged(false, None, cs, []))
      && x.issued <= XdebugPlan()
      && (forall k :: 0 <= k < |x.issued| ==> (x.issued[k].1 <==> k == 7))
      && (x.ok <==> enabled && x.err.None? && x.issued == XdebugPlan())
      && (enabled && !x.ok && x.err.None? ==> |x.issued| == 1)
    ensures var x := XdebugSpec(enabled, cs, siteName, replies, exec);
      var o := RunCliSpec(cs, siteName, XdebugPlan()[0].0, XdebugPlan()[0].1, replies(0), exec);
      enabled ==>
        (o.err.None? && Contains(o.output.stdOut, "xdebug") <==>
           x.err.None? && !x.ok && x.issued == [XdebugPlan()[0]] && x.after == o.after)
  {
    if enabled {
      XdebugFromPrefix(cs, siteName, 0, replies, exec);
      XdebugFromOk(cs, siteName, 0, replies, exec);
      assert XdebugPlan()[0..] == XdebugPlan();
      var o := RunCliSpec(cs, siteName, XdebugPlan()[0].0, XdebugPlan()[0].1, replies(0), exec);
      if o.err.None? && !Contains(o.output.stdOut, "xdebug") {
        XdebugFromPrefix(o.after, siteName, 1, replies, exec);
      }
    }
  }

  // ---------------------------------------------------------------------------
  // The site

  class Site {
    const docker: Daemon
    var staticConfig: StaticConfig
    const dynamicConfig: DynamicConfig
    const siteConfig: SiteConfig
    const rootCert: string
    var siteDomain: string
    var secureURL: string
    var url: string

    /** The domain and URLs are those of the current name and application domain. */
    ghost predicate Valid()
      reads this
    {
      && siteDomain == SiteDomain(staticConfig.siteName, staticConfig.appDomain)
      && secureURL == SecureURL(siteDomain)
      && url == PlainURL(siteDomain)
    }

    /** The site NewSite builds once the Docker client and the site configuration are in hand. */
    constructor (docker: Daemon, staticConfig: StaticConfig, dynamicConfig: DynamicConfig, siteConfig: SiteConfig)
      ensures Valid()
      ensures this.docker == docker && this.staticConfig == staticConfig
      ensures this.dynamicConfig == dynamicConfig && this.siteConfig == siteConfig
      ensures rootCert == PathJoin(PathJoin(staticConfig.appDirectory, "certs"), staticConfig.rootCert)
    {
      this.docker := docker;
      this.staticConfig := staticConfig;
      this.dynamicConfig := dynamicConfig;
      this.siteConfig := siteConfig;
      rootCert := PathJoin(PathJoin(staticConfig.appDirectory, "certs"), staticConfig.rootCert);
      var domain := SiteDomain(staticConfig.siteName, staticConfig.appDomain);
      siteDomain := domain;
      secureURL := SecureURL(domain);
      url := PlainURL(domain);
    }

    function GetURL(insecure: bool): string
      reads this
    {
      if insecure then url else secureURL
    }

    method ProcessNameFlag(cmd: Command, sanitize: string -> string, link: LinkFile, writeErr: Option<Error>)
      returns (err: Option<Error>)
      requires Valid()
      modifies this
      ensures Valid()
      ensures (staticConfig, err) == NameFlagSpec(old(staticConfig), cmd, sanitize, link, writeErr)
    {
      if IgnoresNameFlag(cmd.use) {
        return None;
      }
      var siteLink := staticConfig.workingDirectory;
      if cmd.nameChanged {
        if cmd.use == "start" {
          if cmd.pluginChanged || cmd.themeChanged || cmd.localChanged {
            return Some(InvalidStartFlags);
          }
        }
        var n := sanitize(cmd.name);
        staticConfig := staticConfig.(siteName := n);
        staticConfig := staticConfig.(siteDirectory := PathJoin(PathJoin(staticConfig.appDirectory, "sites"), n));
        siteDomain := SiteDomain(staticConfig.siteName, staticConfig.appDomain);
        secureURL := SecureURL(siteDomain);
        url := PlainURL(siteDomain);
        siteLink := staticConfig.siteDirectory;
      }
      var value := siteLink;
      match link {
        case LinkPresent(l) =>
          value := l;
        case LinkMissing =>
          if writeErr.Some? {
            return writeErr;
          }
        case LinkUnreadable =>
      }
      staticConfig := staticConfig.(workingDirectory := value);
      return None;
    }

    /** GETs the secure URL until a 200, a GET error, or the 31st GET of the loop. */
    method VerifySite(certErr: Option<Error>, get: (string, nat) -> HttpOutcome)
      returns (up: bool, err: Option<Error>, gets: nat, sleeps: nat)
      ensures Verified(up, err, gets, sleeps) == VerifySpec(certErr, GetsOf(get, secureURL))
    {
      ghost var g := GetsOf(get, secureURL);
      if certErr.Some? {
        return false, certErr, 0, 0;
      }
      var resp := get(secureURL, 0);
      gets, sleeps := 1, 0;
      if resp.HttpError? {
        return false, Some(resp.err), gets, sleeps;
      }
      var tries := 0;
      while resp.code != 200
        invariant 0 <= tries <= MaxGets - 2
        invariant gets == tries + 1 && sleeps == tries
        invariant resp == g(tries) && resp.Status?
        invariant tries > 0 ==> resp.code != 200
        invariant g(0).Status? && (tries > 0 ==> g(0).code != 200)
        invariant resp.code != 200 ==> FirstDecisive(g, 1, MaxGets) == FirstDecisive(g, gets, MaxGets)
        decreases MaxGets - tries
      {
        resp := get(secureURL, gets);
        assert resp == g(gets);
        gets := gets + 1;
        if resp.HttpError? {
          assert FirstDecisive(g, gets - 1, MaxGets) == Some(gets - 1);
          return false, Some(resp.err), gets, sleeps;
        }
        if resp.code == 200 {
          break;
        }
        if tries == 30 {
          return false, Some(Timeout), gets, sleeps;
        }
        tries := tries + 1;
        sleeps := sleeps + 1;
      }
      return true, None, gets, sleeps;
    }

    method RunCli(command: string, restart: bool, r: Replies, exec: (string, seq<string>) -> ExecReply)
      returns (output: ExecResult, err: Option<Error>)
      requires docker.Valid()
      modifies docker
      ensures docker.Valid() && docker.networks == old(docker.networks)
      ensures CliRan(output, err, docker.containers) == RunCliSpec(old(docker.containers), staticConfig.siteName, command, restart, r, exec)
    {
      var container := ContainerName(staticConfig.siteName, "wordpress");
      output, err := ContainerExec(docker, container, [command], r.list, exec);
      if err.Some? {
        return NoExecResult, err;
      }
      if restart {
        var restarted;
        restarted, err := ContainerRestart(docker, container, r);
        return output, err;
      }
      return output, None;
    }

    method InstallXdebug(replies: nat -> Replies, exec: (string, seq<string>) -> ExecReply) returns (ok: bool, err: Option<Error>)
      requires docker.Valid()
      modifies docker
      ensures docker.Valid() && docker.networks == old(docker.networks)
      ensures var x := XdebugSpec(siteConfig.xdebug, old(docker.containers), staticConfig.siteName, replies, exec);
        ok == x.ok && err == x.err && docker.containers == x.after
    {
      if !siteConfig.xdebug {
        return false, None;
      }
      ghost var whole := XdebugFrom(docker.containers, staticConfig.siteName, 0, |XdebugCommands|, replies, exec);
      var commands := XdebugCommands;
      for i := 0 to |commands|
        invariant docker.Valid() && docker.networks == old(docker.networks)
        invariant var rest := XdebugFrom(docker.containers, staticConfig.siteName, i, |XdebugCommands|, replies, exec);
          whole.ok == rest.ok && whole.err == rest.err && whole.after == rest.after
      {
        var restart := false;
        if i + 1 == |commands| {
          restart := true;
        }
        var output;
        output, err := RunCli(commands[i], restart, replies(i), exec);
        if err.Some? {
          return false, err;
        }
        if i == 0 && Contains(output.stdOut, "xdebug") {
          return false, None;
        }
      }
      return true, None;
    }
  }

  /** GetURL gives the plain URL when insecure and the secure one otherwise, both on the site's domain. */
  lemma GetURLOnDomain(s: Site, insecure: bool)
    requires s.Valid()
    ensures HostOf(s.GetURL(insecure)) == Some(SiteDomain(s.staticConfig.siteName, s.staticConfig.appDomain))
    ensures s.GetURL(insecure) == if insecure then PlainURL(s.siteDomain) else SecureURL(s.siteDomain)
  {
    URLsCarryDomain(s.siteDomain, s.siteDomain);
  }

  /**
   * NewSite: no site unless the Docker controller is made and the site
   * configuration is read.
   */
  method NewSite(staticConfig: StaticConfig, dynamicConfig: DynamicConfig, clientErr: Option<Error>, daemon: Daemon,
                 goos: string, probe: nat -> Option<Error>, launch: Option<Error>, siteConfig: Result<SiteConfig>)
    returns (site: Option<Site>, err: Option<Error>)
    ensures site.Some? <==> err.None?
    ensures clientErr.Some? ==> err == clientErr
    ensures clientErr.None? && AvailabilitySpec(goos, probe, launch).err.Some? ==> err == AvailabilitySpec(goos, probe, launch).err
    ensures clientErr.None? && AvailabilitySpec(goos, probe, launch).err.None? ==>
      err == if siteConfig.Failure? then Some(siteConfig.error) else None
    ensures site.Some? ==>
      && fresh(site.value) && site.value.Valid() && site.value.docker == daemon
      && site.value.staticConfig == staticConfig && site.value.siteConfig == siteConfig.value
  {
    var controller;
    controller, err := NewController(clientErr, daemon, goos, probe, launch);
    if err.Some? {
      return None, err;
    }
    if siteConfig.Failure? {
      return None, Some(siteConfig.error);
    }
    var s := new Site(controller.value, staticConfig, dynamicConfig, siteConfig.value);
    return Some(s), None;
  }
}

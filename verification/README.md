# kana: the Docker and WordPress site core, modelled in Dafny

kana is a command-line tool that runs a local WordPress development site in
Docker. Each site has two containers on a shared bridge network called
`kana`:

- a MariaDB database container, `kana_<site>_database`;
- a WordPress container, `kana_<site>_wordpress`, routed by a traefik proxy
  at `https://<site>.<app domain>/`.

wp-cli commands run in a throw-away `kana_<site>_wordpress_cli` container.
Shell commands such as the Xdebug installation run by exec in the WordPress
container.

This project models two layers of that tool:

- the Docker adapter (`internal/docker`): listing, running, stopping,
  restarting, exec-ing and removing containers by name, and creating and
  removing networks;
- the site layer that drives it (`internal/site`): naming and routing the
  containers, starting and stopping a site, running wp-cli, installing
  WordPress, Xdebug and the default plugins, and waiting for the site to
  answer.

## How the model is built

The Docker daemon is a class, `Engine.Daemon` (engine.dfy):

- it holds the table of containers (id, names, create request, running flag)
  and the table of networks;
- `Valid()` states the rules the daemon keeps. Ids are unique. Every name is
  stored as `"/" + name` with a slash-free name. No two containers share a
  name;
- its methods are the Docker SDK calls the adapter makes.

Everything the daemon or the outside world decides is an explicit argument:

- failures and exit statuses are `Replies` / `NetReplies`;
- exec output is an `ExecReply` function;
- probes, HTTP GETs, image pulls, `os.Getwd`, directory creation, JSON
  parsing and the configuration reads are further arguments.

Every adapter operation follows one pattern. A method does what the Go
function does, step by step, and its `ensures` ties its results and the new
daemon tables to a specification function (`RunSpec`, `StopSpec`,
`StartSpec`, …). The lemmas beside it prove what the source promises about
that function: what is kept, what is running afterwards, in what order
requests are made, idempotence and round trips.

The start loop of StartWordPress is `LaunchEach`, a loop that makes one
pass per container and stops at the first pass that fails, applied to
`StartOne`, the pass that pulls the image and then runs the container. The
loop's stop-at-the-first-error rule is proved once, for any pass.

Go receiver methods on `DockerClient` become module-level methods taking the
`Daemon`; methods on `*Site` become methods taking the `Sites.Site` object.

Modules:

- `Common`: names, `strings.Trim`, `strings.Contains`, `path.Join`;
- `Engine`: the daemon;
- `Networks`: network.go;
- `Containers`: container.go;
- `Availability`: docker.go;
- `Sites`: site.go;
- `WordPress`: wordpress.go.

## Model

| member | source | states |
|---|---|---|
| Common.TrimSlashesInfix | internal/docker/container.go:85 | `strings.Trim(name, "/")` returns the infix left once the slash runs at both ends are cut off, and it neither starts nor ends with a slash |
| Common.TrimStoredName | internal/docker/container.go:85 | a container created as `n` is reported as `/n`, and trimming gives `n` back |
| Common.TrimStoredNameInjective | internal/docker/container.go:84-88 | two daemon-stored names trim to the same string only if they are the same name, so the name match finds at most one container |
| Common.ContainsAt | internal/site/site.go:226 | `strings.Contains` holds iff the substring occurs at some position (both directions) |
| Networks.GetNetworkConfig | internal/docker/network.go:21-47 | the port set is exactly the exposed ports; each port is bound to the same port on the host and nothing else is bound; no ports gives empty maps |
| Networks.FirstMatchIsFirst | internal/docker/network.go:97-129 | the lookup finds a network iff one has that name (or id), and then it finds the first one in list order |
| Networks.FindNetworkByName | internal/docker/network.go:97-112 | a listing error is returned with found == false; otherwise, when found, the network is in the table and has that name; when not found, the zero network |
| Networks.FindNetworkById | internal/docker/network.go:114-129 | the same as the name lookup, by id |
| Networks.EnsureNetwork | internal/docker/network.go:49-80 | leaves the containers alone and keeps the daemon valid; results and network table are those of the lookup, create, look-up-again sequence |
| Networks.EnsureNetworkCreates | internal/docker/network.go:49-80 | with the name absent and every request answered, a new bridge network of that name is appended and reported created |
| Networks.EnsureNetworkIdempotent | internal/docker/network.go:49-80 | after a successful EnsureNetwork, a second one creates nothing, reports created == false and returns a network of that name |
| Networks.RemoveNetwork | internal/docker/network.go:82-95 | an absent name is no error and removes nothing; otherwise the first network of that name is removed unless the removal fails |
| Networks.EnsureThenRemove | internal/docker/network.go:49-95 | removing the network EnsureNetwork just created gives back the network table as it was (a round trip) |
| Networks.WithoutAppend | internal/docker/network.go:82-95 | removing a network by id distributes over concatenation of the table |
| Containers.SiteFilter | internal/docker/container.go:39-55 | the label filter selects exactly the containers the site owns: those carrying the ownership label, with the site's name as its value unless no site is given |
| Containers.ListContainers | internal/docker/container.go:39-73 | a listing error gives no ids and the error; otherwise the ids of the site's containers, stopped ones included, in table order |
| Containers.ListedAreOwned | internal/docker/container.go:39-73 | an id is listed iff it belongs to a container carrying the site label with that value |
| Containers.FirstNamedIsFirst | internal/docker/container.go:83-91 | the name search finds an id iff some listed container has the name, and then the first such container in list order |
| Containers.IsContainerRunning | internal/docker/container.go:76-92 | reports running iff a running container answers to the name; the id is that container's, else empty; a listing error reads as not running |
| Containers.NamedUnique | internal/docker/container.go:76-92 | in a daemon-kept table at most one container answers to a name |
| Containers.RunningIdIs | internal/docker/container.go:76-92 | the running container of a name is exactly what IsContainerRunning finds |
| Containers.RunningIdNone | internal/docker/container.go:76-92 | when nothing is found and the listing was answered, no running container has the name |
| Containers.ContainerGetMounts | internal/docker/container.go:95-105 | no mounts unless a container of that name runs; an inspect error reads as no mounts |
| Containers.MountsOfRunning | internal/docker/container.go:95-105 | with a healthy daemon, the mounts are those the running container was created with |
| Containers.ContainerRun | internal/docker/container.go:107-151 | a running container of that name is reused with nothing changed; a create failure changes nothing; an error returns an empty id; the new table is that of create-then-start, with the create request built from the configuration (helper CreateRequestFor) |
| Containers.RunValid | internal/docker/container.go:107-151 | a run keeps the daemon's table rules |
| Containers.RunIdempotent | internal/docker/container.go:107-151 | after a successful run the named container runs under the returned id and all others are kept; running the same config again reuses it and changes nothing |
| Containers.RunKeeps | internal/docker/container.go:107-151 | a run never changes, stops or removes a container that was already there |
| Containers.ContainerWait | internal/docker/container.go:153-163 | a wait error gives status 0 and that error with nothing changed; otherwise the exit status is returned and the container is no longer running |
| Containers.ContainerLog | internal/docker/container.go:165-185 | a log error gives an empty body and that error; otherwise the log text |
| Containers.ContainerRunAndClean | internal/docker/container.go:187-211 | a failed run returns status 0 and leaves the run's table; otherwise run, wait, log, remove, with the run's, the wait's or else the removal's error |
| Containers.RunHolds | internal/docker/container.go:107-151 | after a successful run the table is valid and holds a running container of that name under the returned id; all other containers are still there |
| Containers.RunAndCleanSucceeds | internal/docker/container.go:187-211 | with the run, the wait and the removal answered, the call succeeds and returns the exit status whatever it is; a failed log read only empties the body |
| Containers.RunAndCleanLeavesNone | internal/docker/container.go:187-211 | a clean run leaves no container of that name behind and keeps every other container |
| Containers.ContainerStop | internal/docker/container.go:213-231 | when nothing of that name runs, the result is (true, no error) and nothing changes; otherwise stop, then remove the same id |
| Containers.StopClears | internal/docker/container.go:213-231 | a successful stop with the listing answered leaves no running container of that name |
| Containers.StopKeepsOthers | internal/docker/container.go:213-231 | a successful stop removes at most the running container of that name |
| Containers.StopIdempotent | internal/docker/container.go:213-231 | after a successful stop nothing of that name runs and only that container is gone; stopping again is a no-op reporting success |
| Containers.StopNeverStarts | internal/docker/container.go:213-231 | a stop keeps the table rules, and every container running after it was running before |
| Containers.ContainerRestart | internal/docker/container.go:233-251 | when nothing of that name runs, the result is (true, no error) and nothing changes; otherwise stop, then start the same id |
| Containers.RestartKeepsContainers | internal/docker/container.go:233-251 | a restart never removes a container (same ids, same order), and a successful restart leaves the table exactly as it was |
| Containers.ContainerExec | internal/docker/container.go:253-322 | the result is the one of the exec specification: the running container found by name, the command run as `sh -c` followed by the given words (helper ShellCommand), each stage's error |
| Containers.ExecOutcome | internal/docker/container.go:253-322 | every error gives the zero result; a container not running gives the zero result and no error; otherwise the command's output and exit code, and a non-zero exit code is not an error |
| Availability.FirstAnsweredIsFirst | internal/docker/docker.go:50-68 | the retry search finds no answered probe iff all of them fail, and otherwise stops at the first answered one |
| Availability.EnsureDockerIsAvailable | internal/docker/docker.go:39-73 | the error, the launch, the sleeps and the probes are those of the availability state machine |
| Availability.AvailabilityBounds | internal/docker/docker.go:39-73 | an answered first probe never launches Docker; off macOS the first error is returned without retrying; at most 11 re-probes, one after each sleep; success iff some probe is answered; a failure on macOS is the start error; it stops at the first answered probe |
| Availability.NewController | internal/docker/docker.go:22-37 | no controller on a client error or an unavailable daemon; the controller is the daemon iff there is no error |
| Sites.URLsCarryDomain | internal/site/site.go:57-59 | both site URLs carry the site domain as their host, and the https and http URLs never coincide |
| Sites.ContainerNameInjective | internal/site/wordpress.go:29-35 | within one role, two sites never share a container name |
| Sites.RolesNeverCollide | internal/site/wordpress.go:29-35 | the database, WordPress and wp-cli containers of any two sites have pairwise different names |
| Sites.NameFlagRenames | internal/site/site.go:65-121 | commands that ignore the flag and refused start flags change nothing; a name flag sets the sanitized name and the directory `<app>/sites/<name>`; otherwise the name and directory are kept; the app directory, domain and certificate never change |
| Sites.FirstDecisiveIsFirst | internal/site/site.go:156-174 | the wait loop ends at the first GET that fails or answers 200, and none does iff all of them answer otherwise |
| Sites.VerifyBounds | internal/site/site.go:134-177 | at most 32 GETs and 30 sleeps, each sleep between GETs; up iff no error; an unreadable certificate is returned with no GET made; a GET error returned is the error of the last GET made |
| Sites.VerifyStops | internal/site/site.go:134-177 | with the certificate read, the wait stops at the first GET that fails or answers 200 and returns that GET's error (or none), after one sleep per loop GET but the first; when no GET does, it times out after all 32 GETs and 30 sleeps |
| Sites.VerifyUp | internal/site/site.go:134-177 | the site is up iff the certificate is read and some GET among the first 32 answers 200 before any GET fails |
| Sites.RunCliKeepsContainers | internal/site/site.go:235-250 | runCli removes no container, changes nothing unless it restarts, and a failed exec restarts nothing and gives the zero output |
| Sites.RunCliValid | internal/site/site.go:235-250 | runCli keeps the daemon's table rules |
| Sites.XdebugFromPrefix | internal/site/site.go:214-229 | the commands run from command i on are a prefix of the rest of the plan, and at least one runs |
| Sites.XdebugFromOk | internal/site/site.go:214-229 | success iff every remaining command was issued with no error; ending with no error and not installed happens only after exactly the first command |
| Sites.XdebugEndsAtError | internal/site/site.go:214-229 | when the commands before command j ran without error or early exit and command j fails, it is the last command issued, its error is returned and the table is the one it left |
| Sites.XdebugTrace | internal/site/site.go:193-232 | nothing runs when the option is off; a prefix of the plan (helper XdebugPlan: the eight commands with their restart flags) runs in order with a restart only with the last; installed iff all eight ran without error; with the option on, the first command succeeding with "xdebug" in its output holds iff the call ends with no error and not installed right after that command, with the table it left |
| Sites.Site.constructor | internal/site/site.go:45-59 | the site holds the client and configuration; the certificate path is `<app>/certs/<cert>`; the domain and URLs are those of the site name and application domain |
| Sites.Site.ProcessNameFlag | internal/site/site.go:65-121 | keeps the site consistent and sets the static configuration as the name-flag specification does |
| Sites.Site.VerifySite | internal/site/site.go:134-177 | up, error, GET count and sleep count are those of the readiness loop on the secure URL |
| Sites.Site.RunCli | internal/site/site.go:235-250 | output, error and container table are those of exec then optional restart in `kana_<site>_wordpress`; the networks are unchanged |
| Sites.Site.InstallXdebug | internal/site/site.go:193-232 | the result, error and table are those of the Xdebug sequence over the site's container |
| Sites.GetURLOnDomain | internal/site/site.go:124-131 | the insecure URL is the http one and the other the https one, both on the site's domain |
| Sites.NewSite | internal/site/site.go:35-62 | a site iff no error; a client error, an availability error or a configuration error is returned in that order; a new site is valid and holds the daemon and configuration |
| WordPress.SiteContainers | internal/site/wordpress.go:29-35 | the database container, then the WordPress container, named `kana_<site>_database` and `kana_<site>_wordpress`, never the same |
| WordPress.SiteMounts | internal/site/wordpress.go:84-116 | the application directory on the web root comes first; for a plugin or theme site the working directory is mounted as that plugin or theme, and only then; without a working directory only the first mount comes back, with the error |
| WordPress.SpecsWiring | internal/site/wordpress.go:155-200 | every site container carries the ownership label with the site name, joins the `kana` network and is its own host name; WordPress and wp-cli reach the database by its container name; only WordPress carries other labels |
| WordPress.TraefikRouting | internal/site/wordpress.go:189-197 | both routers of the WordPress container match the site's host; entry points are web and websecure; TLS is on the secure router only |
| WordPress.RuleMatchesURL | internal/site/wordpress.go:192-194 | the traefik Host rule is the domain of both URLs the site reports |
| WordPress.RunPlan | internal/site/wordpress.go:202-215 | for each container in order, its image pull then its run |
| WordPress.LaunchEachAppend | internal/site/wordpress.go:202-215 | the loop over a + b is the loop over a followed, when all of a passed, by the loop over b from the table a left |
| WordPress.LaunchEachEndsAtError | internal/site/wordpress.go:202-215 | when the passes before j made no error and pass j fails, pass j is the last one made, its error is returned and the table is the one it left |
| WordPress.RunEachTrace | internal/site/wordpress.go:202-215 | the start loop makes a prefix of its plan, all of it on success, and at least one step |
| WordPress.RunEachEndsAtError | internal/site/wordpress.go:202-215 | when the containers before j started and the pull or the run of container j fails, that step is the last one made, its error is returned and the table is the one it left |
| WordPress.RunEachKeeps | internal/site/wordpress.go:202-215 | the start loop keeps every container already there and the table rules |
| WordPress.RunEachRuns | internal/site/wordpress.go:202-215 | when the start loop succeeds, each planned container is running under its name |
| WordPress.StartVolumes | internal/site/wordpress.go:126-153 | the WordPress mounts start with the web root; its source is `<cwd>/wordpress` for a local site (helper LocalAppDir) and `<site dir>/app` otherwise; a missing working directory or a failure to create the local directory is that error |
| WordPress.StartWordPress | internal/site/wordpress.go:119-216 | the error and the container and network tables are those of the start specification |
| WordPress.StartPlanIs | internal/site/wordpress.go:119-216 | the start plan is the network step followed by image and run of the database, then of WordPress |
| WordPress.StartOrder | internal/site/wordpress.go:119-216 | the start makes a prefix of its plan, starting with the network; a network error, or a failure to find the directories and mounts, ends it after the network step with no container touched (the latter with that error); it stops short only at an error |
| WordPress.StartPlanBefore | internal/site/wordpress.go:202-215 | the start plan up to the pull, and up to the run, of container j is the network step, the plan of the containers before j, then that pull (and run) |
| WordPress.StartEndsAtImage | internal/site/wordpress.go:202-215 | when the containers before j started and the pull of container j fails, the start returns that error with the table the earlier runs left, and its requests end with that pull |
| WordPress.StartEndsAtRun | internal/site/wordpress.go:202-215 | when the containers before j started, the pull of container j succeeds and its run fails, the start returns that error with the table the run left, and its requests end with that run |
| WordPress.StartRuns | internal/site/wordpress.go:119-216 | the start keeps the containers already there and the table rules; on success both site containers are running |
| WordPress.StopEachTrace | internal/site/wordpress.go:50-57 | the stop loop stops a prefix of the names in order, all of them on success |
| WordPress.StopEachEndsAtError | internal/site/wordpress.go:50-57 | when the names before j stopped without error and stopping name j fails, it is the last name stopped, its error is returned and the table is the one it left |
| WordPress.StopEachNeverStarts | internal/site/wordpress.go:50-57 | the stop loop starts nothing and keeps the table rules |
| WordPress.StopEachHalts | internal/site/wordpress.go:50-57 | when the stop loop succeeds with the listings answered, none of the names is running |
| WordPress.StopWordPress | internal/site/wordpress.go:46-64 | the error and the table are those of the stop loop followed by the proxy step's error; the networks are unchanged, the proxy step being modelled as changing no container or network |
| WordPress.StopSiteHalts | internal/site/wordpress.go:46-64 | the database stops before WordPress; a stop error ends it before the proxy step; at the proxy step neither container runs (listings answered); nothing is started |
| WordPress.StopSiteEndsAtError | internal/site/wordpress.go:46-64 | when the containers before j (database 0, WordPress 1) stopped and stopping container j fails, StopWordPress returns that error with the table that stop left, j is the last container stopped and the proxy step is not reached |
| WordPress.CliVolumes | internal/site/wordpress.go:266-280 | the wp-cli mounts start with the web root; its source is `<cwd>/wordpress` when the running site is local (helper LocalAppDir) and `<app dir>/sites/<site>/app` otherwise; a missing working directory or a failure to create the local directory is that error |
| WordPress.RunWPCli | internal/site/wordpress.go:259-318 | the output, error and tables are those of the wp-cli specification: network, mounts, image, run-and-clean of the wp-cli container running `wp --path=/var/www/html` followed by the command's words (helper CliSpec) |
| WordPress.WPCliIgnoresExitStatus | internal/site/wordpress.go:307-317 | once every step is answered the call succeeds whatever the command's exit status, and returns its log |
| WordPress.WPCliCleansUp | internal/site/wordpress.go:259-318 | a successful wp-cli run leaves no wp-cli container of the site and keeps every other container |
| WordPress.InstallWordPress | internal/site/wordpress.go:219-235 | the result is that of one wp-cli core install on the site's secure URL with the admin account |
| WordPress.PluginPlan | internal/site/wordpress.go:238-256 | the install command of each configured plugin, in the configured order |
| WordPress.PluginsFromPrefix | internal/site/wordpress.go:242-253 | the installs from plugin k on are a prefix of the plan for the remaining plugins |
| WordPress.PluginsFromComplete | internal/site/wordpress.go:242-253 | on success every remaining plugin was installed; on a failure at least one install was run |
| WordPress.PluginsEndAtError | internal/site/wordpress.go:242-253 | when the plugins before j installed without error and the install of plugin j fails, it is the last install run, its error is returned and the tables are the ones it left |
| WordPress.PluginsInOrder | internal/site/wordpress.go:238-256 | the installs are a prefix of the plan in configured order, all of it on success, and at least one install is run before a failure |
| WordPress.InstallDefaultPlugins | internal/site/wordpress.go:238-256 | the error and tables are those of the plugin sequence |
| WordPress.KeptPluginsAppend | internal/site/wordpress.go:342-347 | the filter distributes over concatenation, so the input order is kept |
| WordPress.KeptPluginsMembers | internal/site/wordpress.go:342-347 | a name is reported iff some plugin of the input has it and is not a drop-in, the site's own plugin, hello or akismet |
| WordPress.GetInstalledWordPressPlugins | internal/site/wordpress.go:321-350 | a wp-cli or JSON error gives no names and that error; otherwise the kept names in order |
| WordPress.FilterPlugins | internal/site/wordpress.go:342-347 | the loop returns exactly the kept plugin names in input order |
| WordPress.IsSiteRunning | internal/site/wordpress.go:38-43 | true iff the listing is answered and some container carries the site's label |

## Left out

- Wire protocol and I/O: the HTTP calls to the Docker daemon, file reads and writes, the terminal output, and the sleeps. A sleep is counted, not waited.
- ContainerExec: stream demultiplexing and the concurrent copy of stdout and stderr. Each stage's outcome and the output text are arguments.
- ContainerLog: the 10-second timeout context and the demultiplexing of the log stream. The log text or error is an argument.
- Image pulls (`EnsureImage`), the traefik proxy (`NewTraefik`, `MaybeStopTraefik`), `GetRunningConfig`, `IsLocalSite`, `SanitizeSiteName` and `json.Unmarshal` are not part of this model. Their outcomes are arguments.
- `os.Getwd`, directory creation, `os.ReadFile` of the root certificate and the link file are arguments.
- The viper configuration stores are records with the typed fields the core reads.
- StartWordPress: the removal of a local site's `wp-config.php` is not modelled (a file-system side effect with no result).
- OpenSite and openURL (launching a browser) are not modelled.
- `path.Join` is modelled as joining with "/". Directories are assumed to carry no trailing slash and no `.` or `..` elements; the cleaning `path.Join` does (`path.Clean`) is not modelled.
- `nat.NewPort` can fail on a malformed port. ContainerRun and ContainerRunAndClean require every exposed port to be a non-empty string of digits, which is what the core passes. This is not the same set NewPort accepts: the model admits numbers above 65535 and keeps leading zeros ("080" is not normalised), while NewPort also accepts the empty port and ranges such as "8000-8010".
- Sites.NewSite: on an error the Go code returns a partially built site alongside it. The model returns no site, since every caller stops on the error.
- WordPress.StopWordPress: the traefik proxy step (`NewTraefik`, `MaybeStopTraefik`) is modelled as changing no container or network, and only its error is an argument. In the Go code MaybeStopTraefik stops the proxy container when no other site runs.
- WordPress.IsSiteRunning: the Go function lists stopped containers too, so a stopped site container counts as running. The model states this as written.
- Containers.RunAndCleanLeavesNone: holds only when every step succeeds. When the wait or the removal fails, the container is left behind, as in the Go code.
- Containers.ContainerStop: when the listing fails, the Go code reports (true, no error) without stopping anything. StopClears and StopIdempotent therefore require an answered listing.
- Networks.EnsureNetwork: the final "could not create network" branch is unreachable in the model, because a daemon that accepted a create lists the network under the id it returned.
- Sites.VerifySite: the code makes up to 32 GETs and 30 sleeps (one initial GET, then up to 31 in the loop). This is the behaviour modelled.
- Availability.EnsureDockerIsAvailable: the code makes at most 11 re-probes after launching Docker for Mac, because the loop gives up when the counter reaches 12. This is the behaviour modelled.
- Containers.ContainerRunAndClean: the code returns the removal's error when the run and the wait succeeded, and drops the log error. This is the behaviour modelled.
- Sites.XdebugFromOk: states success and the shape of an early exit only. The early exit's condition is stated by Sites.XdebugTrace, and the stop at a failing command by Sites.XdebugEndsAtError.
- WordPress.RunEachTrace: states the order of the start loop's requests only. That a failing pull or run ends the loop is stated by WordPress.RunEachEndsAtError, and for StartWordPress by WordPress.StartEndsAtImage and WordPress.StartEndsAtRun.
- WordPress.StopEachTrace: states the order of the stop loop only. That a failing stop ends the loop is stated by WordPress.StopEachEndsAtError, and for StopWordPress by WordPress.StopSiteEndsAtError.
- WordPress.PluginsFromComplete: states completion only. That a failing install is the last one run is stated by WordPress.PluginsEndAtError.
- WordPress.PluginsInOrder: states the order of the installs only. That a failing install ends the loop is stated by WordPress.PluginsEndAtError.

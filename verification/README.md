# Tanjun, modelled and proved in Dafny

Tanjun deploys web projects to one Docker host over SSH. This project models its deployment protocol and
what the protocol rests on, and proves properties of the model.

- `Docker` is the host: containers with labels, images with references and creation times, volumes,
  networks, one proxy route per project. It is a class with one method per Docker call; each call takes
  effect or fails without effect, decided at the call. A ghost `trace` records every state the host has
  been in, so that a contract can speak about every intermediate state. A ghost counter `faults` counts what
  went wrong: failed calls, a name that is taken, and results that are treated as errors (the exit code of a
  hook, a service that never becomes healthy). A call that Docker refuses in the state it finds - creating from
  an image that is not there, starting or removing a container that is gone, killing one that is stopped,
  removing a running one without force - is not counted. So a contract that promises success without a fault
  also says that no such call is made. The key/value connection has such a counter as well, of broken
  connections and refused requests.
- `Frames`, `Safety` and `Handover` hold the invariants: what a stretch of calls may change, what every
  command leaves alone, and what holds in every state of a deployment.
- `Fleet`, `HookRun`, `CronjobStart`, `WorkerStart`, `AppVolumes` are the helpers of a deployment;
  `DeployPrepare`, `DeploySteps`, `DeployFacts`, `DeployFinish` and `Deployment` the protocol itself;
  `DeployCommand` the command around it; `Health` the state a project should be in; `Runs` the theorems over
  series of commands.
- `Versions`, `VersionCommands` and `Rollbacks` are the image versions: listing, draining, rolling back.
- `Settings`, `Ambiguity`, `Mistakes`, `ServiceStart` and `ServiceCommands` are the services: how their settings are written
  and compared, how concurrent goroutines start them, and how they are listed and removed.
- `Env`, `InitialSecrets`, `Secrets`, `Kv` and `OnePassword` resolve the environment from layers of maps
  and persist secrets through a line-framed key/value connection.
- `Hijack` is the streaming of an attached terminal; `Names` and `Config` are names and configuration;
  `Text` and `Orders` are strings and the iteration orders of Go maps.

Code that updates state is a method over a class or over local maps, proved against functions and
predicates; loops over Go maps and fan-outs of goroutines pick the next element arbitrarily, so a contract
holds for every order. Concurrent parties that wait for each other (services, key/value pipe, terminal
streams) are interleaved one call at a time.

## Assumptions

- Commands run one after another: the code takes no lock.
- When the proxy reports an error it has kept the old route. When it reports none it may have switched or not:
  both are modelled.
- Labels of images carry no `tanjun` keys, and every container on the host has at most one of the four role
  labels at the start (`Docker.WellFormed`); both are kept by every call.
- A Docker id is never used twice. The proxy target of a container is identified with its id.
- Where a statement needs unique references or distinct creation times, it says so.

## Where the code differs from its documentation or its messages

- An initial secret is stored, but a later deployment generates it anew unless another layer also sets the
  variable (`internal/docker/env.go:147` looks at the wrong map for the promise in `README.md:55`).
  `InitialSecrets.ExampleRegenerates` is the README example, `InitialSecrets.KeptExactlyWhenAlsoSet` the
  exact condition, `InitialSecrets.GeneratedOnce` what does hold.
- After a failed switch the cronjobs stay stopped, although the message at `internal/docker/deploy.go:301`
  names them: `DeployFacts.RestoredIsCompensated`. With nothing to restore, the new container stays behind
  unrouted: `Deployment.SwitchOver`.
- A network whose name only contains the name of the project is taken for the network of the project, which then
  is not created (`internal/docker/deploy.go:443-457` asks with a name filter): `DeployPrepare.NetworkMistaken`, with
  the exact condition in `DeployPrepare.CreateEnvironmentNetwork`.
- When the user of the image cannot be found out, the volumes are handed to an empty user, not to the fallback that
  the warning at `internal/docker/deploy.go:348-352` names: `AppVolumes.CreateAppServerVolumes`.
- A failing deploy hook leaves workers and cronjobs stopped: `Deployment.StopOld`.
- Errors while starting workers are swallowed: all of them are placed and running exactly when no call failed
  (`WorkerStart.StartWorkers`), yet the deployment goes on.
- The proxy counts as switched when the first line of its command's output is empty or missing
  (`internal/docker/proxy.go:47-52`, which looks at neither the scan nor the exit code), and
  `internal/docker/deploy.go:310` then removes the container the route may still lead to.
  `Runs.SilentProxyLosesTraffic` is such a run; `Deployment.FaresExactlyWhen` says that, with everything
  replaced, every state was safe iff the proxy had switched or nothing was served before.
- A database service may be left stopped by a successful deployment: a container with an equal command is kept
  without a look at its state (`internal/docker/service_mysql.go:71-73`). `ServiceCommands.RunsExactlyWhen` and
  `ServiceCommands.AlwaysRunsExactlyWhen` are the exact conditions,
  `ServiceCommands.StoppedServiceStaysStopped` the input.
- A repository name with a colon, as a registry with a port has, is read back wrongly, and the drain may
  then remove the image just deployed: `Rollbacks.DeployedSurvivesExactlyWhen`.
- A negative `keep_versions` is accepted; a drain with it crashes: `VersionCommands.VersionDrain`.
- MariaDB and Memcached containers without settings are recreated by every deployment, because only MySQL drops
  the default command before it compares: `Settings.SameFlagsExactlyWhen`. No service with more than one setting is
  sure to be kept, because Go may visit the settings in another order.
- Valkey and Memcached accept any key, so that different settings can be written alike and a container with the
  wrong ones is kept: `Ambiguity.ValkeyMistakesSettings`. `Ambiguity.SkipIsSoundExactlyWhen` is the exact
  condition on the settings.
- A service changed from Memcached to MySQL or MariaDB, or back, may keep the container of what it was before; no
  other change of the service does that to one with a command of its own (`Mistakes.OnlyTheseAreMistaken`).
  `Mistakes.MemcachedIsMistakenExactlyWhen` and `Mistakes.DatabaseIsMistakenExactlyWhen` are the exact conditions.
- A database moved to another version with equal settings keeps its old image: `ServiceCommands.OldImageStays`,
  with `ServiceCommands.ImageRunsExactlyWhen`. RabbitMQ and OpenSearch do compare the image
  (`ServiceCommands.KeptByImageExactlyWhen`); Blackfire and Tideways take over any container of that name,
  whatever it was created for (`ServiceCommands.AnyContainerIsKept`).
- A service with a stopped container cannot be removed, because killing it is an error: after a successful kill
  and a failed removal no retry succeeds (`ServiceCommands.CanDeleteExactlyWhen`).
- A 1Password remapping whose source is also a target depends on Go's iteration order:
  `OnePassword.ConfluentExactlyWhenClashFree`.
- A terminal setup that fails leaves the input raw exactly when its input half succeeded and its output half
  failed: `Hijack.RawAfterSetupErrorExactlyWhen`, with the run `Hijack.FailedSetupMayLeaveInputRaw`.

## Model

| member | source | states |
|---|---|---|
| `Deployment.Deploy` | internal/docker/deploy.go:128-336 | from any host state and whichever calls fail: every intermediate state leaves other projects' containers and routes alone, keeps every served project served, and never has an old worker or cronjob running beside the new application container; with a silent proxy the deployed project itself is served only while its old container is there, and once everything is replaced it is served iff the proxy had switched; it gets past a hook only if that hook ran and exited with 0; the result tells exactly how far it came and what the host looks like then; a stuck restore takes a refusal and a failed restore call; environment, store, services, volumes and image references are accounted for, the secrets of the other projects stay as they are, only named references are pulled and unique ones stay unique; when nothing goes wrong, the stored secrets can be read, the environment can be resolved, the services are supported and the number of versions to keep is not negative, it succeeds and the project is healthy iff the proxy had switched |
| `Deployment.Rollout` | internal/docker/deploy.go:183-336 | everything after the preparation, from any host on which nothing of the application was touched: the same promises as `Deployment.Deploy` |
| `Deployment.StopOld` | internal/docker/deploy.go:183-216 | draining and deploy hook: on each exit the application, its containers and its route are untouched; after a failed hook the side containers are stopped; it goes on only if the hook ran while they were stopped, before there was a new application container, and exited with 0 |
| `Deployment.SwitchOver` | internal/docker/deploy.go:218-306 | the new container leads with old workers and cronjobs stopped, routed iff the proxy has switched; or the exit says whether nothing had been switched, the old state was restored, or restoring got stuck: with the new container still there and the old workers and cronjobs stopped, or with it gone and the cronjobs stopped |
| `Deployment.Finish` | internal/docker/deploy.go:310-335 | the new container stays and keeps the traffic if it has it, whatever fails; past the replacement there is exactly one application container and exactly the new workers and cronjobs, and the deployed image survives the drain |
| `Deployment.LeadingMeansServed` | internal/docker/deploy.go:287-308 | a switched project is served by the new container |
| `Deployment.FaresExactlyWhen` | internal/docker/proxy.go:47-52 | with everything replaced the project is served iff the proxy has switched, and every state was safe iff it has or the project was not served before |
| `Deployment.SelfHealing` | internal/docker/deploy.go:161-327 | with everything replaced and staffed the project is healthy iff the proxy has switched: one routed application container of the requested image, for each worker as many running containers as configured, one if nothing is configured and none for a negative number, and two cronjob containers iff cronjobs are configured |
| `Deployment.RestoringIsHalf` | internal/docker/deploy.go:290-303 | what is there when restoring stops anywhere |
| `Deployment.DeployedImageSpared` | internal/docker/deploy.go:129-335 | the drain removes no reference of the image just deployed, for every set of images, aliases and kept versions, if the repository name has no colon; printing, listing, splitting and the active flag agree |
| `Deployment.OnlyAppIsCurrent` | internal/docker/version.go:104-118 | after the replacement the version reported active is the deployed one |
| `DeployFacts.RestoredIsCompensated` | internal/docker/deploy.go:285-306 | the compensated state: the new container is gone, all application and worker containers found at the start run, cronjobs are present but stopped, the route is the old one |
| `DeployFacts.RestoringIsExclusive` | internal/docker/deploy.go:290-303 | while restoring, the old workers start only after the new application container is gone |
| `DeployFacts.LaunchedCanTakeOver` | internal/docker/deploy.go:218-236 | the launched container can take over: fresh, running, labelled as an application, not what the route leads to |
| `DeployFacts.SlicesCarryOn` | internal/docker/deploy.go:183-335 | the steps after the services were started do not change what was established for them |
| `DeploySteps.DrainSides` | internal/docker/deploy.go:183-209 | stops exactly the listed workers and cronjobs and changes nothing else |
| `DeploySteps.LaunchApp` | internal/docker/deploy.go:218-236 | adds one running container under a fresh id, called after the project and a random number, with the deployed image, environment and volumes and the application labels, or fails |
| `DeploySteps.RouteOrRestore` | internal/docker/deploy.go:285-306 | switches only this route; when refused with something to restore, kills and removes the new container and starts the old ones, in this order, or reports that it is stuck, which takes a failed call besides the refusal |
| `DeploySteps.Restore` | internal/docker/deploy.go:290-303 | removes exactly the new container and starts exactly the given ones unless a call fails; every intermediate state is safe |
| `DeployPrepare.Prepare` | internal/docker/deploy.go:129-181 | up to the environment only services, volumes, networks and images change, images only by the references a deployment may pull; when no call fails it succeeds iff the services are supported and the environment can be resolved; then image and volumes exist, services are settled, and the environment is the fixed merge over the stored secrets |
| `DeployPrepare.StartEnvironment` | internal/docker/deploy.go:157-173 | network, volumes and services; the application listing taken before them is still exact after them |
| `DeployPrepare.ReadImageAndSecrets` | internal/docker/deploy.go:131-153 | without a failed call the secrets are those the store holds for the project, if they can be decoded; then the image is present |
| `DeployPrepare.ResolveEnvironment` | internal/docker/deploy.go:175-181 | it succeeds iff everything that is needed can be evaluated and read and the store takes what was generated; the entries handed to containers are those of the merge; the store is unchanged or holds what was generated |
| `DeployPrepare.CreateEnvironmentNetwork` | internal/docker/deploy.go:443-465 | afterwards there is a network whose name contains the one of the project; the one with this very name is there iff it was before or no name contained it; nothing else changes |
| `DeployPrepare.NetworkMistaken` | internal/docker/deploy.go:443-457 | the input: any longer name that begins with the one of the project is taken for it |
| `DeployFinish.ReplaceContainers` | internal/docker/deploy.go:310-327 | listings afterwards are the old ones minus the removed containers plus exactly those placed and started; no service container is lost |
| `DeployFinish.StartStaff` | internal/docker/deploy.go:314-327 | workers, cronjobs and post-deploy hook only add what the configuration asks for, and the hook, if there is one, ran and exited with 0 |
| `DeployCommand.Run` | cmd/deploy.go:35-110 | nothing is touched when no version is found, and without a failed call that happens only for the reasons of `ChooseVersion`; otherwise the version deployed is the requested, built, current or rollback one, and the command is done if nothing goes wrong, the environment can be resolved, the services are supported and the number of versions to keep is not negative; only this project's secrets may change, to what was generated; a successful rollback is a step of a rollback chain and leaves the selected version the only active one, given unique references, a repository name without a colon and images of the tool from elsewhere; the warning appears exactly when a service container of an unconfigured service was there |
| `DeployCommand.RollbacksRunOut` | cmd/deploy.go:35-71 | a series of successful `deploy --rollback` commands, with nobody else touching the images in between, is no longer than the number of images older than the one active at its start |
| `Handover.SoundProgresses` | internal/docker/deploy.go:183-327 | a stretch that starts no old worker or cronjob keeps every state safe and exclusive |
| `Handover.RemovalGoesAstray` | internal/docker/deploy.go:310-312 | removing the old containers without having switched: other projects are left alone, and this one is served in every state that still has its old container |
| `Safety.SafeKeepsServing` | internal/docker/deploy.go:128-336 | a safe state serves every project that was served at the start of the command |
| `Safety.ApartKeepsServing` | internal/docker/deploy.go:128-336 | even then every other project stays served |
| `Safety.WithinIsSafe` | internal/docker/deploy.go:58-92 | stopping or removing containers of the project that do not carry its traffic is safe |
| `Frames.WithinTransitive` | internal/docker/deploy.go:128-336 | two stretches, each within its frame, are within the joined frame |
| `Runs.NeverDown` | internal/docker/deploy.go:128-336 | zero downtime: over any series of failed or successful deployments and service removals of any projects, a project served at the start is served in every state, unless the proxy was silent in a deployment of this very project |
| `Runs.DeploymentContinues` | internal/docker/deploy.go:128-336 | what a deployment guarantees, with a silent proxy or without, makes it one step of such a series |
| `Runs.RemovalContinues` | internal/docker/service.go:320-359 | so does what a service removal guarantees |
| `Runs.SilentProxyLosesTraffic` | internal/docker/proxy.go:47-52 | the input: a proxy command that ends without output leaves the route on the container that is removed next |
| `Runs.DeployedRollback` | cmd/deploy.go:35-71 | when the version a rollback selects has replaced the old containers, a drain that goes through makes this a step of a rollback chain and leaves that version the only active one; the images changed only by the references the deployment pulled, none of them of the repository |
| `Runs.DeploymentIsAttempt` | internal/docker/env.go:143-176 | whatever a deployment does to the store is one step of the series that the theorems on initial secrets are about, and one that counts as storing whenever the store holds the result |
| `Runs.SecretNeverChanges` | internal/docker/env.go:65-81 | over any series of deployments with changing configurations, failed ones among them, all those that resolve their environment inject the same entry for a secret that is initial, listed under its own name and set by no other layer |
| `Runs.SecretReachesContainer` | cmd/secret_set.go:48-59 | an argument k=v of `secret set`, with any v, is an environment entry of the container a later deployment launches, if k is listed and overridden nowhere |
| `Fleet.StopContainers` | internal/docker/deploy_helper.go:26-37 | in any order: only the given containers are stopped, all of them on success, and success means no call failed |
| `Fleet.StartContainers` | internal/docker/deploy_helper.go:13-24 | in any order: only the given containers are started, all of them on success, and success means no call failed |
| `Fleet.RemoveContainers` | internal/docker/deploy_helper.go:39-67 | in any order: only the given containers disappear, all of them on success, and success means no call failed |
| `Fleet.MountedVolumesAre` | internal/docker/deploy.go:419-441 | every mount with a path is mounted from the volume named after project and mount |
| `HookRun.RunHookInContainer` | internal/docker/hook_container.go:16-98 | adds to no role listing on any exit; a hook that ran to its end was running its words in a shell, in a new container with the deployed image, environment and volumes, passed iff this container exited with 0, and leaves no container behind |
| `HookRun.FinishHook` | internal/docker/hook_container.go:53-97 | passed iff the container exited with 0 and was removed, exited iff it was another code; no other container may disappear |
| `CronjobStart.StartCronjobs` | internal/docker/deploy_cronjobs.go:15-106 | on success one container with the deployed image and one scheduler that is told its id and the jobs, both new and running; none without cronjobs |
| `CronjobStart.CronjobsAre` | internal/docker/deploy_cronjobs.go:20-106 | the two containers: one with the deployed image, environment and volumes, and one of the scheduler image whose only variable tells it the id of the first and the jobs |
| `CronjobStart.CronjobCount` | internal/docker/deploy_cronjobs.go:15-106 | these are two running containers |
| `WorkerStart.StartWorkers` | internal/docker/deploy_worker.go:15-82 | in every interleaving: one new container per placed task with the worker's command, no task twice; all tasks are placed and running iff no call failed |
| `WorkerStart.WorkerCount` | internal/docker/deploy_worker.go:41-82 | the number of containers of a worker by cases: as configured if positive, one for zero, none for a negative number |
| `AppVolumes.CreateAppServerVolumes` | internal/docker/deploy.go:338-417 | on success every configured mount has its volume, and each new one was handed by a recursive chown to the user a new container of the image printed, or to the empty user; containers of any role, existing volumes and routes are untouched; errors of the user lookup do not count |
| `AppVolumes.DetermineUid` | internal/docker/helper.go:87-129 | the user is what a new unlabelled container of the image printed when asked for its user id, or empty if a call failed; whatever fails, no more than this container was added |
| `Docker.Host.PullIfMissing` | internal/docker/helper.go:27-64 | afterwards the reference exists; a reference that existed is not pulled |
| `Docker.Host.ProxyDeploy` | internal/docker/proxy.go:12-55 | an error line keeps the route; no line or an empty one counts as success, and this route is switched or none |
| `Versions.BearsMeaning` | internal/docker/version.go:43-66 | trimming the repository off the listed references and comparing names decides exactly whether the image has the full reference |
| `Versions.ListingUnique` | internal/docker/version.go:67-69 | with distinct creation times the unstable sort leaves one possible order |
| `Versions.DrainLeaves` | internal/docker/version.go:75-102 | a drain leaves exactly the newest `keep` images and the active one, at most `keep` + 1, each with all its references |
| `Versions.DoomedLosesTags` | internal/docker/version.go:88-99 | every other image loses all its references in the repository |
| `Versions.StrangersKept` | internal/docker/version.go:75-102 | images of other repositories are not touched |
| `Versions.DrainIdempotent` | internal/docker/version.go:75-102 | a second drain changes nothing |
| `Versions.RollbackAfterDrain` | cmd/deploy.go:50-69 | after a drain a rollback finds a version iff the active index is followed by one within the first min(n, keep), and it is the one it would have found before |
| `VersionCommands.VersionList` | internal/docker/version.go:23-73 | one entry per image with a reference of the repository, newest first, first reference as name and the others as aliases, active iff it bears the current version |
| `VersionCommands.SortNewestFirst` | internal/docker/version.go:67-69 | a permutation of the entries, sorted by creation time |
| `VersionCommands.AliasNames` | internal/docker/version.go:43-60 | the loop collects all names but the first |
| `VersionCommands.VersionDrain` | internal/docker/version.go:75-102 | removes exactly the condemned references, or on an error some of them and nothing else, in every intermediate state; without a failed call it fails only without an application container and crashes only for a negative `keep` or an image reference without a colon, so a negative `keep` never succeeds |
| `VersionCommands.RemoveReferences` | internal/docker/version.go:93-99 | aliases and name are removed one by one up to the first error |
| `VersionCommands.VersionReferences` | internal/docker/version.go:93-99 | the references rebuilt from an entry's names are exactly the image's references in the repository |
| `VersionCommands.CurrentlyActive` | internal/docker/version.go:104-118 | the version of some application container, a failure without one, a crash for a reference without a colon |
| `VersionCommands.SelectRollback` | cmd/deploy.go:50-65 | the first version after the first one called current that is not called so itself, or none |
| `VersionCommands.SelectionIsRollbackImage` | cmd/deploy.go:50-65 | with unique references this is the next older image |
| `VersionCommands.ChooseVersion` | cmd/deploy.go:35-90 | a named version is taken as it is and a build yields its version or none; a rollback yields the first name of the next older image; `current` yields the running version; without a failed call there is no version only for a build without one, without an application container, for one whose image reference has no colon, or, for a rollback, when nothing older is listed |
| `VersionCommands.NoPairNothingOlder` | cmd/deploy.go:50-69 | when the loop finds no version, no older image than the first current one is listed |
| `Rollbacks.VersionReadsBack` | internal/docker/deploy.go:129 | the version read back from the reference of a container is the one it was created with, if the repository name has no colon |
| `Rollbacks.RecognisedExactlyWhen` | internal/docker/version.go:115 | the deployed image is recognised as active iff the repository name has no colon |
| `Rollbacks.DeployedSurvivesExactlyWhen` | internal/docker/version.go:115 | the drain spares the deployed image iff it is among the newest or the repository name has no colon |
| `Rollbacks.PartialDrainSpares` | internal/docker/version.go:88-99 | a drain that stops half way does not touch the active image either |
| `Rollbacks.GrownByForeigners` | internal/docker/helper.go:27-64 | pulling references of other repositories adds no version to this one and takes none away |
| `Rollbacks.RollbackReducesOlder` | cmd/deploy.go:35-71 | each rollback activates a strictly older image and leaves strictly fewer older ones, whatever the drain removes |
| `Rollbacks.RollbackChainEnds` | cmd/deploy.go:35-71 | a chain of rollbacks without new builds is no longer than the number of images older than the first active one |
| `Rollbacks.OldestCannotRollBack` | cmd/deploy.go:67-69 | no version is found exactly when nothing older is left |
| `ServiceStart.StartServices` | internal/docker/service.go:60-141 | for all nine services, in every interleaving: success means every configured service is settled, its container kept as it was or new, running and healthy, and its information attached; unconfigured services keep their containers, no service gets a second one, other roles are untouched; an unsupported service means nothing happened |
| `ServiceStart.RunAll` | internal/docker/service.go:98-140 | all goroutines run to their end whatever happens to the others, and attach their information |
| `ServiceStart.OneAdvances` | internal/docker/service.go:98-140 | a call of one goroutine leaves every other one on its track |
| `ServiceStart.TracksOne` | internal/docker/service_mysql.go:64-80 | at no point has a service two containers if it had at most one |
| `ServiceStart.TracksHonest` | internal/docker/service_mysql.go:64-80 | a service whose containers were all created from rendered settings of its family (databases, or the one service) has only such containers in every stage, a failed one included |
| `ServiceStart.BeginStage` | internal/docker/service.go:110-124 | a listed container of the service is taken as the existing one, if there is any |
| `ServiceStart.InspectStage` | internal/docker/service_mysql.go:60-73 | the container is kept iff the service's decision says so: its command equals the new rendering, its image equals the wanted one (internal/docker/service_rabbitmq.go:38-41), or it exists (internal/docker/service_tideways.go:21-23) |
| `ServiceStart.StopStage` | internal/docker/service.go:241-244 | stops the existing container only |
| `ServiceStart.RemoveStage` | internal/docker/service.go:246-248 | removes the existing container only |
| `ServiceStart.CreateStage` | internal/docker/service.go:198-202 | the new container has the image, labels and rendered command of the service; the data volume of a service that keeps data is there, and the others get none |
| `ServiceStart.HealthStage` | internal/docker/service.go:212-234 | a container counts as started iff the inspection finds it healthy or without a health check; it fails iff the inspection fails, or the last of at most 300 turns finds it starting or unhealthy; otherwise one turn fewer is left |
| `ServiceStart.InfoFits` | internal/docker/service_mysql.go:83-93 | address, login and database information attached for each of the nine kinds |
| `ServiceCommands.ExactlyOneEach` | internal/docker/service.go:76-141 | after success every configured service has exactly one container, given at most one before |
| `ServiceCommands.StartedAsWanted` | internal/docker/service.go:76-141 | with the kinds named and not through the model's own decision function: after a successful start the container of a service runs with exactly one flag per configured setting, the wanted image and the default command where there are no settings, if it is new; or it is the one from before, which its kind allows to keep |
| `ServiceCommands.KeepableExactlyWhen` | internal/docker/service_valkey.go:29-38 | the kept ones, kind by kind: a database, Valkey or Memcached container iff its command has exactly one flag per setting (MySQL's with the default command dropped), RabbitMQ and OpenSearch iff the image is the wanted one, Blackfire and Tideways always |
| `ServiceCommands.KindsByType` | internal/docker/service.go:36-50 | which service types there are, and which kind each one is |
| `ServiceCommands.ConfiguredSettingsRun` | internal/docker/service_mysql.go:60-80 | and it was created, now or earlier, with exactly the configured settings, given that its container before was created from rendered settings of its family, which every start keeps, a failed one too, and that Valkey and Memcached settings are unambiguous |
| `ServiceCommands.RunsExactlyWhen` | internal/docker/service_mysql.go:71-73 | after success the container of a configured service runs iff it was created now or was running before |
| `ServiceCommands.ImageRunsExactlyWhen` | internal/docker/service_mysql.go:71-73 | after success it has the wanted image iff it was created now or had it before |
| `ServiceCommands.AlwaysRunsExactlyWhen` | internal/docker/service_mysql.go:64-80 | seen before the start: every success leaves the service running iff there is no stopped container that may be kept |
| `ServiceCommands.StoppedServiceStaysStopped` | internal/docker/service_mysql.go:71-73 | the input: a stopped MySQL container without settings is kept stopped and the start succeeds |
| `ServiceCommands.OldImageStays` | internal/docker/service_mysql.go:71-73 | the input: a MySQL 8.0 container without settings is kept for MySQL 8.4 |
| `ServiceCommands.KeptByImageExactlyWhen` | internal/docker/service_opensearch.go:50-58 | RabbitMQ and OpenSearch: after success the container is still there iff it had the wanted image |
| `ServiceCommands.AnyContainerIsKept` | internal/docker/service_blackfire.go:21-23 | Blackfire and Tideways: with a container there, a start succeeds exactly by leaving it alone, whatever it was created for |
| `ServiceCommands.ProjectListServices` | internal/docker/service.go:281-318 | one entry per configured or running service: existing iff it has a container, dangling iff it is not configured |
| `ServiceCommands.NothingMissingAfterStart` | internal/docker/service.go:255-273 | a listing after a successful start reports none as not deployed, and dangling ones exactly when there are containers of unconfigured services |
| `ServiceCommands.ProjectDeleteService` | internal/docker/service.go:320-359 | every state is safe; only containers and volumes of this service disappear, all of them on success; it succeeds iff no call failed and all its containers ran |
| `ServiceCommands.CanDeleteExactlyWhen` | internal/docker/service.go:332-340 | Docker accepts the kills and removals in turn iff every container of the service runs |
| `Settings.AppendSettings` | internal/docker/service_mysql.go:60-62 | one flag per setting, in the service's way of writing, in an order Go leaves open |
| `Settings.RenderedMeaning` | internal/docker/service_valkey.go:31-33 | a command is a rendering of the settings iff it holds exactly one flag for each, after the name of the server for Postgres and Valkey, and nothing else; the other services have none |
| `Settings.AcceptedKeys` | internal/docker/service_postgres.go:16-32 | the keys MySQL, MariaDB and Postgres accept |
| `Settings.SupportedKeysArePlain` | internal/docker/service_mysql.go:95-103 | no key a database accepts holds an equals sign |
| `Settings.RenderingReadsBack` | internal/docker/service_postgres.go:65-67 | the settings can be read back from a rendering, whatever the order |
| `Settings.KeptContainerHasTheSettings` | internal/docker/service_mysql.go:60-73 | skip soundness: a kept database container was started with the settings asked for now, even with the default command dropped and even when the kind of database changed in between |
| `Settings.SameFlagsExactlyWhen` | internal/docker/service_memcached.go:25-32 | for every service that compares commands: a container of the same service is kept iff the flags are equal and, for MariaDB and Memcached, there is at least one |
| `Settings.KeptExactlyWhen` | internal/docker/service_mariadb.go:60-67 | for a database this means the same settings in the same visiting order and, for MariaDB, at least one |
| `Ambiguity.SkipIsSoundExactlyWhen` | internal/docker/service_valkey.go:29-38 | skip soundness for every service that compares commands: no container of it with other settings is ever kept iff, wherever a written setting could be split, the part before is a key too, and a longer one is written alike |
| `Ambiguity.OnlyWrittenSoExactlyWhen` | internal/docker/service_valkey.go:31-33 | no other settings are written as the same flags, in any orders, iff the settings are unambiguous in this sense |
| `Ambiguity.ValkeyMistakesSettings` | internal/docker/service_valkey.go:31-38 | the input: `a=b: c` and `a: b=c` are written alike, and the container is kept |
| `Mistakes.OnlyTheseAreMistaken` | internal/docker/service_memcached.go:25-32 | a service changed into one of another family, both comparing commands, keeps a container with a command of its own only between Memcached and MySQL or MariaDB |
| `Mistakes.MemcachedIsMistakenExactlyWhen` | internal/docker/service_mysql.go:60-73 | MySQL and MariaDB keep a container that some Memcached settings gave its command iff there are settings and every value holds a space |
| `Mistakes.DatabaseIsMistakenExactlyWhen` | internal/docker/service_memcached.go:25-32 | Memcached keeps a container that some accepted database settings gave its command iff there are settings and their keys are written like the beginnings of different database settings |
| `Env.Resolution.GetEnvironmentVariables` | internal/docker/env.go:17-63 | whatever the iteration orders, the in-place resolution yields the fixed right-biased merge, and the store holds what was generated; it fails iff something that is needed cannot be evaluated or read, or the store fails |
| `Env.Resolution.ResolveFromExpression` | internal/docker/env.go:98-119 | fails iff an expression that is needed fails, otherwise adds its layer |
| `Env.Resolution.ResolveFromEnv` | internal/docker/env.go:30-44 | adds the non-empty variables of the process under their configured names |
| `Env.FromEnvIsReadAs` | internal/docker/env.go:30-44 | a variable is read from the process under the name it is configured with, or its own |
| `Env.Resolution.ResolveFromStored` | internal/docker/env.go:65-81 | adds the stored secrets that are present |
| `Env.FromStoredIsReadAs` | internal/docker/env.go:65-81 | and a stored secret in the same way |
| `Env.Resolution.ResolveFromFiles` | internal/docker/env.go:121-141 | adds the files in order, a later one wins; a missing file is no error, an unreadable one is |
| `Env.Resolution.EvaluateInitial` | internal/docker/env.go:143-168 | a secret some layer set takes the stored value or the empty string, every other one is generated and remembered; it fails iff one of those cannot be |
| `Env.Resolution.ResolveInitial` | internal/docker/env.go:143-176 | the store is written iff something was generated; it fails iff generating or writing does |
| `Env.Resolution.ResolveOnePassword` | internal/docker/env.go:83-96 | adds the items in order, a later one wins; it fails iff one cannot be read |
| `InitialSecrets.TopmostLayerDecides` | internal/docker/env.go:17-63 | the merge gives each variable the value of the topmost layer that sets it |
| `InitialSecrets.InjectedIsStored` | internal/docker/env.go:143-176 | after success the injected and the stored value of every initial secret are the same, absent counting as empty |
| `InitialSecrets.KeptExactlyWhenAlsoSet` | internal/docker/env.go:147 | a stored secret keeps its value whatever its expression yields iff another layer also sets the variable |
| `InitialSecrets.ExampleRegenerates` | README.md:55 | with the configuration of the README two deployments in a row inject two different values |
| `InitialSecrets.GeneratedOnce` | internal/docker/env.go:65-81 | a secret also listed under its own name and set by no other layer has the same value in all successful deployments after the first, over any series with failures and changing configurations |
| `InitialSecrets.StoredSecretArrives` | internal/docker/env.go:65-81 | a stored secret that is listed and overridden nowhere arrives unchanged |
| `InitialSecrets.SecretRoundTrip` | cmd/secret_set.go:48-59 | and so does a value given to `secret set` |
| `InitialSecrets.EnvironmentIsUnique` | internal/docker/env.go:83-96 | with clash-free items no iteration order shows in the environment |
| `Secrets.ListProjectSecrets` | internal/docker/secrets.go:9-29 | the map stored under the key `tanjun_`, project, `_secrets`, empty when nothing is stored; unless the connection or the database fails or the text cannot be decoded; the table is not changed |
| `Secrets.SetProjectSecrets` | internal/docker/secrets.go:31-45 | the map can be read back under this key; what every other project has under its own, and all other keys, are untouched; it succeeds iff neither connection nor database fails |
| `Secrets.SecretSet` | cmd/secret_set.go:42-62 | all assignments or none: it succeeds iff no argument is malformed, what was stored can be read, and neither connection nor database fails; one malformed argument writes nothing; the secrets of all other projects stay as they are |
| `Secrets.SecretsStayApart` | internal/docker/secrets.go:12-40 | a command for one project changes neither the entry nor the secrets of another |
| `Secrets.AssignedExactlyWhen` | cmd/secret_set.go:48-56 | a batch is accepted iff every argument has an equals sign |
| `Secrets.AssignmentArrives` | cmd/secret_set.go:48-56 | k=v stores v, with any number of equals signs in it, unless assigned again later |
| `Kv.KvClient.Scan` | internal/docker/kv.go:34-44 | in every interleaving of server, scanner and pipe the response read is that of this request, and nothing is left that a fresh scanner would miss |
| `Kv.KvClient.Turn` | kv-store/cmd/main.go:32-78 | whatever moves next, at most one line is under way and the table is that before the request or the one after it; something always moves and it gets less |
| `Kv.KvClient.RoundTrip` | internal/docker/kv.go:23-115 | one exchange per call; a reply without an error iff neither connection nor database failed; a write error or a broken connection leaves the request executed or not, and the connection unusable |
| `Kv.KvClient.Hangup` | kv-store/cmd/main.go:32-78 | whatever part of the line has arrived: a cut-off request changes nothing, a whole one may have been executed |
| `Kv.KvClient.Serve` | kv-store/cmd/main.go:32-78 | one line in, one line out; an error leaves the table as it was |
| `Kv.KvClient.Get` | internal/docker/kv.go:23-53 | the table's value, empty when absent; nothing changes; it fails iff connection or database does |
| `Kv.KvClient.Set` | internal/docker/kv.go:86-115 | success, without a failure of connection or database, means stored; failure means stored or not, never something else |
| `Kv.KvClient.Delete` | internal/docker/kv.go:55-84 | success, without a failure of connection or database, means gone |
| `Kv.ReplayIsLastWrite` | kv-store/cmd/main.go:39-76 | the table after any history holds for each key what was written last, or the empty string |
| `Kv.GetsReadTheLastWrite` | internal/docker/kv.go:23-115 | the k-th reply answers the k-th request: a read yields what the exchanges before it wrote last |
| `OnePassword.ResolveSecrets` | internal/onepassword/secret.go:27-48 | filter, omission and in-place renaming for some visiting order |
| `OnePassword.CollectedMeaning` | internal/onepassword/secret.go:27-37 | the last field of a name with a value decides its value, and none that is to be omitted is left |
| `OnePassword.RemapConfluent` | internal/onepassword/secret.go:38-46 | with distinct sources that are no targets every order gives the simultaneous renaming |
| `OnePassword.ConfluentExactlyWhenClashFree` | internal/onepassword/secret.go:38-46 | the order does not matter for any fields iff no two entries clash |
| `Hijack.InvariantStep` | cmd/hijack.go:40-179 | every step of main, output and input goroutine, once and cancellation keeps the invariant |
| `Hijack.RestoredOnceBeforeReturn` | cmd/hijack.go:46-72 | the terminal is restored at most once, and before `stream` returns after a successful setup |
| `Hijack.RestoredBeforeReported` | cmd/hijack.go:76-179 | in every state of every run: both ends are raw iff the input is on a terminal and it has not been restored, only an input that is there is copied, output is copied iff there is an output or error stream, and nobody reports the end of a stream on a terminal before it has been restored |
| `Hijack.InputSignalsOnce` | cmd/hijack.go:144-179 | the input side signals exactly one of done and detached |
| `Hijack.NilMeansCopied` | cmd/hijack.go:51-72 | a nil result with an output stream means the output was copied to its end |
| `Hijack.ResultMeaning` | cmd/hijack.go:51-72 | output that was handed over gives nil at its end and an output error otherwise, and nothing else gives an output error; a context error means cancelled, a detach error detached |
| `Hijack.DetachMeansEscape` | cmd/hijack.go:67-69 | a detach result means the escape keys were read through a raw terminal |
| `Hijack.CancelledStreamReturns` | cmd/hijack.go:51-72 | in every run, whatever the other parties do, at most five steps of main and the once follow the start, and until `stream` has returned a cancelled one has such a step to take |
| `Hijack.CloserStepsAreFew` | cmd/hijack.go:51-72 | each of these steps decreases a measure of at most five that no step of anybody increases |
| `Hijack.CancelledMoves` | cmd/hijack.go:51-72 | the step that is there waits for neither connection nor user |
| `Hijack.BlockedExactlyWhen` | cmd/hijack.go:51-72 | main and the once are blocked iff no stream has ended, nobody has cancelled or detached and no terminal is to be restored: they never wait for each other |
| `Hijack.RawAfterSetupErrorExactlyWhen` | cmd/hijack.go:181-186 | in every run, after a setup error the input is raw iff its half succeeded and the output half failed, and the output never is |
| `Hijack.FailedSetupMayLeaveInputRaw` | cmd/hijack.go:181-186 | such a run |
| `Names.NameRoundTrip` | internal/docker/deploy.go:44-46 | the project can be read back from every container or volume name made for it |
| `Names.NamesTellApart` | internal/docker/deploy.go:218 | two containers or volumes of one kind in one project have the same name only if worker, mount, service, replica and suffix are the same: a redeploy with another random number finds its names free |
| `Names.AcceptedExactlyWhen` | internal/config/config.go:16 | a project name is accepted iff it matches the pattern, read part by part |
| `Names.NamesSeparateProjects` | internal/config/config.go:16 | different accepted project names never yield the same name, whatever the kinds, suffixes, services and mounts |
| `Names.NamesMayMeetInsideAProject` | internal/docker/service.go:144 | inside one project a service can be called like an application container |
| `Config.AcceptedExactlyWhen` | internal/config/config.go:219-241 | a configuration is accepted iff its name matches the pattern and it names an image; the server and proxy host it needs as well are not part of the model |
| `Config.AcceptedProjectsStayApart` | internal/config/config.go:219-241 | two validated configurations with different names share no container and no volume name |
| `Config.DefaultsKeepAVersion` | internal/config/config.go:290-292 | only a missing number is filled in, with 5; at least one version is kept exactly when no negative number is configured |

## Left out

- Docker, SSH, TLS, SQLite, YAML, JSON and the expression language: foreign code. Docker is the class `Host`, JSON an abstract codec with a round-trip law, an expression a partial function that may answer differently in two runs.
- Concurrent commands: two deployments of one project, or two writers of one secrets key, at the same time. The code takes no lock.
- Containers with automatic removal: they may vanish right after their start or stay, not at an arbitrary later time.
- Entrypoints, restart policies, network settings and targets of mounts: a container has name, labels, image, command, environment, mounted volumes and running flag. Where the source sets an entrypoint the hook's words are its command.
- The part of the proxy command line other than project and target, and `findPortMapping`: it turns a port number into one character and iterates a map, so nothing hard holds of it.
- The environment of service containers: an arbitrary set of entries. When resolving it fails the source dereferences nil (`internal/docker/service.go:148-150`); that run is excluded.
- The dependence of expressions on the attached service information and on the stored secrets: an expression of a run is an arbitrary partial function.
- `ghcr.io/tideways/daemon` is written with the `:latest` it stands for. The source looks for the untagged name among the tagged ones, so it pulls this image again for each new container; that a pull may move a reference to another image is not modelled.
- `ServiceCommands.ConfiguredSettingsRun`: speaks of services that stay what they are, or change from one database to another; what can happen to the others is in `Mistakes` and `ServiceCommands.AnyContainerIsKept`.
- `Hijack.InvariantStep`: the goroutines are a transition system over their channel operations, not code over channels; the once blocks a second caller until the first has finished.
- `VersionCommands.SortNewestFirst`: the sort is an insertion sort; the source's sort is not stable, so among equal times another order is possible. `Versions.ListingUnique` covers distinct times.
- Images without a reference crash the listing in the source (`internal/docker/version.go:53`) only when the filter returns them; the filter is modelled as returning images with a reference of the repository.
- Docker may show an image id instead of a reference for a container whose reference has moved on; the model shows the reference the container was created with.
- `Kv.KvClient.RoundTrip`: a connection is not used again after a write error; the commands of the source give up then.
- The 64 KiB limit of the line scanner, and the nil error dereferenced at `kv-store/cmd/main.go:60` when a query fails.
- `slug.Make`: names are those it leaves unchanged.
- `DestroyProject`: it removes containers before the route, so it is outside the zero-downtime invariant by design.
- The scheduler's run path: `scheduler/types.go:89` asserts a type that an entry added at `scheduler/cmd_server.go:67` does not have.
- Progress output, tables, the init form, build packs, copy, proxies and other commands: user interface and plumbing.

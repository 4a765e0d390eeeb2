/** The steps of a deployment that handle the running project: stopping its workers and cronjobs,
    launching the new application container, and switching the route or restoring the old state. */
module DeploySteps {
  import opened Text
  import opened Names
  import opened Docker
  import opened Fleet
  import opened Safety
  import opened Handover

  // Draining.

  /** The listings taken before draining. */
  datatype Listings = Listings(workers: set<nat>, cronjobs: set<nat>)

  method DrainSides(host: Host, project: string) returns (listings: Option<Listings>, ok: bool)
    requires host.Valid()
    modifies host
    ensures host.Valid() && old(host.trace) <= host.trace && host.faults >= old(host.faults)
    ensures OnlyStopped(old(host.w), host.w, Sides(old(host.w), project))
    ensures OnlyStoppedSince(host.trace, |old(host.trace)|, old(host.w), Sides(old(host.w), project))
    ensures listings.None? ==> !ok && host.w == old(host.w)
    ensures listings.Some? ==> listings.value == Listings(Workers(old(host.w), project), Cronjobs(old(host.w), project))
    ensures ok ==> AllRunning(host.w, Sides(old(host.w), project), false)
    ensures ok <==> host.faults == old(host.faults)
  {
    hide OnlyStopped, OnlyStarted, OnlyRemoved, WellFormed, Listed;
    NothingChanged(host.w, Sides(host.w, project));
    var workers := host.ContainerList(project, WorkerLabel, None);
    if workers.None? {
      return None, false;
    }
    var cronjobs := host.ContainerList(project, CronjobLabel, None);
    if cronjobs.None? {
      return None, false;
    }
    listings, ok := Some(Listings(workers.value, cronjobs.value)), true;
    ListedExist(host.w, project, WorkerLabel, None);
    ListedExist(host.w, project, CronjobLabel, None);
    if workers.value + cronjobs.value != {} {
      ok := StopContainers(host, workers.value + cronjobs.value);
    }
  }

  // Launching.

  function AppBlueprint(spec: AppSpec, random: nat): Blueprint {
    Blueprint(Name(spec.project, AppContainer(random)), AppLabels(spec.project), spec.image, [], spec.env,
              AppMounts(spec))
  }

  /** The container is an application container with the deployed image, environment and volumes. */
  ghost predicate IsDeployedApp(c: Container, spec: AppSpec) {
    && c.labels == AppLabels(spec.project) && c.image == spec.image && c.env == spec.env
    && c.mounts == MountedVolumes(spec)
  }

  /** Only the new application container was added. */
  ghost predicate IsLaunched(w: World, after: World, spec: AppSpec) {
    exists random :: IsAddition(w, after, AppBlueprint(spec, random))
  }

  lemma AppLabelsFit(project: string)
    ensures OneRole(AppLabels(project)) && OfProject(AppLabels(project), project)
    ensures AppLabel in AppLabels(project) && AppLabels(project)[AppLabel] == "true"
    ensures WorkerLabel !in AppLabels(project) && CronjobLabel !in AppLabels(project)
              && ServiceLabel !in AppLabels(project)
  {
  }

  lemma LaunchedRoles(w: World, after: World, spec: AppSpec)
    requires WellFormed(w) && IsLaunched(w, after, spec)
    ensures w.nextId !in w.containers && w.nextId in after.containers && IsDeployedApp(after.containers[w.nextId], spec)
    ensures Apps(after, spec.project) == Apps(w, spec.project) + {w.nextId}
    ensures Workers(after, spec.project) == Workers(w, spec.project)
    ensures Cronjobs(after, spec.project) == Cronjobs(w, spec.project)
    ensures Services(after, spec.project) == Services(w, spec.project)
    ensures forall id | id in w.containers :: id in after.containers && after.containers[id] == w.containers[id]
    ensures after.routes == w.routes && after.images == w.images
    ensures forall v | v in w.volumes :: v in after.volumes && after.volumes[v] == w.volumes[v]
  {
    hide Listed, AppLabels, AppMounts, Name;
    AppLabelsFit(spec.project);
    AppMountsAre(spec);
    var random :| IsAddition(w, after, AppBlueprint(spec, random));
    AdditionRoles(w, after, AppBlueprint(spec, random), spec.project);
  }

  lemma LaunchedIsSafe(w: World, after: World, spec: AppSpec)
    requires WellFormed(w) && IsLaunched(w, after, spec)
    ensures Safe(w, after, spec.project)
  {
    hide AppLabels, AppMounts, Name;
    AppLabelsFit(spec.project);
  }

  ghost predicate LaunchedSince(trace: seq<World>, from: nat, w: World, spec: AppSpec) {
    forall k | from <= k < |trace| :: trace[k] == w || IsLaunched(w, trace[k], spec)
  }

  /** Creates, starts and inspects the new application container, called by the random number. */
  method LaunchApp(host: Host, spec: AppSpec, random: nat) returns (id: Option<nat>)
    requires host.Valid() && HasTag(host.w.images, spec.image)
    modifies host
    ensures host.Valid() && old(host.trace) <= host.trace && host.faults >= old(host.faults)
    ensures host.w == old(host.w) || IsLaunched(old(host.w), host.w, spec)
    ensures LaunchedSince(host.trace, |old(host.trace)|, old(host.w), spec)
    ensures id.Some? ==> id.value == old(host.w).nextId && IsLaunched(old(host.w), host.w, spec)
    ensures id.Some? ==> id.value in host.w.containers && host.w.containers[id.value].running
    ensures id.Some? ==> host.w.containers[id.value].name == "tanjun_" + spec.project + "_app_" + Decimal(random)
    ensures id.Some? <==> host.faults == old(host.faults)
  {
    hide WellFormed, OneRole, AppLabels, AppMounts, Name, HasTag;
    ghost var w := host.w;
    AppNameFits(spec, random);
    var b := AppBlueprint(spec, random);
    AppLabelsFit(spec.project);
    id := host.ContainerCreate(b);
    if id.None? {
      return;
    }
    CreatedIsAddition(w, b, host.imageCommand(b.image));
    ghost var created := host.w;
    var started := host.ContainerStart(id.value);
    if !started {
      return None;
    }
    StartedIsAddition(w, created, b);
    var inspected := host.ContainerInspect(id.value);
    if inspected.None? {
      id := None;
    }
  }

  lemma AppNameFits(spec: AppSpec, random: nat)
    ensures AppBlueprint(spec, random).name == "tanjun_" + spec.project + "_app_" + Decimal(random)
  {
    hide Decimal, AppLabels, AppMounts;
    JoinedName("tanjun_" + spec.project, Decimal(random));
  }

  lemma JoinedName(prefix: string, number: string)
    ensures prefix + "_" + ("app_" + number) == prefix + "_app_" + number
  {
    assert "_" + "app_" == "_app_";
    assert prefix + "_" + ("app_" + number) == prefix + ("_" + "app_") + number;
  }

  lemma StartedIsAddition(w: World, created: World, b: Blueprint)
    requires IsAddition(w, created, b)
    ensures IsAddition(w, SetRunning(created, w.nextId, true), b)
  {
  }

  // Routing.

  /** Routed when the proxy reported no error. */
  datatype Routing = Routed | Refused | Stuck

  /** Apart from the new container `id` every container is as it was; or `id` is gone, and nothing
      but the start of some containers has happened besides. */
  ghost predicate Restoring(w: World, v: World, id: nat, woken: set<nat>) {
    v.containers - {id} == w.containers - {id} || OnlyStarted(Removed(w, id), v, woken)
  }

  ghost predicate RestoringSince(trace: seq<World>, from: nat, w: World, id: nat, woken: set<nat>) {
    forall k | from <= k < |trace| :: Restoring(w, trace[k], id, woken)
  }

  /** The new container can take the traffic, and is not the one that carries it now. */
  ghost predicate CanTakeOver(w: World, project: string, id: nat, removal: set<nat>) {
    && id in w.containers && IsApp(w.containers[id], project) && w.containers[id].running
    && (project in w.routes ==> w.routes[project] != id) && id !in removal && Own(w, project, removal)
    && removal <= w.containers.Keys
  }

  lemma RoutedIsSafe(w: World, project: string, id: nat, removal: set<nat>)
    requires WellFormed(w) && CanTakeOver(w, project, id, removal)
    ensures Safe(w, w.(routes := w.routes[project := id]), project)
    ensures Restoring(w, w.(routes := w.routes[project := id]), id, removal)
  {
  }

  lemma RestoredIsSafe(w: World, v: World, project: string, id: nat, removal: set<nat>)
    requires WellFormed(w) && CanTakeOver(w, project, id, removal) && OnlyStarted(Removed(w, id), v, removal)
    ensures Safe(w, v, project) && Restoring(w, v, id, removal)
    ensures v.routes == w.routes && v.images == w.images && v.volumes == w.volumes
  {
    hide Listed;
    assert forall other | other in v.containers :: other in w.containers && other != id;
  }

  lemma KilledIsSafe(w: World, project: string, id: nat, removal: set<nat>)
    requires WellFormed(w) && CanTakeOver(w, project, id, removal)
    ensures var v := SetRunning(w, id, false); Safe(w, v, project) && Restoring(w, v, id, removal)
    ensures var v := Removed(SetRunning(w, id, false), id); Safe(w, v, project) && v == Removed(w, id)
    ensures Restoring(w, Removed(w, id), id, removal)
  {
    assert SetRunning(w, id, false).containers - {id} == w.containers - {id};
    assert Removed(SetRunning(w, id, false), id) == Removed(w, id);
    NothingChanged(Removed(w, id), removal);
  }

  /** Switches the route. When the proxy refuses and there was anything before, the new container is
      killed and removed and the old application and worker containers are started again. */
  method RouteOrRestore(host: Host, project: string, id: nat, removal: set<nat>)
      returns (r: Routing, ghost switched: bool)
    requires host.Valid() && CanTakeOver(host.w, project, id, removal)
    modifies host
    ensures Secure(host, old(host.w), old(host.trace), project) && host.faults >= old(host.faults)
    ensures RestoringSince(host.trace, |old(host.trace)|, old(host.w), id, removal)
    ensures Restoring(old(host.w), host.w, id, removal)
    ensures host.w.images == old(host.w).images && host.w.volumes == old(host.w).volumes
    ensures switched ==> r.Routed? && host.w == old(host.w).(routes := old(host.w).routes[project := id])
    ensures r.Routed? && !switched ==> host.w == old(host.w)
    ensures r.Routed? ==> host.faults == old(host.faults)
    ensures !r.Routed? ==> host.w.routes == old(host.w).routes
    ensures r.Refused? && removal == {} ==> host.w == old(host.w)
    ensures r.Refused? && removal != {} ==> OnlyStarted(Removed(old(host.w), id), host.w, removal)
    ensures r.Refused? && removal != {} ==> AllRunning(host.w, removal, true)
    ensures r.Stuck? ==> removal != {}
    ensures r.Refused? ==> host.faults == old(host.faults) + 1
    ensures r.Stuck? ==> host.faults > old(host.faults) + 1
  {
    hide Safe, WellFormed, OnlyStarted, Restoring, CanTakeOver;
    ghost var a := host.w;
    SafeReflexive(a, project);
    RoutedIsSafe(a, project, id, removal);
    NothingRestored(a, id, removal);
    IdIsKnown(a, project, id, removal);
    var routed;
    ghost var line;
    routed, switched, line := host.ProxyDeploy(project, id);
    if routed {
      return Routed, switched;
    }
    if removal == {} {
      return Refused, switched;
    }
    ghost var middle := host.trace;
    var restored := Restore(host, project, id, removal);
    SecureJoins(host, a, old(host.trace), a, middle, project);
    r := if restored then Refused else Stuck;
  }

  method Restore(host: Host, project: string, id: nat, removal: set<nat>) returns (ok: bool)
    requires host.Valid() && CanTakeOver(host.w, project, id, removal)
    modifies host
    ensures Secure(host, old(host.w), old(host.trace), project)
    ensures host.faults >= old(host.faults) && (ok <==> host.faults == old(host.faults))
    ensures RestoringSince(host.trace, |old(host.trace)|, old(host.w), id, removal)
    ensures Restoring(old(host.w), host.w, id, removal)
    ensures host.w.images == old(host.w).images && host.w.volumes == old(host.w).volumes
    ensures host.w.routes == old(host.w).routes
    ensures ok ==> OnlyStarted(Removed(old(host.w), id), host.w, removal) && AllRunning(host.w, removal, true)
  {
    hide Safe, WellFormed, OnlyStarted, Restoring, CanTakeOver;
    ghost var a := host.w;
    SafeReflexive(a, project);
    KilledIsSafe(a, project, id, removal);
    NothingRestored(a, id, removal);
    CanRestore(a, project, id, removal);
    ok := host.ContainerKill(id);
    if !ok {
      return;
    }
    ok := host.ContainerRemove(id, false);
    if !ok {
      return;
    }
    ghost var middle := host.trace;
    ok := StartContainers(host, removal);
    forall k | |middle| <= k < |host.trace|
      ensures Safe(a, host.trace[k], project) && Restoring(a, host.trace[k], id, removal)
    {
      RestoredIsSafe(a, host.trace[k], project, id, removal);
    }
    RestoredIsSafe(a, host.w, project, id, removal);
  }

  /** Docker refuses none of the calls that restore. */
  lemma CanRestore(w: World, project: string, id: nat, removal: set<nat>)
    requires CanTakeOver(w, project, id, removal)
    ensures id in w.containers && w.containers[id].running && removal <= Removed(w, id).containers.Keys
  {
  }

  lemma NothingRestored(w: World, id: nat, removal: set<nat>)
    ensures Restoring(w, w, id, removal)
  {
  }

  lemma IdIsKnown(w: World, project: string, id: nat, removal: set<nat>)
    requires WellFormed(w) && CanTakeOver(w, project, id, removal)
    ensures id < w.nextId
  {
  }
}

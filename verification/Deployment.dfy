/** `Deploy`: the whole protocol with its failure exits and its compensating path. */
module Deployment {
  import opened Text
  import opened Docker
  import opened Frames
  import opened Fleet
  import opened Config
  import opened Kv
  import opened Secrets
  import opened Safety
  import opened Handover
  import opened DeploySteps
  import opened DeployPrepare
  import opened DeployFinish
  import opened WorkerStart
  import opened CronjobStart
  import opened HookRun
  import opened ServiceStart
  import opened Versions
  import opened VersionCommands
  import Rollbacks
  import opened DeployFacts
  import opened Health
  import Env

  /** How a deployment ends: the error exits in the order they can be taken, then success. */
  datatype End =
    | NotStarted   // before any running container of the application, worker or cronjob was touched
    | NotDrained   // a worker or cronjob could not be stopped
    | HookFailed
    | NotCreated   // the new application container could not be created, started or inspected
    | NotRouted    // the proxy refused; what was there before is running again
    | NotRestored  // the proxy refused, and restoring failed as well
    | Unfinished   // traffic goes to the new container, replacing the rest failed
    | NotPurged    // everything is replaced, draining the images failed or crashed
    | Deployed

  datatype Preparation = GaveUp(end: End) | Going(spec: AppSpec, before: set<nat>, listings: Listings)

  /** What is known about the host when a deployment gives up before it created anything. */
  ghost predicate GivenUp(a: World, w: World, project: string, end: End) {
    match end
    case NotStarted => NotYetTouched(a, w, project)
    case NotDrained => AppStays(a, w, project) && AssetsKept(a, w)
    case HookFailed => SidesDrained(a, w, project)
    case _ => false
  }

  lemma DrainIsSound(host: Host, a: World, was: seq<World>, w: World, middle: seq<World>, project: string)
    requires SoundSoFar(w, middle, a, was, project) && NotYetTouched(a, w, project) && WellFormed(w)
    requires host.Valid() && middle <= host.trace && OnlyStopped(w, host.w, Sides(w, project))
    requires OnlyStoppedSince(host.trace, |middle|, w, Sides(w, project))
    ensures Sound(host, a, was, project) && Exclusive(a, host.w, project) && SlicesStay(w, host.w, project)
    ensures AppStays(a, host.w, project) && AssetsKept(a, host.w) && host.w.images == w.images
    ensures AllRunning(host.w, Sides(w, project), false) ==> SidesDrained(a, host.w, project)
  {
    hide Safe, WellFormed, Within, OnlyStopped, Harmless, Listed, SlicesStay, AssetsKept;
    var sides := Sides(w, project);
    OnlyStoppedWithin(w, host.w, sides, project);
    OnlyStoppedSinceStays(host.trace, |middle|, w, sides, project);
    SidesAreHarmless(w, project);
    SoundProgresses(host, a, was, w, middle, project, sides, {});
    StoppingKeepsApp(a, w, host.w, project);
    StoppingKeepsServices(w, host.w, project);
  }

  lemma StoppingKeepsServices(w: World, v: World, project: string)
    requires WellFormed(w) && OnlyStopped(w, v, Sides(w, project))
    ensures SlicesStay(w, v, project)
  {
    hide Versions.UniqueTags;
    OnlyStoppedWithin(w, v, Sides(w, project), project);
    OnlyRunningRoles(w, v, Sides(w, project), project);
    SidesAreNoServices(w, project);
    WithinKeepsSlices(w, v, project, Sides(w, project), {});
  }

  lemma SidesAreNoServices(w: World, project: string)
    requires WellFormed(w)
    ensures Sides(w, project) !! Services(w, project)
  {
  }

  lemma HookIsSound(host: Host, a: World, was: seq<World>, w: World, middle: seq<World>, project: string)
    requires SoundSoFar(w, middle, a, was, project) && SidesDrained(a, w, project)
    requires Progress(host, w, middle, project, {}, {}) && SameRoles(w, host.w, project)
    ensures Sound(host, a, was, project) && Exclusive(a, host.w, project) && SlicesStay(w, host.w, project)
    ensures SidesDrained(a, host.w, project)
  {
    hide Safe, WellFormed, Within, Listed, SlicesStay, AssetsKept, SidesDrained;
    DrainedIsExclusive(a, w, project);
    SoundProgresses(host, a, was, w, middle, project, {}, {});
    DrainedOutlives(a, w, host.w, project);
    WithinKeepsSlices(w, host.w, project, {}, {});
  }

  /** The deploy hook ran in a new container, if there is one, and when it did the old workers and cronjobs
      were stopped and there was no new application container yet. */
  ghost predicate HookRanDrained(trace: seq<World>, from: nat, a: World, spec: AppSpec, hook: string,
                                 exitCode: nat -> int) {
    hook == "" || exists k, id :: from <= k < |trace| && a.nextId <= id && exitCode(id) == 0
                                && RunsHook(trace[k], id, spec, hook)
                                && Stopped(trace[k], Sides(a, spec.project))
                                && Apps(trace[k], spec.project) <= Apps(a, spec.project)
  }

  lemma HookRunsDrained(host: Host, a: World, w: World, middle: seq<World>, spec: AppSpec, hook: string, from: nat)
    requires WellFormed(a) && a.nextId <= w.nextId && SidesDrained(a, w, spec.project) && from <= |middle|
    requires Progress(host, w, middle, spec.project, {}, {})
    requires HookExited(host.trace, |middle|, w.nextId, spec, hook, host.exitCode, true)
    ensures HookRanDrained(host.trace, from, a, spec, hook, host.exitCode)
  {
    hide Within, WellFormed, Listed, AssetsKept, RunsHook, Unchanged;
    var k, id :| |middle| <= k < |host.trace| && w.nextId <= id && RunsHook(host.trace[k], id, spec, hook)
      && host.exitCode(id) == 0;
    SidesAreOld(a, spec.project);
    WithinAddsNoApp(w, host.trace[k], spec.project, {}, {});
    WithinStaysStopped(w, host.trace[k], spec.project, {}, {}, Sides(a, spec.project));
  }

  lemma HookStillRan(was: seq<World>, now: seq<World>, from: nat, earlier: nat, a: World, spec: AppSpec, hook: string,
                     exitCode: nat -> int)
    requires was <= now && earlier <= from && HookRanDrained(was, from, a, spec, hook, exitCode)
    ensures HookRanDrained(now, earlier, a, spec, hook, exitCode)
  {
    hide RunsHook, Stopped, Listed;
    if hook != "" {
      var k, id :| from <= k < |was| && a.nextId <= id && exitCode(id) == 0 && RunsHook(was[k], id, spec, hook)
                   && Stopped(was[k], Sides(a, spec.project)) && Apps(was[k], spec.project) <= Apps(a, spec.project);
      assert now[k] == was[k];
    }
  }

  /** Drains the workers and cronjobs of a prepared deployment and runs the deploy hook. */
  method StopOld(host: Host, spec: AppSpec, before: set<nat>, hook: string, ghost a: World, ghost was: seq<World>)
      returns (r: Preparation)
    requires Sound(host, a, was, spec.project) && NotYetTouched(a, host.w, spec.project)
               && before == Apps(host.w, spec.project)
    requires HasTag(host.w.images, spec.image)
    modifies host
    ensures Sound(host, a, was, spec.project) && Exclusive(a, host.w, spec.project)
    ensures host.faults >= old(host.faults) && SlicesStay(old(host.w), host.w, spec.project)
    ensures r.GaveUp? ==> GivenUp(a, host.w, spec.project, r.end)
    ensures r.Going? ==> r.spec == spec && SidesDrained(a, host.w, spec.project)
    ensures host.w.images == old(host.w).images
    ensures r.Going? ==> r.before == Apps(a, spec.project)
    ensures r.Going? <==> host.faults == old(host.faults)
    ensures r.Going? ==> HookRanDrained(host.trace, |was|, a, spec, hook, host.exitCode)
    ensures r.Going? ==> r.listings == Listings(Workers(a, spec.project), Cronjobs(a, spec.project))
  {
    hide Sound, Exclusive, WellFormed, Within, Stays, Listed, SlicesStay, SidesDrained, HasTag, OnlyStopped,
         AssetsKept, Unchanged, HookExited, RunsHook;
    var p := spec.project;
    ghost var w, middle := host.w, host.trace;
    SoundIsSoFar(host, a, was, p);
    var listings, ok := DrainSides(host, p);
    DrainIsSound(host, a, was, w, middle, p);
    if listings.None? {
      return GaveUp(NotStarted);
    }
    if !ok {
      return GaveUp(NotDrained);
    }
    if hook != "" {
      ghost var v := host.w;
      middle := host.trace;
      SoundIsSoFar(host, a, was, p);
      var end := RunHookInContainer(host, spec, hook);
      HookIsSound(host, a, was, v, middle, p);
      SlicesStayTwice(w, v, host.w, p);
      if !end.Passed? {
        return GaveUp(HookFailed);
      }
      HookRunsDrained(host, a, v, middle, spec, hook, |was|);
    }
    r := Going(spec, before, listings.value);
  }

  // Launching and routing.

  /** The new container runs the deployed image with the deployed environment. */
  ghost predicate NewRuns(w: World, spec: AppSpec, id: nat) {
    id in w.containers && IsDeployedApp(w.containers[id], spec) && w.containers[id].running
  }

  /** And it gets the traffic if the proxy has switched; otherwise the routes are the old ones. */
  ghost predicate Leads(a: World, w: World, spec: AppSpec, id: nat, switched: bool) {
    && NewRuns(w, spec, id) && a.nextId <= id
    && if switched then spec.project in w.routes && w.routes[spec.project] == id else w.routes == a.routes
  }

  /** The proxy has reported no error; the old containers are still there, workers and cronjobs stopped. */
  ghost predicate TakenOver(a: World, w: World, spec: AppSpec, id: nat, switched: bool) {
    && id !in a.containers && Leads(a, w, spec, id, switched)
    && Apps(w, spec.project) == Apps(a, spec.project) + {id}
    && Workers(w, spec.project) == Workers(a, spec.project) && Cronjobs(w, spec.project) == Cronjobs(a, spec.project)
    && AllRunning(w, Sides(a, spec.project), false) && AssetsKept(a, w)
  }

  ghost predicate NotTakenOver(a: World, w: World, spec: AppSpec, id: nat, end: End) {
    match end
    case NotCreated => SidesDrained(a, w, spec.project) || exists other :: Launched(a, w, spec, other)
    case NotRouted =>
      if Removal(a, spec.project) == {} then Launched(a, w, spec, id) && w.containers[id].running
      else Compensated(a, w, spec.project)
    case NotRestored => Removal(a, spec.project) != {} && w.routes == a.routes && HalfRestored(a, w, spec, id)
    case _ => false
  }

  /** Restoring got stuck: the new container is still there with the old workers and cronjobs stopped, or
      it is gone and the cronjobs are stopped. */
  ghost predicate HalfRestored(a: World, w: World, spec: AppSpec, id: nat) {
    if id in w.containers then
      && Apps(w, spec.project) == Apps(a, spec.project) + {id}
      && Workers(w, spec.project) == Workers(a, spec.project) && Cronjobs(w, spec.project) == Cronjobs(a, spec.project)
      && AllRunning(w, Sides(a, spec.project), false)
    else
      RolesStay(a, w, spec.project) && AllRunning(w, Cronjobs(a, spec.project), false)
  }

  lemma RestoringIsHalf(a: World, w: World, v: World, spec: AppSpec, id: nat)
    requires WellFormed(a) && Launched(a, w, spec, id) && Restoring(w, v, id, Removal(a, spec.project))
    requires Apart(w, v, spec.project)
    ensures HalfRestored(a, v, spec, id)
  {
    hide HalfRestored, Launched, WellFormed, OnlyStarted;
    if v.containers - {id} == w.containers - {id} {
      HalfWhenOneApart(a, w, v, spec, id);
    } else {
      HalfWhenGone(a, w, v, spec, id);
    }
  }

  lemma HalfWhenOneApart(a: World, w: World, v: World, spec: AppSpec, id: nat)
    requires WellFormed(a) && Launched(a, w, spec, id) && v.containers - {id} == w.containers - {id}
    requires Apart(w, v, spec.project)
    ensures HalfRestored(a, v, spec, id)
  {
    hide UniqueTags, ImagesGrow, IsDeployedApp, Listed;
    AppsExist(a, spec.project);
    forall other | other != id
      ensures other in v.containers <==> other in w.containers
      ensures other in v.containers ==> v.containers[other] == w.containers[other]
    {
      assert other in v.containers - {id} <==> other in w.containers - {id};
      assert other in v.containers ==> (v.containers - {id})[other] == (w.containers - {id})[other];
    }
    OneApartRoles(w, v, spec.project, id);
  }

  lemma HalfWhenGone(a: World, w: World, v: World, spec: AppSpec, id: nat)
    requires WellFormed(a) && Launched(a, w, spec, id) && OnlyStarted(Removed(w, id), v, Removal(a, spec.project))
    ensures HalfRestored(a, v, spec, id)
  {
    hide UniqueTags, ImagesGrow, IsDeployedApp, Listed;
    CronjobsApart(a, spec.project);
    RestoredRoles(w, v, spec.project, id, Removal(a, spec.project));
    forall other | other in Cronjobs(a, spec.project) ensures other in v.containers && !v.containers[other].running {
      assert other in Sides(a, spec.project);
      assert other in Removed(w, id).containers;
    }
  }

  lemma OneApartRoles(w: World, v: World, project: string, id: nat)
    requires forall other | other != id :: other in v.containers <==> other in w.containers
    requires forall other | other != id && other in v.containers :: v.containers[other] == w.containers[other]
    requires id in w.containers && (id in v.containers ==> v.containers[id].labels == w.containers[id].labels)
    ensures id in v.containers ==> SameRoles(w, v, project)
    ensures id !in v.containers ==> Apps(v, project) == Apps(w, project) - {id}
    ensures id !in v.containers ==> Workers(v, project) == Workers(w, project) - {id}
    ensures id !in v.containers ==> Cronjobs(v, project) == Cronjobs(w, project) - {id}
  {
  }

  lemma LaunchIsSound(host: Host, a: World, was: seq<World>, w: World, middle: seq<World>, spec: AppSpec)
    requires SoundSoFar(w, middle, a, was, spec.project) && SidesDrained(a, w, spec.project)
    requires WellFormed(w) && a.nextId <= w.nextId
    requires host.Valid() && middle <= host.trace && (host.w == w || IsLaunched(w, host.w, spec))
    requires LaunchedSince(host.trace, |middle|, w, spec)
    ensures Sound(host, a, was, spec.project) && Exclusive(a, host.w, spec.project)
    ensures SlicesStay(w, host.w, spec.project)
    ensures host.w == w || Launched(a, host.w, spec, w.nextId)
  {
    hide Safe, WellFormed, IsLaunched, Exclusive, SidesDrained, Launched, SlicesStay;
    var p := spec.project;
    SafeReflexive(w, p);
    DrainedIsExclusive(a, w, p);
    SlicesStayReflexive(w, p);
    forall k | |middle| <= k < |host.trace| ensures Safe(w, host.trace[k], p) && Exclusive(a, host.trace[k], p) {
      if host.trace[k] != w {
        LaunchedIsSafe(w, host.trace[k], spec);
        LaunchAfterDrain(a, w, host.trace[k], spec);
      }
    }
    if host.w != w {
      LaunchedIsSafe(w, host.w, spec);
      LaunchAfterDrain(a, w, host.w, spec);
      LaunchKeepsSlices(w, host.w, spec);
    }
    SoundJoins(host, a, was, w, middle, p);
  }

  lemma SlicesStayReflexive(w: World, project: string)
    ensures SlicesStay(w, w, project)
  {
  }

  lemma RouteIsSound(host: Host, a: World, was: seq<World>, w: World, middle: seq<World>, spec: AppSpec, id: nat)
    requires SoundSoFar(w, middle, a, was, spec.project) && Launched(a, w, spec, id)
    requires WellFormed(w) && a.nextId <= id && w.containers[id].running
    requires Secure(host, w, middle, spec.project)
    requires RestoringSince(host.trace, |middle|, w, id, Removal(a, spec.project))
    requires Restoring(w, host.w, id, Removal(a, spec.project))
    ensures Sound(host, a, was, spec.project) && Exclusive(a, host.w, spec.project)
    ensures SlicesStay(w, host.w, spec.project) && HalfRestored(a, host.w, spec, id)
  {
    hide Apart, WellFormed, Restoring, Exclusive, Launched, SlicesStay, CanTakeOver, Listed, Serving, HalfRestored;
    var p := spec.project;
    SecureParts(host, w, middle, p);
    RestoringIsHalf(a, w, host.w, spec, id);
    forall k | |middle| <= k < |host.trace| ensures Exclusive(a, host.trace[k], p) {
      RestoringIsExclusive(a, w, host.trace[k], spec, id);
    }
    RestoringIsExclusive(a, w, host.w, spec, id);
    SoundJoins(host, a, was, w, middle, p);
    LaunchedCanTakeOver(a, w, spec, id);
    RestoringKeepsSlices(w, host.w, p, id, Removal(a, p));
  }

  lemma RoutedIsTakenOver(a: World, w: World, spec: AppSpec, id: nat)
    requires Launched(a, w, spec, id) && w.containers[id].running
    requires a.nextId <= id
    ensures TakenOver(a, w.(routes := w.routes[spec.project := id]), spec, id, true) && TakenOver(a, w, spec, id, false)
  {
    hide UniqueTags, ImagesGrow, IsDeployedApp;
  }

  /** Launches the new application container and switches the route to it, or undoes that. */
  method SwitchOver(host: Host, spec: AppSpec, removal: set<nat>, ghost a: World, ghost was: seq<World>)
      returns (end: Option<End>, id: nat, ghost switched: bool)
    requires Sound(host, a, was, spec.project) && SidesDrained(a, host.w, spec.project)
               && removal == Removal(a, spec.project)
    requires HasTag(host.w.images, spec.image)
    modifies host
    ensures Sound(host, a, was, spec.project) && Exclusive(a, host.w, spec.project)
    ensures host.faults >= old(host.faults) && SlicesStay(old(host.w), host.w, spec.project)
    ensures old(host.trace) <= host.trace
    ensures end.Some? ==> end.value.NotCreated? || end.value.NotRouted? || end.value.NotRestored?
    ensures end.Some? ==> NotTakenOver(a, host.w, spec, id, end.value)
    ensures end.None? ==> TakenOver(a, host.w, spec, id, switched)
    ensures end.None? <==> host.faults == old(host.faults)
    ensures end == Some(NotRouted) ==> host.faults == old(host.faults) + 1
    ensures end == Some(NotRestored) ==> host.faults > old(host.faults) + 1
    ensures host.w.images == old(host.w).images && AssetsKept(a, host.w)
  {
    hide Sound, Exclusive, WellFormed, Listed, SlicesStay, SidesDrained, Launched, IsLaunched, TakenOver, CanTakeOver,
         OnlyStarted, Restoring, Compensated, AllRunning, HalfRestored, HasTag;
    var p := spec.project;
    switched := false;
    ghost var w, middle := host.w, host.trace;
    SoundIsSoFar(host, a, was, p);
    var random := RandomSuffix();
    var created := LaunchApp(host, spec, random);
    LaunchIsSound(host, a, was, w, middle, spec);
    LaunchedImages(a, w, host.w, spec);
    if created.None? {
      return Some(NotCreated), 0, switched;
    }
    id := created.value;
    ghost var v := host.w;
    middle := host.trace;
    SoundIsSoFar(host, a, was, p);
    LaunchedCanTakeOver(a, v, spec, id);
    var routing;
    routing, switched := RouteOrRestore(host, p, id, removal);
    RouteIsSound(host, a, was, v, middle, spec, id);
    SlicesStayTwice(w, v, host.w, p);
    match routing {
      case Routed =>
        RoutedIsTakenOver(a, v, spec, id);
        end := None;
      case Refused =>
        if removal != {} {
          RestoredIsCompensated(a, v, host.w, spec, id);
        }
        end := Some(NotRouted);
      case Stuck =>
        end := Some(NotRestored);
    }
  }

  lemma LaunchedImages(a: World, w: World, v: World, spec: AppSpec)
    requires SidesDrained(a, w, spec.project) && (v == w || IsLaunched(w, v, spec))
    ensures v.images == w.images && v.routes == w.routes && AssetsKept(a, v)
  {
    hide UniqueTags, ImagesGrow;
  }

  // Finishing.

  /** Exactly one application container, exactly the new workers and cronjobs. */
  ghost predicate Complete(w: World, spec: AppSpec, project: Project, encode: JobsCodec, id: nat,
                           placed: map<Task, nat>, started: set<nat>) {
    && NewRuns(w, spec, id) && Apps(w, spec.project) == {id}
    && Workers(w, spec.project) == placed.Values && Cronjobs(w, spec.project) == started
    && Staffed(w, spec, project, encode, placed, started)
  }

  lemma LeadingMeansServed(a: World, w: World, spec: AppSpec, id: nat)
    requires Leads(a, w, spec, id, true)
    ensures Serving(w, spec.project)
  {
    AppLabelsFit(spec.project);
  }

  /** Every state so far: sound if the proxy has switched, astray if not. */
  ghost predicate Fares(host: Host, a: World, was: seq<World>, project: string, switched: bool)
    reads host`w, host`trace
  {
    if switched then Sound(host, a, was, project) && Exclusive(a, host.w, project)
    else AllAstray(host, a, was, project) && Astray(a, host.w, project)
  }

  function Gone(a: World, project: string): set<nat> {
    Removal(a, project) + Cronjobs(a, project)
  }

  lemma GoneIsHarmless(a: World, w: World, spec: AppSpec, id: nat, switched: bool)
    requires WellFormed(a) && WellFormed(w) && TakenOver(a, w, spec, id, switched)
    ensures Own(w, spec.project, Gone(a, spec.project)) && id !in Gone(a, spec.project)
    ensures switched ==> Harmless(w, spec.project, Gone(a, spec.project), {})
    ensures Gone(a, spec.project) !! Services(w, spec.project) && Gone(a, spec.project) <= w.containers.Keys
    ensures Exclusive(a, w, spec.project)
  {
    hide UniqueTags, ImagesGrow, IsDeployedApp;
    forall other | other in Gone(a, spec.project)
      ensures other in Apps(w, spec.project) + Workers(w, spec.project) + Cronjobs(w, spec.project) {
    }
  }

  lemma ReplacementFares(host: Host, a: World, was: seq<World>, w: World, middle: seq<World>, spec: AppSpec, id: nat,
                         switched: bool)
    requires SoundSoFar(w, middle, a, was, spec.project) && TakenOver(a, w, spec, id, switched) && WellFormed(w)
    requires Progress(host, w, middle, spec.project, Gone(a, spec.project), {})
    requires Services(host.w, spec.project) == Services(w, spec.project)
    requires UnchangedOrGone(w, host.w, Gone(a, spec.project))
    requires UnchangedOrGoneSince(host.trace, |middle|, w, Gone(a, spec.project))
    ensures Fares(host, a, was, spec.project, switched)
    ensures SlicesStay(w, host.w, spec.project) && Leads(a, host.w, spec, id, switched) && AssetsKept(a, host.w)
  {
    hide Apart, Serving, WellFormed, Exclusive, Listed, SlicesStay, Harmless, UniqueTags, ImagesGrow, IsDeployedApp,
         Stays, SoundTrace, Own, UnchangedOrGone, UnchangedOrGoneSince, Astray, AstrayTrace;
    var p := spec.project;
    GoneIsHarmless(a, w, spec, id, switched);
    if switched {
      SoundProgresses(host, a, was, w, middle, p, Gone(a, p), {});
    } else {
      RemovalGoesAstray(host, a, was, w, middle, p, Gone(a, p));
    }
    WithinKeepsSlices(w, host.w, p, Gone(a, p), {});
    ImagesGrowTransitive(a.images, w.images, host.w.images);
  }

  lemma ReplacementIsComplete(a: World, w: World, v: World, spec: AppSpec, project: Project, encode: JobsCodec, id: nat,
                              placed: map<Task, nat>, started: set<nat>, switched: bool)
    requires TakenOver(a, w, spec, id, switched) && Leads(a, v, spec, id, switched) && id !in Gone(a, spec.project)
    requires Replacement(w, v, spec.project, Gone(a, spec.project), placed, started)
    requires Staffed(v, spec, project, encode, placed, started)
    ensures Complete(v, spec, project, encode, id, placed, started)
  {
    hide Listed, Staffed, IsDeployedApp, AssetsKept;
  }

  // Draining the images.

  lemma PurgedIsTheSame(a: World, w: World, v: World, project: string)
    requires v == w.(images := v.images)
    ensures Safe(w, v, project) && SlicesStay(w, v, project)
    ensures Exclusive(a, w, project) ==> Exclusive(a, v, project)
    ensures Astray(a, w, project) ==> Astray(a, v, project)
  {
  }

  /** Draining the images changes nothing about how the containers fare. */
  lemma PurgeFares(host: Host, a: World, was: seq<World>, w: World, middle: seq<World>, project: string,
                   gone: set<string>, doomed: set<string>, switched: bool)
    requires FaredSoFar(w, middle, a, was, project, switched) && WellFormed(w)
    requires host.Valid() && middle <= host.trace && host.w == w.(images := Purge(w.images, gone))
    requires PurgedSince(w, host.trace, |middle|, doomed)
    ensures Fares(host, a, was, project, switched) && SlicesStay(w, host.w, project)
  {
    hide Apart, Serving, WellFormed, Exclusive, SlicesStay, Purge, ServedWhilePresent;
    PurgedIsTheSame(a, w, host.w, project);
    forall k | |middle| <= k < |host.trace|
      ensures Safe(w, host.trace[k], project)
      ensures Exclusive(a, w, project) ==> Exclusive(a, host.trace[k], project)
      ensures Astray(a, w, project) ==> Astray(a, host.trace[k], project)
    {
      PurgedIsTheSame(a, w, host.trace[k], project);
    }
    if switched {
      SoundJoins(host, a, was, w, middle, project);
    } else {
      assert AstrayTrace(host.trace, |was|, a, project) by {
        forall k | |was| <= k < |host.trace| ensures Astray(a, host.trace[k], project) {
          if k < |middle| {
            assert host.trace[k] == middle[k];
          }
        }
      }
    }
  }

  ghost predicate FaredSoFar(w: World, middle: seq<World>, a: World, was: seq<World>, project: string, switched: bool) {
    if switched then SoundSoFar(w, middle, a, was, project) && Exclusive(a, w, project)
    else WellFormed(a) && was <= middle && AstrayTrace(middle, |was|, a, project) && Astray(a, w, project)
  }

  lemma FaresSoFar(host: Host, a: World, was: seq<World>, project: string, switched: bool)
    requires Fares(host, a, was, project, switched)
    ensures FaredSoFar(host.w, host.trace, a, was, project, switched)
    ensures host.Valid() && WellFormed(host.w) && WellFormed(a)
  {
    hide Apart, Serving, Exclusive, Astray;
  }

  /** Self-healing: with everything replaced and staffed the project is healthy, exactly when the proxy
      has switched. */
  lemma {:induction false} SelfHealing(a: World, w: World, spec: AppSpec, project: Project, encode: JobsCodec, id: nat,
                                       placed: map<Task, nat>, started: set<nat>, switched: bool)
    requires spec.project == project.name && Complete(w, spec, project, encode, id, placed, started)
    requires WellFormed(a) && Leads(a, w, spec, id, switched) && FullyStaffed(w, project, placed)
    ensures Healthy(w, spec, project) <==> switched
  {
    hide Placed, FullyStaffed, AreCronjobs, Listed, OfWorker, IsDeployedApp, Serving, WellFormed;
    WorkersAreHealthy(w, spec, project, placed);
    if project.cronjobs != [] {
      CronjobCount(w, spec, project.cronjobs, encode, started);
    }
    if switched {
      LeadingMeansServed(a, w, spec, id);
    } else {
      OnlyOthersAreRouted(a, w, spec, id);
    }
  }

  /** At the end the new container is the only one, so the project is served exactly when the proxy has
      switched; and no state was unsafe exactly when it has, or there was nothing to lose. */
  lemma FaresExactlyWhen(host: Host, a: World, was: seq<World>, spec: AppSpec, id: nat, switched: bool)
    requires Fares(host, a, was, spec.project, switched) && WellFormed(a)
    requires Leads(a, host.w, spec, id, switched) && Apps(host.w, spec.project) == {id}
    ensures Serving(host.w, spec.project) <==> switched
    ensures Sound(host, a, was, spec.project) <==> switched || !Serving(a, spec.project)
  {
    if switched {
      LeadingMeansServed(a, host.w, spec, id);
    } else {
      OnlyOthersAreRouted(a, host.w, spec, id);
      hide Apart, Exclusive, SoundTrace, AstrayTrace, ServedWhilePresent, Serving, Listed, IsDeployedApp;
      if !Serving(a, spec.project) {
        AstrayIsSound(host, a, was, spec.project);
      }
    }
  }

  lemma OnlyOthersAreRouted(a: World, w: World, spec: AppSpec, id: nat)
    requires WellFormed(a) && Leads(a, w, spec, id, false) && Apps(w, spec.project) == {id}
    ensures !Serving(w, spec.project)
  {
    hide IsDeployedApp, Serving, Listed;
    ServedByTheApp(w, spec.project, id);
  }

  lemma ServedByTheApp(w: World, project: string, id: nat)
    requires Apps(w, project) == {id}
    ensures Serving(w, project) ==> project in w.routes && w.routes[project] == id
  {
    if Serving(w, project) {
      assert w.routes[project] in Apps(w, project);
    }
  }

  /** The references of the deployed image are all still there. */
  ghost predicate ImageSpared(a: Images, w: Images, ref: string) {
    && (exists id | id in w :: ref in w[id].tags)
    && forall id | id in a && ref in a[id].tags :: id in w && a[id].tags <= w[id].tags
  }

  /** What a drain did: it removed some or all of the references that its listing condemned. */
  datatype Drain = Drain(order: seq<nat>, current: string, gone: set<string>)

  ghost predicate IsDrain(d: Drain, w: World, project: Project) {
    d.gone == {} || (project.keepVersions >= 0 && CurrentOf(w, project.name, d.current)
                     && IsListing(w.images, project.image, d.order)
                     && d.gone <= DoomedTags(w.images, project.image, d.order, project.keepVersions, d.current))
  }

  /** The drain went through: it removed all of them. */
  ghost predicate IsFullDrain(d: Drain, w: World, project: Project) {
    && project.keepVersions >= 0 && CurrentOf(w, project.name, d.current) && IsListing(w.images, project.image, d.order)
    && d.gone == DoomedTags(w.images, project.image, d.order, project.keepVersions, d.current)
  }

  lemma {:induction false} OnlyAppIsCurrent(w: World, project: string, repo: string, version: string, current: string,
                                            id: nat)
    requires CurrentOf(w, project, current) && Apps(w, project) == {id} && w.containers[id].image == Ref(repo, version)
    requires ':' !in repo
    ensures current == version
  {
    Rollbacks.VersionReadsBack(repo, version);
  }

  lemma {:induction false} DrainSparesImage(w: World, project: Project, version: string, d: Drain, image: nat)
    requires UniqueTags(w.images) && IsDrain(d, w, project) && (d.gone != {} ==> d.current == version)
    requires image in w.images && Ref(project.image, version) in w.images[image].tags
    ensures image in Purge(w.images, d.gone) && Purge(w.images, d.gone)[image] == w.images[image]
  {
    if d.gone == {} {
      PurgeNothing(w.images);
    } else {
      BearsMeaning(w.images[image], project.image, version);
      assert image in MatchingIds(w.images, project.image);
      assert image in d.order;
      Rollbacks.PartialDrainSpares(w.images, project.image, d.order, project.keepVersions, version, d.gone, image);
    }
  }

  /** The image just deployed survives the drain with all its references. */
  lemma {:induction false} DeployedImageSpared(a: World, w: World, project: Project, version: string, id: nat, d: Drain)
    requires Apps(w, project.name) == {id} && w.containers[id].image == Ref(project.image, version)
               && ':' !in project.image
    requires UniqueTags(w.images) && ImagesGrow(a.images, w.images) && HasTag(w.images, Ref(project.image, version))
    requires IsDrain(d, w, project)
    ensures ImageSpared(a.images, Purge(w.images, d.gone), Ref(project.image, version))
  {
    hide UniqueTags, IsListing, DoomedTags, Purge;
    var ref := Ref(project.image, version);
    if d.gone != {} {
      OnlyAppIsCurrent(w, project.name, project.image, version, d.current, id);
    }
    var image :| image in w.images && ref in w.images[image].tags;
    DrainSparesImage(w, project, version, d, image);
    forall earlier | earlier in a.images && ref in a.images[earlier].tags
      ensures earlier in Purge(w.images, d.gone) && a.images[earlier].tags <= Purge(w.images, d.gone)[earlier].tags
    {
      assert ref in w.images[earlier].tags;
      DrainSparesImage(w, project, version, d, earlier);
    }
  }

  /** Replaces the old containers and drains the images. `replaced` is the host between the two. */
  method Finish(host: Host, spec: AppSpec, project: Project, version: string, encode: JobsCodec, gone: set<nat>,
                ghost id: nat, ghost switched: bool, ghost a: World, ghost was: seq<World>)
      returns (end: End, ghost placed: map<Task, nat>, ghost started: set<nat>, ghost drain: Drain,
               ghost replaced: World)
    requires Sound(host, a, was, spec.project) && TakenOver(a, host.w, spec, id, switched)
    requires gone == Gone(a, spec.project)
    requires IsSpec(spec, project, version) && HasTag(host.w.images, spec.image)
    modifies host
    ensures Fares(host, a, was, spec.project, switched) && SlicesStay(old(host.w), host.w, spec.project)
    ensures host.faults >= old(host.faults) && VolumesKept(a, host.w) && old(host.trace) <= host.trace
    ensures Leads(a, host.w, spec, id, switched) && (end.Unfinished? || end.NotPurged? || end.Deployed?)
    ensures end.Unfinished? ==> AssetsKept(a, host.w)
    ensures !end.Unfinished? ==> Complete(host.w, spec, project, encode, id, placed, started)
    ensures !end.Unfinished? ==> IsDrain(drain, replaced, project)
    ensures !end.Unfinished? ==> host.w == replaced.(images := Purge(replaced.images, drain.gone))
    ensures !end.Unfinished? ==> GrowBy(old(host.w).images, replaced.images, {SCHEDULER_IMAGE})
    ensures !end.Unfinished? && UniqueTags(a.images) ==> UniqueTags(replaced.images)
    ensures !end.Unfinished? && ':' !in project.image && UniqueTags(a.images) ==>
              ImageSpared(a.images, host.w.images, spec.image)
    ensures end.Deployed? ==> IsFullDrain(drain, replaced, project)
    ensures !end.Unfinished? ==> HookDone(host.trace, |was|, a.nextId, spec, project.postDeployHook, host.exitCode)
    ensures host.faults == old(host.faults) ==> !end.Unfinished? && FullyStaffed(host.w, project, placed)
    ensures host.faults == old(host.faults) && project.keepVersions >= 0 ==> end.Deployed?
  {
    hide Sound, Exclusive, WellFormed, Listed, SlicesStay, TakenOver, Stays, Complete, Staffed, FullyStaffed, HasTag,
         UniqueTags, Within, Purge, DoomedTags, ImageSpared, ImagesGrow, Leads, HookDone, Fares, FaredSoFar, GrowBy,
         UnchangedOrGone, UnchangedOrGoneSince, Own, Harmless;
    var p := spec.project;
    ghost var w, middle := host.w, host.trace;
    SoundIsSoFar(host, a, was, p);
    GoneIsHarmless(a, w, spec, id, switched);
    drain, replaced := Drain([], "", {}), w;
    var ok;
    ok, placed, started := ReplaceContainers(host, spec, project, encode, gone);
    ReplacementFares(host, a, was, w, middle, spec, id, switched);
    if !ok {
      return Unfinished, placed, started, drain, replaced;
    }
    HookStillDone(host.trace, host.trace, |middle|, |was|, w.nextId, a.nextId, spec, project.postDeployHook,
                  host.exitCode);
    replaced, middle := host.w, host.trace;
    ReplacementIsComplete(a, w, replaced, spec, project, encode, id, placed, started, switched);
    TagsGrowBy(w, replaced, p, gone, spec.image);
    FaresSoFar(host, a, was, p, switched);
    var r;
    ghost var order, current, removed;
    r, order, current, removed := VersionDrain(host, p, project.image, project.keepVersions);
    drain := Drain(order, current, removed);
    HookStillDone(middle, host.trace, |was|, |was|, a.nextId, a.nextId, spec, project.postDeployHook,
                  host.exitCode);
    ghost var doomed := if project.keepVersions < 0 then {}
                        else DoomedTags(replaced.images, project.image, order, project.keepVersions, current);
    PurgeFares(host, a, was, replaced, middle, p, removed, doomed, switched);
    LeadsAfterPurge(a, replaced, host.w, spec, id, switched);
    SlicesStayTwice(w, replaced, host.w, p);
    CompleteHasVersion(replaced, spec, project, version, encode, id, placed, started);
    CompleteAfterPurge(replaced, host.w, spec, project, encode, id, placed, started);
    if ':' !in project.image && UniqueTags(a.images) {
      CompleteRunsImage(replaced, spec, project, encode, id, placed, started);
      DeployedImageSpared(a, replaced, project, version, id, drain);
    }
    end := if r.Ok? then Deployed else NotPurged;
  }

  lemma TagsGrowBy(w: World, v: World, project: string, hurt: set<nat>, ref: string)
    requires Within(w, v, project, hurt, {}) && HasTag(w.images, ref)
    ensures HasTag(v.images, ref)
  {
    hide UniqueTags;
    var id :| id in w.images && ref in w.images[id].tags;
    assert id in v.images && ref in v.images[id].tags;
  }

  lemma CompleteRunsImage(w: World, spec: AppSpec, project: Project, encode: JobsCodec, id: nat,
                          placed: map<Task, nat>, started: set<nat>)
    requires Complete(w, spec, project, encode, id, placed, started)
    ensures Apps(w, spec.project) == {id} && id in w.containers && w.containers[id].image == spec.image
  {
    hide Listed, Staffed;
  }

  /** The version of the only application container can be read. */
  lemma CompleteHasVersion(w: World, spec: AppSpec, project: Project, version: string, encode: JobsCodec, id: nat,
                           placed: map<Task, nat>, started: set<nat>)
    requires Complete(w, spec, project, encode, id, placed, started) && IsSpec(spec, project, version)
    ensures Apps(w, spec.project) != {}
    ensures forall app | app in Apps(w, spec.project) :: ':' in w.containers[app].image
  {
    hide Listed, Staffed;
    assert spec.image[|project.image|] == ':';
  }

  lemma CompleteAfterPurge(w: World, v: World, spec: AppSpec, project: Project, encode: JobsCodec, id: nat,
                           placed: map<Task, nat>, started: set<nat>)
    requires Complete(w, spec, project, encode, id, placed, started) && v == w.(images := v.images)
    ensures Complete(v, spec, project, encode, id, placed, started)
    ensures FullyStaffed(w, project, placed) ==> FullyStaffed(v, project, placed)
  {
    hide Tasks, IsWorkerOf, IsDeployedApp;
    if project.cronjobs != [] {
      SameCronjobs(w, v, spec, project.cronjobs, encode, started);
    }
  }

  lemma LeadsAfterPurge(a: World, w: World, v: World, spec: AppSpec, id: nat, switched: bool)
    requires Leads(a, w, spec, id, switched) && v == w.(images := v.images)
    ensures Leads(a, v, spec, id, switched)
  {
  }

  lemma SameCronjobs(w: World, v: World, spec: AppSpec, cronjobs: seq<string>, encode: JobsCodec, started: set<nat>)
    requires AreCronjobs(w, spec, cronjobs, encode, started) && v.containers == w.containers
    ensures AreCronjobs(v, spec, cronjobs, encode, started)
  {
    hide CronjobBlueprint, SchedulerBlueprint;
    var app, scheduler, random :|
      && app != scheduler && started == {app, scheduler}
      && IsMade(w, app, CronjobBlueprint(spec, random))
      && IsMade(w, scheduler, SchedulerBlueprint(spec.project, encode(app, cronjobs), random));
    assert IsMade(v, app, CronjobBlueprint(spec, random));
    assert IsMade(v, scheduler, SchedulerBlueprint(spec.project, encode(app, cronjobs), random));
  }

  // The whole deployment.

  /** What a deployment did: what it launched, the secrets and 1Password results it resolved the
      environment from, the containers it placed, and the drain of the state `replaced`; `silent` when
      the proxy reported no error without having switched. */
  datatype Record = Record(
    spec: AppSpec, stored: Vars, results: seq<Vars>, id: nat, placed: map<Task, nat>, started: set<nat>,
    drain: Drain, replaced: World, silent: bool)

  const NO_SPEC := AppSpec("", "", {}, map[])

  /** What the host looks like at the end, for each way to end. */
  ghost predicate EndsIn(a: World, w: World, project: Project, version: string, encode: JobsCodec, end: End,
                         r: Record) {
    match end
    case NotStarted => NotYetTouched(a, w, project.name)
    case NotDrained => AppStays(a, w, project.name) && AssetsKept(a, w)
    case HookFailed => SidesDrained(a, w, project.name)
    case NotCreated => NotTakenOver(a, w, r.spec, r.id, end) && AssetsKept(a, w)
    case NotRouted => NotTakenOver(a, w, r.spec, r.id, end) && AssetsKept(a, w)
    case NotRestored => NotTakenOver(a, w, r.spec, r.id, end) && AssetsKept(a, w)
    case Unfinished => Leads(a, w, r.spec, r.id, !r.silent) && AssetsKept(a, w)
    case NotPurged => Replaced(a, w, project, encode, r) && IsDrain(r.drain, r.replaced, project)
    case Deployed => Replaced(a, w, project, encode, r) && IsFullDrain(r.drain, r.replaced, project)
  }

  ghost predicate Replaced(a: World, w: World, project: Project, encode: JobsCodec, r: Record) {
    && Complete(w, r.spec, project, encode, r.id, r.placed, r.started) && VolumesKept(a, w)
    && Leads(a, w, r.spec, r.id, !r.silent)
    && GrowBy(a.images, r.replaced.images, Pulls(a.images, project.services, r.spec.image))
    && (UniqueTags(a.images) ==> UniqueTags(r.replaced.images))
    && w == r.replaced.(images := Purge(r.replaced.images, r.drain.gone))
    && (':' !in project.image && UniqueTags(a.images) ==> ImageSpared(a.images, w.images, r.spec.image))
  }

  ghost predicate IsPastHook(end: End) {
    !end.NotStarted? && !end.NotDrained? && !end.HookFailed?
  }

  /** Everything after the preparation: the old workers and cronjobs are drained, the new container is
      launched and routed to, and the old ones are replaced. */
  method Rollout(host: Host, spec: AppSpec, before: set<nat>, encode: JobsCodec, project: Project, version: string,
                 ghost a: World, ghost was: seq<World>, ghost prepared: Record)
      returns (end: End, ghost r: Record)
    requires Sound(host, a, was, project.name) && NotYetTouched(a, host.w, project.name)
    requires before == Apps(host.w, project.name) && HasTag(host.w.images, spec.image)
    requires spec.project == project.name && IsSpec(spec, project, version)
    requires prepared.spec == spec && !prepared.silent
    requires GrowBy(a.images, host.w.images, Pulls(a.images, project.services, spec.image))
    modifies host
    ensures r.spec == spec && r.stored == prepared.stored && r.results == prepared.results
    ensures host.faults >= old(host.faults)
    ensures end.NotRestored? ==> host.faults > old(host.faults) + 1
    ensures if r.silent then AllAstray(host, a, was, project.name) else Sound(host, a, was, project.name)
    ensures r.silent ==> end.Unfinished? || end.NotPurged? || end.Deployed?
    ensures host.faults == old(host.faults) && project.keepVersions >= 0 ==>
              end.Deployed? && (Healthy(host.w, spec, project) <==> !r.silent)
    ensures end.NotPurged? || end.Deployed? ==> (Serving(host.w, project.name) <==> !r.silent)
    ensures end.NotPurged? || end.Deployed? ==>
              (Sound(host, a, was, project.name) <==> !r.silent || !Serving(a, project.name))
    ensures SlicesStay(old(host.w), host.w, project.name)
    ensures EndsIn(a, host.w, project, version, encode, end, r)
    ensures end.Deployed? && host.faults == old(host.faults) ==> FullyStaffed(host.w, project, r.placed)
    ensures IsPastHook(end) ==> HookRanDrained(host.trace, |was|, a, spec, project.deployHook, host.exitCode)
    ensures end.NotPurged? || end.Deployed? ==>
              HookDone(host.trace, |was|, a.nextId, spec, project.postDeployHook, host.exitCode)
  {
    hide Sound, Exclusive, WellFormed, Listed, SlicesStay, TakenOver, Stays, Complete, Staffed, FullyStaffed, HasTag,
         Within, Purge, DoomedTags, ImageSpared, ImagesGrow, Leads, SidesDrained, GrowBy, Pulls, Fares, AllAstray,
         Serving, Healthy, NotYetTouched, UniqueTags, AssetsKept, Harmless, Slice, AppStays, IsDrain, IsFullDrain,
         Launched, Compensated, HookRanDrained, HookDone, NotTakenOver, Unchanged;
    var p := project.name;
    r := prepared;
    SoundIsSoFar(host, a, was, p);
    ghost var w, middle := host.w, host.trace;
    SlicesStayReflexive(w, p);
    var preparation := StopOld(host, spec, before, project.deployHook, a, was);
    if preparation.GaveUp? {
      return preparation.end, r;
    }
    var removal := preparation.before + preparation.listings.workers;
    ghost var v := host.w;
    middle := host.trace;
    var failed, id;
    ghost var switched;
    failed, id, switched := SwitchOver(host, spec, removal, a, was);
    HookStillRan(middle, host.trace, |was|, |was|, a, spec, project.deployHook, host.exitCode);
    SlicesStayTwice(w, v, host.w, p);
    r := r.(id := id);
    if failed.Some? {
      return failed.value, r;
    }
    v, middle := host.w, host.trace;
    ghost var placed, started, drain, replaced;
    end, placed, started, drain, replaced :=
      Finish(host, spec, project, version, encode, removal + preparation.listings.cronjobs, id, switched, a, was);
    HookStillRan(middle, host.trace, |was|, |was|, a, spec, project.deployHook, host.exitCode);
    SlicesStayTwice(w, v, host.w, p);
    r := r.(placed := placed, started := started, drain := drain, replaced := replaced, silent := !switched);
    FinallyFares(host, a, was, spec, project, encode, id, switched, end, placed, started);
    if end.Deployed? && host.faults == old(host.faults) {
      SelfHealing(a, host.w, spec, project, encode, id, placed, started, switched);
    }
    ReplacedGrowsBy(a, v, replaced, project.services, spec.image, end);
  }

  /** `Deploy`. From any state of the host, whichever calls fail: every state on the way leaves the
      other projects alone and keeps every served project served, the old workers and cronjobs never
      run beside the new application container, and the end is one of `EndsIn`. The one exception is a
      proxy that reports no error without having switched: then the project is served only while its
      old container is there. */
  method Deploy(host: Host, kv: KvClient, codec: Codec, run: Env.Run, encode: JobsCodec, project: Project,
                version: string)
      returns (end: End, ghost r: Record)
    requires host.Valid() && kv.Valid() && LawfulCodec(codec)
    modifies host, kv
    ensures host.faults >= old(host.faults)
    ensures end.NotRestored? ==> host.faults > old(host.faults) + 1
    ensures !r.silent ==> Sound(host, old(host.w), old(host.trace), project.name)
    ensures r.silent ==> AllAstray(host, old(host.w), old(host.trace), project.name)
    ensures r.silent ==> end.Unfinished? || end.NotPurged? || end.Deployed?
    ensures host.faults == old(host.faults) && kv.faults == old(kv.faults) && project.keepVersions >= 0
            && ServicesValidated(project.services)
            && CanResolve(project.env, run, codec, project.name, old(kv.table)) ==>
              end.Deployed? && (Healthy(host.w, r.spec, project) <==> !r.silent)
    ensures end.NotPurged? || end.Deployed? ==> (Serving(host.w, project.name) <==> !r.silent)
    ensures end.NotPurged? || end.Deployed? ==>
              (Sound(host, old(host.w), old(host.trace), project.name) <==>
                 !r.silent || !Serving(old(host.w), project.name))
    ensures kv.Valid() && OthersUntouched(old(kv.table), kv.table, project.name)
    ensures OtherProjectsKeep(old(kv.table), kv.table, project.name)
    ensures StoreStep(project.env, run, codec, project.name, old(kv.table), kv.table, r.stored)
    ensures ServicesKept(old(host.w), host.w, project, host.imageCommand)
    ensures UniqueTags(old(host.w).images) ==> UniqueTags(host.w.images)
    ensures EndsIn(old(host.w), host.w, project, version, encode, end, r)
    ensures !end.NotStarted? ==> r.spec.project == project.name && IsSpec(r.spec, project, version)
    ensures !end.NotStarted? ==>
              IsResolved(r.spec.env, project.env, run, codec, project.name, old(kv.table), kv.table, r.stored,
                         r.results)
    ensures !end.NotStarted? ==> ServicesValidated(project.services) && kv.faults == old(kv.faults)
    ensures !end.NotStarted? ==> CanResolve(project.env, run, codec, project.name, old(kv.table))
    ensures kv.faults >= old(kv.faults)
    ensures !end.NotStarted? ==> AllSettled(old(host.w), host.w, project.name, project.services, host.imageCommand)
    ensures end.Deployed? && host.faults == old(host.faults) ==> FullyStaffed(host.w, project, r.placed)
    ensures IsPastHook(end) ==>
              HookRanDrained(host.trace, |old(host.trace)|, old(host.w), r.spec, project.deployHook, host.exitCode)
    ensures end.NotPurged? || end.Deployed? ==>
              HookDone(host.trace, |old(host.trace)|, old(host.w).nextId, r.spec, project.postDeployHook, host.exitCode)
  {
    hide Sound, Exclusive, WellFormed, Listed, SlicesStay, TakenOver, Stays, Complete, Staffed, FullyStaffed, HasTag,
         Within, Purge, DoomedTags, ImageSpared, ImagesGrow, Leads, IsResolved, SidesDrained, GrowBy, Pulls, Fares,
         AllAstray, Serving, Healthy, NotYetTouched, UniqueTags, AssetsKept, ServicesKept, Harmless, Slice,
         ServicesValidated, AllSettled, AppStays, IsDrain, IsFullDrain, Launched, Compensated, StoreStep,
         HookRanDrained, HookDone, NotTakenOver, OthersUntouched, OtherProjectsKeep, LawfulCodec, Unchanged,
         CanResolve;
    var p := project.name;
    ghost var a, was := host.w, host.trace;
    r := Record(NO_SPEC, map[], [], 0, map[], {}, Drain([], "", {}), a, false);
    SoundStarts(host, p);
    var ready;
    ghost var stored, results;
    ready, stored, results := Prepare(host, kv, codec, run, project, version);
    r := r.(stored := stored, results := results);
    PreparationIsSound(host, a, was, project);
    OthersKeep(old(kv.table), kv.table, codec, p);
    if ready.None? {
      UniqueAtTheEnd(a, host.w, project, version, encode, NotStarted, r);
      return NotStarted, r;
    }
    var spec := ready.value.spec;
    ghost var w := host.w;
    end, r := Rollout(host, spec, ready.value.before, encode, project, version, a, was, r.(spec := spec));
    SlicesCarryOn(a, w, host.w, project, host.imageCommand);
    UniqueAtTheEnd(a, host.w, project, version, encode, end, r);
  }

  /** The new cronjobs pull no more than the scheduler. */
  lemma ReplacedGrowsBy(a: World, w: World, replaced: World, services: map<string, Service>, ref: string, end: End)
    requires GrowBy(a.images, w.images, Pulls(a.images, services, ref))
    requires !end.Unfinished? ==> GrowBy(w.images, replaced.images, {SCHEDULER_IMAGE})
    ensures !end.Unfinished? ==> GrowBy(a.images, replaced.images, Pulls(a.images, services, ref))
  {
    hide GrowBy, ServiceImages, HasTag;
    if !end.Unfinished? {
      GrowByTransitive(a.images, w.images, replaced.images, Pulls(a.images, services, ref), {SCHEDULER_IMAGE},
                       Pulls(a.images, services, ref));
    }
  }

  lemma UniqueAtTheEnd(a: World, w: World, project: Project, version: string, encode: JobsCodec, end: End, r: Record)
    requires EndsIn(a, w, project, version, encode, end, r)
    ensures UniqueTags(a.images) ==> UniqueTags(w.images)
  {
    hide UniqueTags, ImagesGrow, Complete, Leads, GrowBy, ImageSpared, NotTakenOver, Purge, AppStays, IsDrain,
         IsFullDrain;
    if (end.NotPurged? || end.Deployed?) && UniqueTags(a.images) {
      PurgeKeepsUnique(r.replaced.images, r.drain.gone);
    }
  }

  lemma FinallyFares(host: Host, a: World, was: seq<World>, spec: AppSpec, project: Project, encode: JobsCodec,
                     id: nat, switched: bool, end: End, placed: map<Task, nat>, started: set<nat>)
    requires Fares(host, a, was, spec.project, switched) && WellFormed(a) && Leads(a, host.w, spec, id, switched)
    requires !end.Unfinished? ==> Complete(host.w, spec, project, encode, id, placed, started)
    ensures if switched then Sound(host, a, was, spec.project) else AllAstray(host, a, was, spec.project)
    ensures !end.Unfinished? ==> (Serving(host.w, spec.project) <==> switched)
    ensures !end.Unfinished? ==> (Sound(host, a, was, spec.project) <==> switched || !Serving(a, spec.project))
  {
    hide Sound, AllAstray, Exclusive, Astray, Serving, Listed, Staffed, NewRuns, Leads;
    if !end.Unfinished? {
      FaresExactlyWhen(host, a, was, spec, id, switched);
    }
  }

  lemma PreparationIsSound(host: Host, a: World, was: seq<World>, project: Project)
    requires Progress(host, a, was, project.name, Services(a, project.name), {}) && RolesStay(a, host.w, project.name)
    requires DanglingStay(a, host.w, project.name, project.services)
    requires forall name :: NoMoreThanOne(Slice(a, project.name, name), Slice(host.w, project.name, name))
    requires SlicesStayHonest(a, host.w, project.name, project.services, host.imageCommand)
    ensures Sound(host, a, was, project.name) && NotYetTouched(a, host.w, project.name)
              && ServicesKept(a, host.w, project, host.imageCommand)
  {
    hide Within, Stays, Listed, Safe, WellFormed, Harmless, SoundTrace;
    ServicesAreHarmless(a, project.name);
    SafeReflexive(a, project.name);
    NothingSoFar(was, a, project.name);
    SoundProgresses(host, a, was, a, was, project.name, Services(a, project.name), {});
    PreparedIsUntouched(a, host.w, project.name);
  }

  lemma NothingSoFar(was: seq<World>, a: World, project: string)
    ensures SoundTrace(was, |was|, a, project)
  {
  }
}

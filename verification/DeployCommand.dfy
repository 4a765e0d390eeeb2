/** The `deploy` command: choose a version, deploy it, and look at the services afterwards. */
module DeployCommand {
  import opened Text
  import opened Docker
  import opened Frames
  import opened Config
  import opened Kv
  import opened Secrets
  import opened Safety
  import opened Handover
  import opened DeployFacts
  import opened DeployPrepare
  import opened DeployFinish
  import opened ServiceStart
  import opened ServiceCommands
  import opened CronjobStart
  import opened Versions
  import opened VersionCommands
  import opened Deployment
  import Health
  import HookRun
  import Rollbacks
  import Runs
  import Env

  /** `warned` tells whether dangling services were reported. */
  datatype CommandEnd = NoVersion | DeployFailed(end: End) | NotListed | Done(warned: bool)

  /** References are unique and tell the project's versions from everything else. */
  ghost predicate CanTrackVersions(w: World, project: Project) {
    UniqueTags(w.images) && ':' !in project.image && Runs.AreForeign(SideImages(project.services), project.image)
  }

  lemma TrackedAreUnique(w: World, project: Project)
    ensures CanTrackVersions(w, project) ==> UniqueTags(w.images)
  {
  }

  /** One step of a rollback chain, after which exactly the selected version is active. */
  ghost predicate RolledBack(a: World, w: World, project: Project, current: string, version: string) {
    && project.keepVersions >= 0
    && Rollbacks.RollbackStep(a.images, current, w.images, version, project.image, project.keepVersions)
    && forall next :: CurrentOf(w, project.name, next) <==> next == version
  }

  /** A deployment of the version a rollback selects. */
  lemma {:induction false} DeployedIsRolledBack(a: World, w: World, project: Project, version: string,
                                                encode: JobsCodec, r: Record, current: string)
    requires EndsIn(a, w, project, version, encode, Deployed, r)
    requires r.spec.project == project.name && IsSpec(r.spec, project, version) && CanTrackVersions(a, project)
    requires Rollbacks.SelectsRollback(a.images, project.image, current, version)
    ensures RolledBack(a, w, project, current, version)
  {
    hide UniqueTags, Purge, IsFullDrain, GrowBy, Rollbacks.SelectsRollback, Rollbacks.RollbackStep, Pulls, SideImages,
         Runs.AreForeign, Staffed, CurrentOf, Leads, ImageSpared, VolumesKept;
    CompleteRunsImage(w, r.spec, project, encode, r.id, r.placed, r.started);
    assert Apps(r.replaced, project.name) == Apps(w, project.name);
    Runs.DeployedRollback(a.images, r.replaced, project, version, r.id, r.drain, current);
    forall next ensures CurrentOf(w, project.name, next) <==> CurrentOf(r.replaced, project.name, next) {
      SameAppsSameVersion(r.replaced, w, project.name, next);
    }
  }

  lemma SameAppsSameVersion(w: World, v: World, project: string, version: string)
    requires v.containers == w.containers
    ensures CurrentOf(v, project, version) <==> CurrentOf(w, project, version)
  {
    assert Apps(v, project) == Apps(w, project);
  }

  // Series of rollbacks.

  datatype Rollback = Rollback(before: World, after: World, current: string, version: string)

  /** Every command rolled back from the version it found active, and between two of them nobody touched
      the images or deployed the project. */
  ghost predicate IsRollbackSeries(project: Project, series: seq<Rollback>) {
    && (forall k | 0 <= k < |series| ::
          CurrentOf(series[k].before, project.name, series[k].current)
          && RolledBack(series[k].before, series[k].after, project, series[k].current, series[k].version))
    && forall k, l | 0 <= k < l < |series| && l == k + 1 ::
         series[l].before.images == series[k].after.images
         && (CurrentOf(series[l].before, project.name, series[l].current) ==>
               CurrentOf(series[k].after, project.name, series[l].current))
  }

  function ChainOf(series: seq<Rollback>): seq<Rollbacks.Deployed>
    requires series != []
  {
    [Rollbacks.Deployed(series[0].before.images, series[0].current)]
    + seq(|series|, k requires 0 <= k < |series| => Rollbacks.Deployed(series[k].after.images, series[k].version))
  }

  /** There are no more successful rollbacks in a row than there were images older than the active one. */
  lemma {:induction false} RollbacksRunOut(project: Project, series: seq<Rollback>, start: nat)
    requires series != [] && IsRollbackSeries(project, series)
    requires var images := series[0].before.images;
             && UniqueTags(images) && DistinctTimes(images, project.image)
             && Rollbacks.IsActive(images, project.image, series[0].current, start)
    ensures |series| <= |Rollbacks.Older(series[0].before.images, project.image, start)|
  {
    hide UniqueTags, DistinctTimes, Rollbacks.IsActive, Rollbacks.RollbackStep, Rollbacks.Older, CurrentOf;
    var chain := ChainOf(series);
    forall k | 0 <= k < |series|
      ensures project.keepVersions >= 0 && chain[k] == Rollbacks.Deployed(series[k].before.images, series[k].current)
    {
      assert RolledBack(series[k].before, series[k].after, project, series[k].current, series[k].version);
      if k > 0 {
        assert RolledBack(series[k - 1].before, series[k - 1].after, project, series[k - 1].current,
                          series[k - 1].version);
      }
    }
    assert project.keepVersions >= 0 by {
      assert chain[0] == Rollbacks.Deployed(series[0].before.images, series[0].current);
    }
    var end := Rollbacks.RollbackChainEnds(chain, project.image, project.keepVersions, start);
  }

  lemma EndIsValid(host: Host, a: World, was: seq<World>, project: string, silent: bool)
    requires if silent then AllAstray(host, a, was, project) else Sound(host, a, was, project)
    ensures host.Valid() && WellFormed(a) && WellFormed(host.w)
  {
    hide Apart, Exclusive, Serving, SoundTrace, AstrayTrace;
  }

  /** Lists the services after a deployment and warns about dangling ones. */
  method LookAtServices(host: Host, project: Project, ghost a: World) returns (c: CommandEnd)
    requires host.Valid() && ServicesValidated(project.services) && ServicesKept(a, host.w, project, host.imageCommand)
    requires AllSettled(a, host.w, project.name, project.services, host.imageCommand)
    modifies host`faults
    ensures host.faults >= old(host.faults) && (c.NotListed? || c.Done?)
    ensures c.Done? <==> host.faults == old(host.faults)
    ensures c.Done? ==>
              (c.warned <==> exists name :: name !in project.services && Slice(a, project.name, name) != map[])
  {
    hide Slice, AllSettled, ServicesValidated, DanglingStay, IsServiceList, HasDanglingServices,
         HasNotDeployedServices, SlicesStayHonest, NoMoreThanOne, WellFormed, Listed;
    var list := ProjectListServices(host, project.name, project.services);
    if list.None? {
      return NotListed;
    }
    NothingMissingAfterStart(a, host.w, project.name, project.services, host.imageCommand, list.value);
    c := Done(HasDanglingServices(list.value));
  }

  method Run(host: Host, kv: KvClient, codec: Codec, run: Env.Run, encode: JobsCodec, project: Project, choice: Choice)
      returns (c: CommandEnd, ghost version: string, ghost current: string, ghost r: Record)
    requires host.Valid() && kv.Valid() && LawfulCodec(codec)
    modifies host, kv
    ensures !r.silent ==> Sound(host, old(host.w), old(host.trace), project.name)
    ensures r.silent ==> AllAstray(host, old(host.w), old(host.trace), project.name)
    ensures UniqueTags(old(host.w).images) ==> UniqueTags(host.w.images)
    ensures c.NoVersion? ==> host.w == old(host.w) && host.trace == old(host.trace) && kv.table == old(kv.table)
    ensures c.DeployFailed? ==> EndsIn(old(host.w), host.w, project, version, encode, c.end, r)
    ensures c.NotListed? || c.Done? ==> EndsIn(old(host.w), host.w, project, version, encode, Deployed, r)
    ensures choice.Explicit? && !c.NoVersion? ==> version == choice.version
    ensures choice.Build? && !c.NoVersion? ==> choice.built == Some(version)
    ensures choice.Current? && !c.NoVersion? ==> CurrentOf(old(host.w), project.name, version)
    ensures choice.Rollback? && !c.NoVersion? ==> CurrentOf(old(host.w), project.name, current)
    ensures choice.Rollback? && !c.NoVersion? && UniqueTags(old(host.w).images) ==>
              Rollbacks.SelectsRollback(old(host.w).images, project.image, current, version)
    ensures choice.Rollback? && (c.NotListed? || c.Done?) && CanTrackVersions(old(host.w), project) ==>
              RolledBack(old(host.w), host.w, project, current, version)
    ensures kv.Valid() && OthersUntouched(old(kv.table), kv.table, project.name)
    ensures OtherProjectsKeep(old(kv.table), kv.table, project.name)
    ensures StoreStep(project.env, run, codec, project.name, old(kv.table), kv.table, r.stored)
    ensures c.Done? ==> ServicesValidated(project.services)
    ensures choice.Explicit? ==> !c.NoVersion?
    ensures choice.Build? ==> (c.NoVersion? <==> choice.built.None?)
    ensures c.NoVersion? && host.faults == old(host.faults) ==>
              MayFindNone(old(host.w), project.name, project.image, choice)
    ensures host.faults == old(host.faults) && kv.faults == old(kv.faults) && project.keepVersions >= 0
            && ServicesValidated(project.services)
            && CanResolve(project.env, run, codec, project.name, old(kv.table)) ==>
              c.NoVersion? || c.Done?
    ensures c.Done? ==>
              (c.warned <==> exists name :: name !in project.services
                                            && Slice(old(host.w), project.name, name) != map[])
  {
    hide Sound, EndsIn, Slice, IsListing, AllSettled, ServicesValidated, IsResolved, StoreStep, DanglingStay,
         UniqueTags, CurrentOf, RollbackImage, FullyStaffed, Matching, AllAstray, WellFormed, RolledBack,
         CanTrackVersions, Rollbacks.SelectsRollback, HookRanDrained, IsSpec, OthersUntouched, NoCurrent, MayFindNone,
         OtherProjectsKeep, CanResolve, Serving, Runs.AreForeign, Health.Healthy, LawfulCodec, Describe, Listed,
         ServicesKept, HookRun.HookDone;
    version, current := "", "";
    r := Record(NO_SPEC, map[], [], 0, map[], {}, Drain([], "", {}), host.w, false);
    ghost var a, was := host.w, host.trace;
    SoundStarts(host, project.name);
    var chosen;
    ghost var order;
    chosen, order, current := ChooseVersion(host, project.name, project.image, choice);
    NothingStored(project.env, run, codec, project.name, kv.table, r.stored);
    if !chosen.Ok? {
      return NoVersion, version, current, r;
    }
    version := chosen.value;
    assert CanTrackVersions(a, project) ==> UniqueTags(a.images) by { TrackedAreUnique(a, project); }
    if choice.Rollback? && UniqueTags(a.images) {
      Selected(a.images, project.image, order, current, version);
    }
    var end;
    end, r := Deploy(host, kv, codec, run, encode, project, chosen.value);
    if !end.Deployed? {
      return DeployFailed(end), version, current, r;
    }
    EndIsValid(host, a, was, project.name, r.silent);
    if choice.Rollback? && CanTrackVersions(a, project) {
      DeployedIsRolledBack(a, host.w, project, version, encode, r, current);
    }
    c := LookAtServices(host, project, a);
  }

  lemma NothingStored(spec: Env.Spec, run: Env.Run, codec: Codec, project: string, table: Table, stored: Vars)
    ensures OthersUntouched(table, table, project) && OtherProjectsKeep(table, table, project)
    ensures StoreStep(spec, run, codec, project, table, table, stored)
  {
  }

  lemma Selected(images: Images, repo: string, order: seq<nat>, current: string, version: string)
    requires IsListing(images, repo, order) && RollbackImage(images, repo, order, current).Some?
    requires var id := RollbackImage(images, repo, order, current).value;
             id in images && Matching(images[id].tags, repo) != []
               && version == Describe(images[id], repo, current).name
    ensures Rollbacks.SelectsRollback(images, repo, current, version)
  {
  }
}

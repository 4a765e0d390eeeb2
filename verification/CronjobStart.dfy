/** The two cronjob containers, created and started in order. */
module CronjobStart {
  import opened Text
  import opened Names
  import opened Docker
  import opened Frames
  import opened Fleet

  /** JSON of the container the jobs run in and of the jobs. */
  type JobsCodec = (nat, seq<string>) -> string

  const SCHEDULER_IMAGE := "ghcr.io/shyim/tanjun/scheduler:v1"

  function CronjobBlueprint(spec: AppSpec, random: nat): Blueprint {
    Blueprint(Name(spec.project, SchedulerContainer(random)), CronjobLabels(spec.project), spec.image,
              [], spec.env, AppMounts(spec))
  }

  function SchedulerBlueprint(project: string, jobs: string, random: nat): Blueprint {
    Blueprint(Name(project, SchedulerContainer(random)), SchedulerLabels(project), SCHEDULER_IMAGE,
              [], {"SCHEDULER_CONFIG=" + jobs}, map[Name(project, SchedulerVolume) := VolumeLabels(project)])
  }

  /** Nothing but cronjob containers of the project was added. */
  ghost predicate OnlyCronjobsChange(a: World, b: World, project: string) {
    && Apps(b, project) == Apps(a, project) && Workers(b, project) == Workers(a, project)
    && Services(b, project) == Services(a, project)
  }

  /** The container was made from the blueprint and runs. */
  ghost predicate IsMade(w: World, id: nat, b: Blueprint) {
    && id in w.containers && w.containers[id].running
    && w.containers[id].labels == b.labels && w.containers[id].image == b.image && w.containers[id].env == b.env
    && w.containers[id].mounts == b.mounts.Keys
  }

  /** One container with the deployed image, and one scheduler that runs the jobs in it. */
  ghost predicate AreCronjobs(w: World, spec: AppSpec, cronjobs: seq<string>, encode: JobsCodec, started: set<nat>) {
    exists app, scheduler, random ::
      && app != scheduler && started == {app, scheduler}
      && IsMade(w, app, CronjobBlueprint(spec, random))
      && IsMade(w, scheduler, SchedulerBlueprint(spec.project, encode(app, cronjobs), random))
  }

  method AddCronjob(host: Host, b: Blueprint, ghost a: World, ghost was: seq<World>, ghost project: string)
      returns (id: Option<nat>)
    requires Progress(host, a, was, project, {}, {})
    requires OneRole(b.labels) && OfProject(b.labels, project) && CronjobLabel in b.labels
    requires HasTag(host.w.images, b.image)
    modifies host
    ensures Progress(host, a, was, project, {}, {})
    ensures host.faults >= old(host.faults) && (id.Some? <==> host.faults == old(host.faults))
    ensures OnlyCronjobsChange(old(host.w), host.w, project) && host.w.images == old(host.w).images
    ensures id.Some? ==> id.value !in old(host.w).containers && id.value !in a.containers
    ensures id.Some? ==> Cronjobs(host.w, project) == Cronjobs(old(host.w), project) + {id.value}
    ensures id.Some? ==> IsMade(host.w, id.value, b)
    ensures forall other | other in old(host.w).containers ::
              other in host.w.containers && host.w.containers[other] == old(host.w).containers[other]
  {
    ghost var w := host.w;
    id := CreateAndStart(host, b, a, was, project);
    if host.w != w {
      AdditionRoles(w, host.w, b, project);
    }
  }

  lemma CronjobLabelsFit(project: string)
    ensures OneRole(CronjobLabels(project)) && OfProject(CronjobLabels(project), project)
    ensures CronjobLabel in CronjobLabels(project)
    ensures OneRole(SchedulerLabels(project)) && OfProject(SchedulerLabels(project), project)
    ensures CronjobLabel in SchedulerLabels(project)
  {
  }

  lemma OnlyCronjobsChangeTwice(a: World, b: World, c: World, d: World, project: string)
    requires OnlyCronjobsChange(a, b, project) && OnlyCronjobsChange(c, d, project) && c.containers == b.containers
    ensures OnlyCronjobsChange(a, d, project) && OnlyCronjobsChange(a, c, project)
    ensures Cronjobs(c, project) == Cronjobs(b, project)
  {
    SameContainersSameRoles(b, c, project);
  }

  /** One of the two has the deployed image and environment; the other one is the scheduler and is told the
      id of the first and the jobs. */
  lemma CronjobsAre(w: World, spec: AppSpec, cronjobs: seq<string>, encode: JobsCodec, started: set<nat>)
      returns (app: nat, scheduler: nat)
    requires AreCronjobs(w, spec, cronjobs, encode, started)
    ensures app != scheduler && started == {app, scheduler} && started <= w.containers.Keys
    ensures var c := w.containers[app];
            c.running && c.image == spec.image && c.env == spec.env && c.mounts == MountedVolumes(spec)
              && LabelOr(c.labels, CronjobLabel) == Some("app")
    ensures var c := w.containers[scheduler];
            c.running && c.image == "ghcr.io/shyim/tanjun/scheduler:v1"
              && c.env == {"SCHEDULER_CONFIG=" + encode(app, cronjobs)}
              && c.mounts == {"tanjun_" + spec.project + "_scheduler_data"}
              && LabelOr(c.labels, CronjobLabel) == Some("scheduler")
  {
    hide Name, AppMounts, MountedVolumes;
    var random;
    app, scheduler, random :|
      && app != scheduler && started == {app, scheduler}
      && IsMade(w, app, CronjobBlueprint(spec, random))
      && IsMade(w, scheduler, SchedulerBlueprint(spec.project, encode(app, cronjobs), random));
    SchedulerVolumeName(spec.project);
    AppMountsAre(spec);
  }

  lemma SchedulerVolumeName(project: string)
    ensures Name(project, SchedulerVolume) == "tanjun_" + project + "_scheduler_data"
  {
  }

  lemma CronjobCount(w: World, spec: AppSpec, cronjobs: seq<string>, encode: JobsCodec, started: set<nat>)
    requires AreCronjobs(w, spec, cronjobs, encode, started)
    ensures |started| == 2 && AllRunning(w, started, true)
  {
  }

  lemma BothMade(w: World, spec: AppSpec, cronjobs: seq<string>, encode: JobsCodec, app: nat, scheduler: nat,
                 random: nat, another: nat)
    requires app != scheduler && IsMade(w, app, CronjobBlueprint(spec, random))
    requires IsMade(w, scheduler, SchedulerBlueprint(spec.project, encode(app, cronjobs), another))
    ensures AreCronjobs(w, spec, cronjobs, encode, {app, scheduler})
  {
    assert IsMade(w, scheduler, SchedulerBlueprint(spec.project, encode(app, cronjobs), random));
  }

  method StartCronjobs(host: Host, spec: AppSpec, cronjobs: seq<string>, encode: JobsCodec)
      returns (ok: bool, ghost started: set<nat>)
    requires host.Valid() && HasTag(host.w.images, spec.image)
    modifies host
    ensures Progress(host, old(host.w), old(host.trace), spec.project, {}, {})
    ensures host.faults >= old(host.faults) && (ok <==> host.faults == old(host.faults))
    ensures OnlyCronjobsChange(old(host.w), host.w, spec.project)
    ensures GrowBy(old(host.w).images, host.w.images, {SCHEDULER_IMAGE})
    ensures ok ==> Cronjobs(host.w, spec.project) == Cronjobs(old(host.w), spec.project) + started
    ensures ok ==> started !! old(host.w).containers.Keys
    ensures ok ==> if cronjobs == [] then started == {} else AreCronjobs(host.w, spec, cronjobs, encode, started)
  {
    hide Within, Stays, WellFormed, Listed, Name, Progress, AreCronjobs, AppMounts, GrowBy, HasTag;
    started := {};
    ghost var a, was, p := host.w, host.trace, spec.project;
    ProgressStarts(host, p, {}, {});
    GrowByNothing(a.images, {SCHEDULER_IMAGE});
    if cronjobs == [] {
      return true, started;
    }
    var random := RandomSuffix();
    CronjobLabelsFit(p);
    var first := AddCronjob(host, CronjobBlueprint(spec, random), a, was, p);
    if first.None? {
      return false, started;
    }
    ghost var w1 := host.w;
    ok := PullWithin(host, SCHEDULER_IMAGE, a, was, p, {}, {});
    OnlyCronjobsChangeTwice(a, w1, host.w, host.w, p);
    if !ok {
      return;
    }
    ghost var w2 := host.w;
    var anotherRandom := RandomSuffix();
    var second := AddCronjob(host, SchedulerBlueprint(spec.project, encode(first.value, cronjobs), anotherRandom), a,
                              was, p);
    OnlyCronjobsChangeTwice(a, w1, w2, host.w, p);
    if second.None? {
      return false, started;
    }
    started := {first.value, second.value};
    BothMade(host.w, spec, cronjobs, encode, first.value, second.value, random, anotherRandom);
  }
}

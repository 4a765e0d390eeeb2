/** The last part of a deployment, after the route was switched: the old containers are removed, new
    workers and cronjobs started, and the post-deploy hook runs. */
module DeployFinish {
  import opened Docker
  import opened Frames
  import opened Fleet
  import opened Config
  import opened WorkerStart
  import opened CronjobStart
  import opened HookRun
  import opened Handover
  import Versions

  lemma RemovedListings(a: World, b: World, ids: set<nat>, project: string)
    requires OnlyRemoved(a, b, ids) && AllGone(b, ids)
    ensures Apps(b, project) == Apps(a, project) - ids && Workers(b, project) == Workers(a, project) - ids
    ensures Cronjobs(b, project) == Cronjobs(a, project) - ids && Services(b, project) == Services(a, project) - ids
  {
  }

  lemma RemovalKeepsImages(a: World, b: World, ids: set<nat>)
    requires OnlyRemoved(a, b, ids)
    ensures b.images == a.images && GrowBy(a.images, b.images, {SCHEDULER_IMAGE})
    ensures UnchangedOrGone(a, b, ids)
  {
  }

  lemma RemovalSince(trace: seq<World>, from: nat, a: World, ids: set<nat>)
    requires OnlyRemovedSince(trace, from, a, ids)
    ensures UnchangedOrGoneSince(trace, from, a, ids)
  {
    hide OnlyRemoved;
    forall k | from <= k < |trace| ensures UnchangedOrGone(a, trace[k], ids) {
      RemovalKeepsImages(a, trace[k], ids);
    }
  }

  lemma UnchangedLater(a: World, w: World, v: World, project: string, ids: set<nat>)
    requires WellFormed(a) && OnlyRemoved(a, w, ids) && Within(w, v, project, {}, {})
    ensures UnchangedOrGone(a, v, ids)
  {
    hide Versions.UniqueTags, ImagesGrow;
  }

  lemma UnchangedToTheEnd(host: Host, a: World, was: seq<World>, w: World, middle: seq<World>, project: string,
                          ids: set<nat>)
    requires WellFormed(a) && OnlyRemoved(a, w, ids) && was <= middle && UnchangedOrGoneSince(middle, |was|, a, ids)
    requires Progress(host, w, middle, project, {}, {})
    ensures UnchangedOrGone(a, host.w, ids) && UnchangedOrGoneSince(host.trace, |was|, a, ids)
  {
    hide Within, OnlyRemoved, WellFormed, UnchangedOrGone;
    UnchangedLater(a, w, host.w, project, ids);
    forall k | |was| <= k < |host.trace| ensures UnchangedOrGone(a, host.trace[k], ids) {
      if k < |middle| {
        assert host.trace[k] == middle[k];
      } else {
        UnchangedLater(a, w, host.trace[k], project, ids);
      }
    }
  }

  lemma ServicesRemain(a: World, b: World, ids: set<nat>, project: string)
    requires OnlyRemoved(a, b, ids) && ids !! Services(a, project)
    ensures Services(b, project) == Services(a, project)
  {
  }

  /** New containers stay what they are while nothing is stopped. */
  lemma PlacedOutlive(w: World, v: World, project: string, spec: AppSpec, workers: map<string, Worker>,
                      placed: map<Task, nat>)
    requires Within(w, v, project, {}, {}) && Placed(w, spec, workers, placed)
    ensures Placed(v, spec, workers, placed) && (Running(w, placed, {}) ==> Running(v, placed, {}))
  {
    hide IsWorkerOf, Versions.UniqueTags, ImagesGrow;
  }

  lemma CronjobsOutlive(w: World, v: World, project: string, spec: AppSpec, cronjobs: seq<string>, encode: JobsCodec,
                        started: set<nat>)
    requires Within(w, v, project, {}, {}) && AreCronjobs(w, spec, cronjobs, encode, started)
    ensures AreCronjobs(v, spec, cronjobs, encode, started)
  {
    hide Versions.UniqueTags, ImagesGrow, CronjobBlueprint, SchedulerBlueprint;
    var app, scheduler, random :|
      && app != scheduler && started == {app, scheduler}
      && IsMade(w, app, CronjobBlueprint(spec, random))
      && IsMade(w, scheduler, SchedulerBlueprint(spec.project, encode(app, cronjobs), random));
    assert IsMade(v, app, CronjobBlueprint(spec, random));
    assert IsMade(v, scheduler, SchedulerBlueprint(spec.project, encode(app, cronjobs), random));
  }

  /** Which containers there are when the old ones in `gone` have been replaced. */
  ghost predicate Replacement(a: World, w: World, project: string, gone: set<nat>, placed: map<Task, nat>,
                              started: set<nat>) {
    && Apps(w, project) == Apps(a, project) - gone && Services(w, project) == Services(a, project) - gone
    && Workers(w, project) == (Workers(a, project) - gone) + placed.Values
    && Cronjobs(w, project) == (Cronjobs(a, project) - gone) + started
  }

  /** The workers and cronjobs the configuration asks for. */
  ghost predicate Staffed(w: World, spec: AppSpec, project: Project, encode: JobsCodec, placed: map<Task, nat>,
                          started: set<nat>) {
    && placed.Keys <= Tasks(project.workers) && Placed(w, spec, project.workers, placed)
    && if project.cronjobs == [] then started == {} else AreCronjobs(w, spec, project.cronjobs, encode, started)
  }

  ghost predicate FullyStaffed(w: World, project: Project, placed: map<Task, nat>) {
    placed.Keys == Tasks(project.workers) && Running(w, placed, {})
  }

  lemma StaffOutlives(w: World, v: World, spec: AppSpec, project: Project, encode: JobsCodec, placed: map<Task, nat>,
                      started: set<nat>)
    requires Within(w, v, spec.project, {}, {}) && Staffed(w, spec, project, encode, placed, started)
    ensures Staffed(v, spec, project, encode, placed, started)
    ensures FullyStaffed(w, project, placed) ==> FullyStaffed(v, project, placed)
  {
    hide Within, Placed, AreCronjobs, Running, Tasks;
    PlacedOutlive(w, v, spec.project, spec, project.workers, placed);
    if project.cronjobs != [] {
      CronjobsOutlive(w, v, spec.project, spec, project.cronjobs, encode, started);
    }
  }

  method RunPostDeployHook(host: Host, spec: AppSpec, hook: string) returns (ok: bool)
    requires host.Valid() && HasTag(host.w.images, spec.image)
    modifies host
    ensures Progress(host, old(host.w), old(host.trace), spec.project, {}, {})
    ensures host.faults >= old(host.faults) && (ok <==> host.faults == old(host.faults))
    ensures SameRoles(old(host.w), host.w, spec.project) && host.w.images == old(host.w).images
    ensures ok ==> HookDone(host.trace, |old(host.trace)|, old(host.w).nextId, spec, hook, host.exitCode)
  {
    hide Within, Stays, HookExited, HasTag;
    ProgressStarts(host, spec.project, {}, {});
    SameContainersSameRoles(host.w, host.w, spec.project);
    if hook == "" {
      return true;
    }
    var end := RunHookInContainer(host, spec, hook);
    ok := end.Passed?;
  }

  /** Workers and cronjobs, and the hook after them. */
  method StartStaff(host: Host, spec: AppSpec, project: Project, encode: JobsCodec)
      returns (ok: bool, ghost placed: map<Task, nat>, ghost started: set<nat>)
    requires host.Valid() && spec.project == project.name && HasTag(host.w.images, spec.image)
    modifies host
    ensures Progress(host, old(host.w), old(host.trace), spec.project, {}, {}) && host.faults >= old(host.faults)
    ensures Services(host.w, spec.project) == Services(old(host.w), spec.project)
    ensures GrowBy(old(host.w).images, host.w.images, {SCHEDULER_IMAGE})
    ensures ok ==> Replacement(old(host.w), host.w, spec.project, {}, placed, started)
    ensures ok ==> Staffed(host.w, spec, project, encode, placed, started)
    ensures host.faults == old(host.faults) ==> ok && FullyStaffed(host.w, project, placed)
    ensures ok ==>
              HookDone(host.trace, |old(host.trace)|, old(host.w).nextId, spec, project.postDeployHook, host.exitCode)
  {
    hide Within, Stays, WellFormed, Listed, Placed, Running, Tasks, AreCronjobs, HookDone, GrowBy, HasTag;
    ghost var a, was, p := host.w, host.trace, spec.project;
    started := {};
    placed := StartWorkers(host, spec, project.workers);
    ghost var w, middle := host.w, host.trace;
    ok, started := StartCronjobs(host, spec, project.cronjobs, encode);
    ProgressJoins(host, a, was, w, middle, p, {}, {}, {}, {}, {}, {});
    if !ok {
      return;
    }
    PlacedOutlive(w, host.w, p, spec, project.workers, placed);
    w, middle := host.w, host.trace;
    ProgressAges(host, a, was, p, {}, {});
    GrownTags(a.images, w.images, {SCHEDULER_IMAGE}, spec.image);
    assert Staffed(w, spec, project, encode, placed, started);
    assert Replacement(a, w, p, {}, placed, started);
    ok := RunPostDeployHook(host, spec, project.postDeployHook);
    if ok {
      HookStillDone(host.trace, host.trace, |middle|, |was|, w.nextId, a.nextId, spec, project.postDeployHook,
                    host.exitCode);
    }
    ProgressJoins(host, a, was, w, middle, p, {}, {}, {}, {}, {}, {});
    StaffOutlives(w, host.w, spec, project, encode, placed, started);
  }

  /** Everything between the switched route and the image drain. */
  method ReplaceContainers(host: Host, spec: AppSpec, project: Project, encode: JobsCodec, gone: set<nat>)
      returns (ok: bool, ghost placed: map<Task, nat>, ghost started: set<nat>)
    requires host.Valid() && spec.project == project.name && gone !! Services(host.w, spec.project)
    requires gone <= host.w.containers.Keys && HasTag(host.w.images, spec.image)
    modifies host
    ensures Progress(host, old(host.w), old(host.trace), spec.project, gone, {}) && host.faults >= old(host.faults)
    ensures Services(host.w, spec.project) == Services(old(host.w), spec.project)
    ensures GrowBy(old(host.w).images, host.w.images, {SCHEDULER_IMAGE})
    ensures UnchangedOrGone(old(host.w), host.w, gone)
    ensures UnchangedOrGoneSince(host.trace, |old(host.trace)|, old(host.w), gone)
    ensures ok ==> Replacement(old(host.w), host.w, spec.project, gone, placed, started)
    ensures ok ==> Staffed(host.w, spec, project, encode, placed, started)
    ensures host.faults == old(host.faults) ==> ok && FullyStaffed(host.w, project, placed)
    ensures ok ==>
              HookDone(host.trace, |old(host.trace)|, old(host.w).nextId, spec, project.postDeployHook, host.exitCode)
  {
    hide Within, Stays, WellFormed, Listed, Staffed, FullyStaffed, OnlyRemoved, AllGone, HookDone, GrowBy, HasTag,
         UnchangedOrGone, UnchangedOrGoneSince;
    ghost var a, was, p := host.w, host.trace, spec.project;
    placed, started := map[], {};
    ok := RemoveContainers(host, gone);
    RemovalKeepsImages(a, host.w, gone);
    RemovalSince(host.trace, |was|, a, gone);
    ServicesRemain(a, host.w, gone, p);
    OnlyRemovedWithin(a, host.w, gone, p);
    OnlyRemovedSinceStays(host.trace, |was|, a, gone, p);
    if !ok {
      return;
    }
    ProgressAges(host, a, was, p, gone, {});
    RemovedListings(a, host.w, gone, p);
    ghost var w, middle := host.w, host.trace;
    ok, placed, started := StartStaff(host, spec, project, encode);
    UnchangedToTheEnd(host, a, was, w, middle, p, gone);
    if ok {
      HookStillDone(host.trace, host.trace, |middle|, |was|, w.nextId, a.nextId, spec, project.postDeployHook,
                    host.exitCode);
    }
    ProgressJoins(host, a, was, w, middle, p, gone, {}, {}, {}, gone, {});
  }
}

/** What the parts of a deployment share: the labels they write, fan-outs over containers in an order
    left open, and calls that stay within a frame. */
module Fleet {
  import opened Text
  import opened Names
  import opened Docker
  import opened Frames

  // Labels.

  function BaseLabels(project: string): Labels {
    map[Tanjun := "true", ProjectLabel := project, ComposeProject := Prefix(project)]
  }

  function AppLabels(project: string): Labels {
    BaseLabels(project)[AppLabel := "true"][ComposeService := "web"][OtherLabel("traefik.enable") := "true"]
  }

  function WorkerLabels(project: string, worker: string): Labels {
    BaseLabels(project)[WorkerLabel := worker][ComposeService := worker]
  }

  function CronjobLabels(project: string): Labels {
    BaseLabels(project)[CronjobLabel := "app"][OtherLabel("ofelia.enabled") := "true"]
  }

  function SchedulerLabels(project: string): Labels {
    BaseLabels(project)[CronjobLabel := "scheduler"][ComposeService := "scheduler"]
  }

  function HookLabels(project: string): Labels {
    BaseLabels(project)[ComposeService := "hook"]
  }

  function VolumeLabels(project: string): Labels {
    map[Tanjun := "true", ProjectLabel := project]
  }

  /** What every container made from the application image shares. */
  datatype AppSpec = AppSpec(project: string, image: string, env: set<string>, mounts: map<string, string>)

  /** `addAppServerVolumes`: mounts without a path are skipped. */
  function AppMounts(spec: AppSpec): map<string, Labels> {
    map m | m in MountedVolumes(spec) :: VolumeLabels(spec.project)
  }

  function MountedVolumes(spec: AppSpec): set<string> {
    set m | m in spec.mounts && spec.mounts[m] != "" :: Name(spec.project, AppVolume(m))
  }

  /** The volumes of the configured mounts that have a path, by name. */
  lemma AppMountsAre(spec: AppSpec)
    ensures AppMounts(spec).Keys == MountedVolumes(spec)
  {
  }

  lemma MountedVolumesAre(spec: AppSpec)
    ensures MountedVolumes(spec)
         == set m | m in spec.mounts && spec.mounts[m] != "" :: "tanjun_" + spec.project + "_app_" + m
  {
    forall m ensures Name(spec.project, AppVolume(m)) == "tanjun_" + spec.project + "_app_" + m {
      AppVolumeName(spec.project, m);
    }
  }

  lemma AppVolumeName(project: string, mount: string)
    ensures Name(project, AppVolume(mount)) == "tanjun_" + project + "_app_" + mount
  {
    var prefix := "tanjun_" + project;
    assert "_" + "app_" == "_app_";
    assert prefix + "_" + ("app_" + mount) == prefix + ("_" + "app_") + mount;
  }

  method RandomSuffix() returns (n: nat)
    ensures n < 1000000
  {
    n :| 0 <= n < 1000000;
  }

  // Fan-outs.

  /** Same containers, and apart from `ids` in the same state. */
  ghost predicate OnlyRunning(a: World, b: World, ids: set<nat>) {
    && b == a.(containers := b.containers)
    && b.containers.Keys == a.containers.Keys
    && (forall id | id in a.containers :: SameButRunning(a.containers[id], b.containers[id]))
    && (forall id | id in a.containers && id !in ids :: b.containers[id] == a.containers[id])
  }

  lemma OnlyRunningRoles(a: World, b: World, ids: set<nat>, project: string)
    requires OnlyRunning(a, b, ids)
    ensures SameRoles(a, b, project)
  {
    assert forall id | id in a.containers :: b.containers[id].labels == a.containers[id].labels;
  }

  lemma NothingChanged(a: World, ids: set<nat>)
    ensures OnlyStopped(a, a, ids) && OnlyStarted(a, a, ids) && OnlyRemoved(a, a, ids)
  {
  }

  /** Same containers, some of `ids` stopped. */
  ghost predicate OnlyStopped(a: World, b: World, ids: set<nat>) {
    && OnlyRunning(a, b, ids)
    && forall id | id in a.containers && b.containers[id].running :: a.containers[id].running
  }

  lemma OnlyStoppedStep(a: World, w: World, ids: set<nat>, id: nat)
    requires OnlyStopped(a, w, ids) && id in ids && id in w.containers
    ensures OnlyStopped(a, SetRunning(w, id, false), ids)
    ensures SetRunning(w, id, false).containers.Keys == w.containers.Keys
  {
  }

  lemma OnlyStoppedWithin(a: World, b: World, ids: set<nat>, project: string)
    requires OnlyStopped(a, b, ids)
    ensures Within(a, b, project, ids, {})
  {
  }

  ghost predicate OnlyStoppedSince(trace: seq<World>, from: nat, a: World, ids: set<nat>) {
    forall k | from <= k < |trace| :: OnlyStopped(a, trace[k], ids)
  }

  lemma OnlyStoppedSinceStays(trace: seq<World>, from: nat, a: World, ids: set<nat>, project: string)
    requires OnlyStoppedSince(trace, from, a, ids)
    ensures Stays(trace, from, a, project, ids, {})
  {
    forall k | from <= k < |trace| ensures Within(a, trace[k], project, ids, {}) {
      OnlyStoppedWithin(a, trace[k], ids, project);
    }
  }

  ghost predicate AllRunning(w: World, ids: set<nat>, running: bool) {
    forall id | id in ids :: id in w.containers && w.containers[id].running == running
  }

  lemma AllRunningStep(w: World, ids: set<nat>, id: nat, running: bool)
    requires id in w.containers
    ensures AllRunning(w, ids, running) ==> AllRunning(SetRunning(w, id, running), ids + {id}, running)
  {
  }

  method StopContainers(host: Host, ids: set<nat>) returns (ok: bool)
    requires host.Valid() && ids <= host.w.containers.Keys
    modifies host
    ensures host.Valid() && old(host.trace) <= host.trace && host.faults >= old(host.faults)
    ensures ok <==> host.faults == old(host.faults)
    ensures OnlyStopped(old(host.w), host.w, ids)
    ensures OnlyStoppedSince(host.trace, |old(host.trace)|, old(host.w), ids)
    ensures ok ==> AllRunning(host.w, ids, false)
  {
    hide OnlyRunning, OnlyStopped, OnlyStarted, OnlyRemoved, WellFormed;
    var left := ids;
    ghost var before := host.w;
    NothingChanged(before, ids);
    ok := true;
    while left != {}
      invariant left <= ids && host.w.containers.Keys == before.containers.Keys
      invariant host.Valid() && old(host.trace) <= host.trace
      invariant host.faults >= old(host.faults) && (ok <==> host.faults == old(host.faults))
      invariant OnlyStopped(before, host.w, ids)
      invariant OnlyStoppedSince(host.trace, |old(host.trace)|, before, ids)
      invariant ok ==> AllRunning(host.w, ids - left, false)
      decreases |left|
    {
      var id :| id in left;
      ghost var w := host.w;
      var stopped := host.ContainerStop(id);
      if stopped {
        OnlyStoppedStep(before, w, ids, id);
        AllRunningStep(w, ids - left, id, false);
      }
      ok := ok && stopped;
      assert ids - left + {id} == ids - (left - {id});
      left := left - {id};
    }
    assert ids - left == ids;
  }

  /** Same containers, some of `ids` started. */
  ghost predicate OnlyStarted(a: World, b: World, ids: set<nat>) {
    && OnlyRunning(a, b, ids)
    && forall id | id in a.containers && a.containers[id].running :: b.containers[id].running
  }

  lemma OnlyStartedStep(a: World, w: World, ids: set<nat>, id: nat)
    requires OnlyStarted(a, w, ids) && id in ids && id in w.containers
    ensures OnlyStarted(a, SetRunning(w, id, true), ids)
    ensures SetRunning(w, id, true).containers.Keys == w.containers.Keys
  {
  }

  ghost predicate OnlyStartedSince(trace: seq<World>, from: nat, a: World, ids: set<nat>) {
    forall k | from <= k < |trace| :: OnlyStarted(a, trace[k], ids)
  }

  method StartContainers(host: Host, ids: set<nat>) returns (ok: bool)
    requires host.Valid() && ids <= host.w.containers.Keys
    modifies host
    ensures host.Valid() && old(host.trace) <= host.trace && host.faults >= old(host.faults)
    ensures ok <==> host.faults == old(host.faults)
    ensures OnlyStarted(old(host.w), host.w, ids)
    ensures OnlyStartedSince(host.trace, |old(host.trace)|, old(host.w), ids)
    ensures ok ==> AllRunning(host.w, ids, true)
  {
    hide OnlyRunning, OnlyStarted, OnlyRemoved, WellFormed;
    var left := ids;
    ghost var before := host.w;
    NothingChanged(before, ids);
    ok := true;
    while left != {}
      invariant left <= ids && host.w.containers.Keys == before.containers.Keys
      invariant host.Valid() && old(host.trace) <= host.trace
      invariant host.faults >= old(host.faults) && (ok <==> host.faults == old(host.faults))
      invariant OnlyStarted(before, host.w, ids)
      invariant OnlyStartedSince(host.trace, |old(host.trace)|, before, ids)
      invariant ok ==> AllRunning(host.w, ids - left, true)
      decreases |left|
    {
      var id :| id in left;
      ghost var w := host.w;
      var started := host.ContainerStart(id);
      if started {
        OnlyStartedStep(before, w, ids, id);
        AllRunningStep(w, ids - left, id, true);
      }
      ok := ok && started;
      assert ids - left + {id} == ids - (left - {id});
      left := left - {id};
    }
    assert ids - left == ids;
  }

  /** Same as before except that some of `ids` are gone. */
  ghost predicate OnlyRemoved(a: World, b: World, ids: set<nat>) {
    && b == a.(containers := b.containers)
    && (forall id | id in b.containers :: id in a.containers && b.containers[id] == a.containers[id])
    && (forall id | id in a.containers && id !in ids :: id in b.containers)
  }

  lemma OnlyRemovedStep(a: World, w: World, ids: set<nat>, id: nat)
    requires OnlyRemoved(a, w, ids) && id in ids
    ensures OnlyRemoved(a, Removed(w, id), ids)
  {
  }

  lemma OnlyRemovedWithin(a: World, b: World, ids: set<nat>, project: string)
    requires OnlyRemoved(a, b, ids)
    ensures Within(a, b, project, ids, {})
  {
  }

  ghost predicate OnlyRemovedSince(trace: seq<World>, from: nat, a: World, ids: set<nat>) {
    forall k | from <= k < |trace| :: OnlyRemoved(a, trace[k], ids)
  }

  lemma OnlyRemovedSinceStays(trace: seq<World>, from: nat, a: World, ids: set<nat>, project: string)
    requires OnlyRemovedSince(trace, from, a, ids)
    ensures Stays(trace, from, a, project, ids, {})
  {
    forall k | from <= k < |trace| ensures Within(a, trace[k], project, ids, {}) {
      OnlyRemovedWithin(a, trace[k], ids, project);
    }
  }

  ghost predicate AllGone(w: World, ids: set<nat>) {
    forall id | id in ids :: id !in w.containers
  }

  method RemoveContainers(host: Host, ids: set<nat>) returns (ok: bool)
    requires host.Valid() && ids <= host.w.containers.Keys
    modifies host
    ensures host.Valid() && old(host.trace) <= host.trace && host.faults >= old(host.faults)
    ensures ok <==> host.faults == old(host.faults)
    ensures OnlyRemoved(old(host.w), host.w, ids)
    ensures OnlyRemovedSince(host.trace, |old(host.trace)|, old(host.w), ids)
    ensures ok ==> AllGone(host.w, ids)
  {
    hide OnlyRunning, OnlyStarted, OnlyRemoved, WellFormed;
    var left := ids;
    ghost var before := host.w;
    NothingChanged(before, ids);
    ok := true;
    while left != {}
      invariant left <= ids && left <= host.w.containers.Keys
      invariant host.Valid() && old(host.trace) <= host.trace
      invariant host.faults >= old(host.faults) && (ok <==> host.faults == old(host.faults))
      invariant OnlyRemoved(before, host.w, ids)
      invariant OnlyRemovedSince(host.trace, |old(host.trace)|, before, ids)
      invariant ok ==> AllGone(host.w, ids - left)
      decreases |left|
    {
      var id :| id in left;
      ghost var w := host.w;
      var removed := host.ContainerRemove(id, true);
      if removed { OnlyRemovedStep(before, w, ids, id); }
      ok := ok && removed;
      left := left - {id};
    }
    assert ids - left == ids;
  }

  // What ran on the way.

  ghost predicate RunsIn(w: World, id: nat, image: string, cmd: seq<string>, env: set<string>, mounts: set<string>) {
    && id in w.containers && w.containers[id].running
    && w.containers[id].image == image && w.containers[id].cmd == cmd && w.containers[id].env == env
    && w.containers[id].mounts == mounts
  }

  /** In some state from an index on, the container was running the command. */
  ghost predicate Ran(trace: seq<World>, from: nat, id: nat, image: string, cmd: seq<string>, env: set<string>,
                      mounts: set<string>) {
    exists k :: from <= k < |trace| && RunsIn(trace[k], id, image, cmd, env, mounts)
  }

  lemma RanStill(was: seq<World>, now: seq<World>, from: nat, earlier: nat, id: nat, image: string,
                 cmd: seq<string>, env: set<string>, mounts: set<string>)
    requires was <= now && earlier <= from && Ran(was, from, id, image, cmd, env, mounts)
    ensures Ran(now, earlier, id, image, cmd, env, mounts)
  {
    var k :| from <= k < |was| && RunsIn(was[k], id, image, cmd, env, mounts);
    assert RunsIn(now[k], id, image, cmd, env, mounts);
  }

  // Calls that stay within a frame around a state `a`, reached with the trace `was`.

  ghost predicate Progress(host: Host, a: World, was: seq<World>, project: string, hurt: set<nat>, woken: set<nat>)
    reads host`w, host`trace
  {
    && host.Valid() && WellFormed(a) && was <= host.trace
    && Within(a, host.w, project, hurt, woken) && Stays(host.trace, |was|, a, project, hurt, woken)
  }

  lemma ProgressStarts(host: Host, project: string, hurt: set<nat>, woken: set<nat>)
    requires host.Valid()
    ensures Progress(host, host.w, host.trace, project, hurt, woken)
  {
    WithinReflexive(host.w, project);
    WithinWidens(host.w, host.w, project, {}, {}, hurt, woken);
  }

  /** Two stretches one after the other. */
  lemma ProgressJoins(host: Host, a: World, was: seq<World>, w: World, middle: seq<World>, project: string,
                      hurt: set<nat>, woken: set<nat>, hurt': set<nat>, woken': set<nat>,
                      allHurt: set<nat>, allWoken: set<nat>)
    requires WellFormed(a) && was <= middle
    requires Within(a, w, project, hurt, woken) && Stays(middle, |was|, a, project, hurt, woken)
    requires Progress(host, w, middle, project, hurt', woken')
    requires hurt + hurt' == allHurt && woken + woken' == allWoken
    ensures Progress(host, a, was, project, allHurt, allWoken)
  {
    hide Within, Stays, WellFormed;
    WithinTransitive(a, w, host.w, project, hurt, woken, hurt', woken');
    StaysJoins(middle, host.trace, |was|, a, w, project, hurt, woken, hurt', woken');
  }

  /** Ids only grow. */
  lemma ProgressAges(host: Host, a: World, was: seq<World>, project: string, hurt: set<nat>, woken: set<nat>)
    requires Progress(host, a, was, project, hurt, woken)
    ensures a.nextId <= host.w.nextId
  {
    hide ImagesGrow;
  }

  lemma ProgressIsWellFormed(host: Host, a: World, was: seq<World>, project: string, hurt: set<nat>, woken: set<nat>)
    requires Progress(host, a, was, project, hurt, woken)
    ensures host.Valid() && WellFormed(host.w) && WellFormed(a) && a.nextId <= host.w.nextId
  {
  }

  method CreateWithin(host: Host, b: Blueprint, ghost a: World, ghost was: seq<World>, ghost project: string,
                      ghost hurt: set<nat>, ghost woken: set<nat>)
      returns (id: Option<nat>)
    requires Progress(host, a, was, project, hurt, woken)
    requires OneRole(b.labels) && SideLabels(b.labels, project) && HasTag(host.w.images, b.image)
    modifies host
    ensures Progress(host, a, was, project, hurt, woken) && host.trace == old(host.trace) + [host.w]
    ensures host.faults == old(host.faults) + if id.Some? then 0 else 1
    ensures id.None? ==> host.w == old(host.w)
    ensures id.Some? ==> id.value == old(host.w.nextId) && id.value !in old(host.w).containers
    ensures id.Some? ==> id.value !in a.containers
    ensures id.Some? ==> host.w == Created(old(host.w), b, if b.cmd == [] then host.imageCommand(b.image) else b.cmd)
  {
    ghost var w := host.w;
    id := host.ContainerCreate(b);
    if id.Some? {
      CreatedWithin(a, w, b, if b.cmd == [] then host.imageCommand(b.image) else b.cmd, project, hurt, woken);
    }
  }

  method StartWithin(host: Host, id: nat, ghost a: World, ghost was: seq<World>, ghost project: string,
                     ghost hurt: set<nat>, ghost woken: set<nat>)
      returns (ok: bool)
    requires Progress(host, a, was, project, hurt, woken) && (id !in a.containers || id in woken)
    requires id in host.w.containers
    modifies host
    ensures Progress(host, a, was, project, hurt, woken) && host.trace == old(host.trace) + [host.w]
    ensures host.faults == old(host.faults) + if ok then 0 else 1
    ensures ok ==> id in old(host.w).containers && host.w == SetRunning(old(host.w), id, true)
    ensures !ok ==> host.w == old(host.w)
  {
    ghost var w := host.w;
    ok := host.ContainerStart(id);
    if ok {
      StartedWithin(a, w, id, project, hurt, woken);
    }
  }

  method StopWithin(host: Host, id: nat, ghost a: World, ghost was: seq<World>, ghost project: string,
                    ghost hurt: set<nat>, ghost woken: set<nat>)
      returns (ok: bool)
    requires Progress(host, a, was, project, hurt, woken) && (id !in a.containers || id in hurt)
    requires id in host.w.containers
    modifies host
    ensures Progress(host, a, was, project, hurt, woken) && host.trace == old(host.trace) + [host.w]
    ensures host.faults == old(host.faults) + if ok then 0 else 1
    ensures ok ==> id in old(host.w).containers && host.w == SetRunning(old(host.w), id, false)
    ensures !ok ==> host.w == old(host.w)
  {
    ghost var w := host.w;
    ok := host.ContainerStop(id);
    if ok {
      StoppedWithin(a, w, id, project, hurt, woken);
    }
  }

  method RemoveWithin(host: Host, id: nat, force: bool, ghost a: World, ghost was: seq<World>, ghost project: string,
                      ghost hurt: set<nat>, ghost woken: set<nat>)
      returns (ok: bool)
    requires Progress(host, a, was, project, hurt, woken) && (id !in a.containers || id in hurt)
    requires id in host.w.containers && (force || !host.w.containers[id].running)
    modifies host
    ensures Progress(host, a, was, project, hurt, woken) && host.trace == old(host.trace) + [host.w]
    ensures host.faults == old(host.faults) + if ok then 0 else 1
    ensures ok ==> id in old(host.w).containers && host.w == Removed(old(host.w), id)
    ensures !ok ==> host.w == old(host.w)
  {
    ghost var w := host.w;
    ok := host.ContainerRemove(id, force);
    if ok {
      RemovedWithin(a, w, id, project, hurt, woken);
    }
  }

  method PullWithin(host: Host, ref: string, ghost a: World, ghost was: seq<World>, ghost project: string,
                    ghost hurt: set<nat>, ghost woken: set<nat>)
      returns (ok: bool)
    requires Progress(host, a, was, project, hurt, woken)
    modifies host
    ensures Progress(host, a, was, project, hurt, woken)
    ensures host.w.containers == old(host.w).containers && host.w.volumes == old(host.w).volumes
    ensures host.faults >= old(host.faults) && (ok <==> host.faults == old(host.faults))
    ensures ok ==> HasTag(host.w.images, ref)
    ensures GrowBy(old(host.w).images, host.w.images, {ref})
    ensures HasTag(old(host.w).images, ref) ==> host.w == old(host.w)
  {
    ghost var w := host.w;
    GrowByNothing(w.images, {ref});
    ok := host.PullIfMissing(ref);
    if host.w != w {
      PulledGrowsBy(w, host.w, ref);
      PulledWithin(a, w, host.w, ref, project, hurt, woken);
    }
  }

  /** Creates a container and starts it. */
  method CreateAndStart(host: Host, b: Blueprint, ghost a: World, ghost was: seq<World>, ghost project: string)
      returns (id: Option<nat>)
    requires Progress(host, a, was, project, {}, {})
    requires OneRole(b.labels) && SideLabels(b.labels, project) && HasTag(host.w.images, b.image)
    modifies host
    ensures Progress(host, a, was, project, {}, {})
    ensures host.faults >= old(host.faults) && (id.Some? <==> host.faults == old(host.faults))
    ensures host.w == old(host.w) || IsAddition(old(host.w), host.w, b)
    ensures id.Some? ==> id.value == old(host.w.nextId) && IsAddition(old(host.w), host.w, b)
    ensures id.Some? ==> host.w.containers[id.value].running
    ensures id.Some? && b.cmd != [] ==> host.w.containers[id.value].cmd == b.cmd
    ensures |host.trace| > |old(host.trace)| && host.trace[|host.trace| - 1] == host.w
    ensures id.Some? ==> id.value !in a.containers && id.value !in old(host.w).containers
    ensures old(host.trace) <= host.trace
  {
    hide Progress, Within, Stays, WellFormed, OneRole;
    id := CreateWithin(host, b, a, was, project, {}, {});
    if id.Some? {
      var ok := StartWithin(host, id.value, a, was, project, {}, {});
      if !ok {
        id := None;
      }
    }
  }

  /** One container made from the blueprint was added, running or not. */
  ghost predicate IsAddition(w: World, after: World, b: Blueprint) {
    && w.nextId in after.containers
    && var c := after.containers[w.nextId];
    && after == w.(containers := w.containers[w.nextId := c], nextId := w.nextId + 1, volumes := b.mounts + w.volumes)
    && c.name == b.name && c.labels == b.labels && c.image == b.image && c.env == b.env && c.mounts == b.mounts.Keys
    && (b.cmd != [] ==> c.cmd == b.cmd)
  }

  lemma AdditionListed(w: World, after: World, b: Blueprint, project: string, key: LabelKey, value: Option<string>)
    requires WellFormed(w) && IsAddition(w, after, b)
    ensures Listed(after, project, key, value)
         == Listed(w, project, key, value)
            + if Carries(after.containers[w.nextId], project, key, value) then {w.nextId} else {}
  {
  }

  /** Adding a container changes only the listing of its role. */
  lemma AdditionRoles(w: World, after: World, b: Blueprint, project: string)
    requires WellFormed(w) && IsAddition(w, after, b)
    ensures AppLabel !in b.labels ==> Apps(after, project) == Apps(w, project)
    ensures WorkerLabel !in b.labels ==> Workers(after, project) == Workers(w, project)
    ensures CronjobLabel !in b.labels ==> Cronjobs(after, project) == Cronjobs(w, project)
    ensures ServiceLabel !in b.labels ==> Services(after, project) == Services(w, project)
    ensures OfProject(b.labels, project) && CronjobLabel in b.labels ==>
              Cronjobs(after, project) == Cronjobs(w, project) + {w.nextId}
    ensures OfProject(b.labels, project) && WorkerLabel in b.labels ==>
              Workers(after, project) == Workers(w, project) + {w.nextId}
    ensures OfProject(b.labels, project) && LabelOr(b.labels, AppLabel) == Some("true") ==>
              Apps(after, project) == Apps(w, project) + {w.nextId}
  {
    AdditionListed(w, after, b, project, AppLabel, Some("true"));
    AdditionListed(w, after, b, project, WorkerLabel, None);
    AdditionListed(w, after, b, project, CronjobLabel, None);
    AdditionListed(w, after, b, project, ServiceLabel, None);
  }

  lemma AdditionRemoved(w: World, after: World, b: Blueprint, project: string)
    requires WellFormed(w) && IsAddition(w, after, b)
    requires AppLabel !in b.labels && WorkerLabel !in b.labels && CronjobLabel !in b.labels && ServiceLabel !in b.labels
    ensures SameRoles(w, after, project) && SameRoles(w, Removed(after, w.nextId), project)
    ensures Removed(after, w.nextId).containers == w.containers
  {
    AdditionRoles(w, after, b, project);
    assert Removed(after, w.nextId).containers == w.containers;
    SameContainersSameRoles(w, Removed(after, w.nextId), project);
  }

  lemma SameContainersSameRoles(w: World, after: World, project: string)
    requires after.containers == w.containers
    ensures SameRoles(w, after, project)
  {
  }

  lemma OfProjectIsSide(labels: Labels, project: string)
    requires OfProject(labels, project) && AppLabel !in labels
    ensures SideLabels(labels, project)
  {
  }

  lemma CreatedIsAddition(w: World, b: Blueprint, cmd: seq<string>)
    requires b.cmd != [] ==> cmd == b.cmd
    ensures IsAddition(w, Created(w, b, cmd), b)
  {
  }
}

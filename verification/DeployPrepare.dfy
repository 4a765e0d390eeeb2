/** The first part of a deployment, up to the resolved environment: nothing here touches the
    application, its workers or its cronjobs. */
module DeployPrepare {
  import opened Text
  import opened Names
  import opened Docker
  import opened Frames
  import opened Fleet
  import opened Config
  import opened Kv
  import opened Secrets
  import opened ServiceStart
  import AppVolumes
  import Settings
  import Env
  import Versions
  import CronjobStart

  /** A stretch that keeps the role listings and stops nothing keeps the containers of every service. */
  lemma SameSlices(a: World, b: World, project: string, name: string)
    requires WellFormed(a) && Within(a, b, project, {}, {}) && Services(b, project) == Services(a, project)
    ensures Slice(b, project, name) == Slice(a, project, name)
  {
    hide Versions.UniqueTags, ImagesGrow;
    FoundIsService(a, project, name);
    FoundIsService(b, project, name);
    SliceKeys(a, project, name);
    SliceKeys(b, project, name);
    forall id | id in Services(a, project) ensures id in b.containers && b.containers[id] == a.containers[id] {
    }
  }

  lemma SliceKeys(w: World, project: string, name: string)
    ensures Slice(w, project, name).Keys
         == set id | id in Services(w, project) && w.containers[id].labels[ServiceLabel] == name
  {
  }

  /** The references a deployment may pull beside the one it deploys. */
  function SideImages(services: map<string, Service>): set<string> {
    {AppVolumes.ALPINE, CronjobStart.SCHEDULER_IMAGE} + ServiceImages(services)
  }

  /** All references a deployment may pull: the deployed one only when it is not there yet. */
  function Pulls(images: Images, services: map<string, Service>, ref: string): set<string> {
    SideImages(services) + if HasTag(images, ref) then {} else {ref}
  }

  /** The project's network is there, or one that was mistaken for it: its name contains the project's. */
  ghost predicate NetworkReady(networks: set<string>, project: string) {
    exists n :: n in networks && Contains(n, project)
  }

  lemma NetworkStays(w: World, v: World, project: string, hurt: set<nat>)
    requires NetworkReady(w.networks, project) && Within(w, v, project, hurt, {})
    ensures NetworkReady(v.networks, project)
  {
    var n :| n in w.networks && Contains(n, project);
    assert n in v.networks;
  }

  /** `createEnvironmentNetwork`: the network is created when no name contains the project's. */
  method CreateEnvironmentNetwork(host: Host, project: string) returns (ok: bool)
    requires host.Valid()
    modifies host
    ensures Progress(host, old(host.w), old(host.trace), project, {}, {}) && SameRoles(old(host.w), host.w, project)
    ensures host.faults >= old(host.faults) && (ok <==> host.faults == old(host.faults))
    ensures host.w.images == old(host.w).images
    ensures ok ==> NetworkReady(host.w.networks, project)
    ensures ok ==> (project in host.w.networks <==>
                      project in old(host.w).networks || !exists n :: n in old(host.w).networks && Contains(n, project))
    ensures host.w.networks <= old(host.w).networks + {project}
  {
    ghost var a := host.w;
    ProgressStarts(host, project, {}, {});
    SameContainersSameRoles(a, a, project);
    var networks := host.NetworkList(project);
    if networks.None? {
      return false;
    }
    ContainsItself(project);
    if networks.value != {} {
      return true;
    }
    assert forall n | n in a.networks :: Contains(n, project) ==> n in networks.value;
    ok := host.NetworkCreate(project);
    SameContainersSameRoles(a, host.w, project);
  }

  lemma ContainsItself(s: string)
    ensures Contains(s, s)
  {
    assert s[0..] == s;
  }

  /** A network whose name goes on after the project's is mistaken for the project's own, and that one is
      not created. */
  lemma NetworkMistaken(project: string, rest: string)
    requires rest != ""
    ensures NetworkReady({project + rest}, project) && project !in {project + rest}
  {
    assert (project + rest)[0..] == project + rest;
    assert Contains(project + rest, project) && project + rest in {project + rest};
  }

  /** Pulls and inspects the image, and reads the stored secrets. */
  method ReadImageAndSecrets(host: Host, kv: KvClient, codec: Codec, project: string, ref: string)
      returns (stored: Option<Vars>)
    requires host.Valid() && kv.Valid()
    modifies host, kv
    ensures Progress(host, old(host.w), old(host.trace), project, {}, {}) && SameRoles(old(host.w), host.w, project)
    ensures host.faults >= old(host.faults) && kv.faults >= old(kv.faults)
    ensures kv.Valid() && kv.table == old(kv.table)
    ensures stored == if host.faults == old(host.faults) && kv.faults == old(kv.faults)
                      then Persisted(kv.table, codec, project) else None
    ensures stored.Some? ==> HasTag(host.w.images, ref)
    ensures GrowBy(old(host.w).images, host.w.images, if HasTag(old(host.w).images, ref) then {} else {ref})
  {
    hide Progress, HasTag, GrowBy;
    ghost var a, was := host.w, host.trace;
    ProgressStarts(host, project, {}, {});
    GrowByNothing(a.images, {});
    var pulled := PullWithin(host, ref, a, was, project, {}, {});
    SameContainersSameRoles(a, host.w, project);
    if !pulled {
      return None;
    }
    var inspected := host.Attempt();
    if !inspected {
      return None;
    }
    var connected := host.Attempt();
    if !connected {
      return None;
    }
    stored := ListProjectSecrets(kv, codec, project);
  }

  /** The network and the application volumes; in between the application containers are listed. */
  method PrepareHost(host: Host, project: Project, ref: string) returns (before: Option<set<nat>>)
    requires host.Valid() && HasTag(host.w.images, ref)
    modifies host
    ensures Progress(host, old(host.w), old(host.trace), project.name, {}, {})
    ensures SameRoles(old(host.w), host.w, project.name)
    ensures host.faults >= old(host.faults) && (host.faults == old(host.faults) ==> before.Some?)
    ensures GrowBy(old(host.w).images, host.w.images, {AppVolumes.ALPINE})
    ensures before.Some? ==> before.value == Apps(host.w, project.name)
    ensures before.Some? ==> NetworkReady(host.w.networks, project.name)
    ensures before.Some? ==> forall m | m in project.mounts :: Name(project.name, AppVolume(m)) in host.w.volumes
  {
    hide Within, Stays, WellFormed, Listed, Name, GrowBy, HasTag, AppVolumes.AllHandedOver;
    var p := project.name;
    ghost var a, was := host.w, host.trace;
    GrowByNothing(a.images, {AppVolumes.ALPINE});
    var ok := CreateEnvironmentNetwork(host, p);
    if !ok {
      return None;
    }
    before := host.ContainerList(p, AppLabel, Some("true"));
    if before.None? {
      return;
    }
    ghost var w, middle := host.w, host.trace;
    ghost var uid;
    ok, uid := AppVolumes.CreateAppServerVolumes(host, p, ref, project.mounts.Keys);
    NetworkStays(w, host.w, p, {});
    ProgressJoins(host, a, was, w, middle, p, {}, {}, {}, {}, {}, {});
    if !ok {
      before := None;
    }
  }

  /** Everything the services of a project had before counts from an earlier state with the same slices. */
  lemma CountsFromEarlier(a: World, w: World, v: World, project: string, services: map<string, Service>,
                          imageCommand: string -> seq<string>)
    requires WellFormed(a) && Within(a, w, project, {}, {}) && SameRoles(a, w, project)
    ensures DanglingStay(w, v, project, services) ==> DanglingStay(a, v, project, services)
    ensures forall name :: Slice(a, project, name) == Slice(w, project, name)
    ensures ServicesValidated(services) && AllSettled(w, v, project, services, imageCommand) ==>
              AllSettled(a, v, project, services, imageCommand)
    ensures Services(w, project) == Services(a, project)
    ensures RolesStay(w, v, project) ==> RolesStay(a, v, project)
  {
    hide Within, WellFormed, Slice, Listed, Settings.KindOf;
    forall name ensures Slice(a, project, name) == Slice(w, project, name) {
      SameSlices(a, w, project, name);
    }
    if ServicesValidated(services) && AllSettled(w, v, project, services, imageCommand) {
      forall name | name in services ensures IsSettled(a, v, JobOf(project, services, name), imageCommand) {
        var job := JobOf(project, services, name);
        assert IsSettled(w, v, job, imageCommand);
        var s: Stage :| (s.Kept? || s.Started?) && JobOnTrack(w, v, job, imageCommand, s);
        assert JobOnTrack(a, v, job, imageCommand, s);
      }
    }
  }

  /** The network, the application volumes and the services. */
  method StartEnvironment(host: Host, project: Project, ref: string) returns (before: Option<set<nat>>)
    requires host.Valid() && HasTag(host.w.images, ref)
    modifies host
    ensures Progress(host, old(host.w), old(host.trace), project.name, Services(old(host.w), project.name), {})
    ensures RolesStay(old(host.w), host.w, project.name) && host.faults >= old(host.faults)
    ensures host.faults == old(host.faults) && ServicesValidated(project.services) ==> before.Some?
    ensures DanglingStay(old(host.w), host.w, project.name, project.services)
    ensures forall name :: NoMoreThanOne(Slice(old(host.w), project.name, name), Slice(host.w, project.name, name))
    ensures SlicesStayHonest(old(host.w), host.w, project.name, project.services, host.imageCommand)
    ensures GrowBy(old(host.w).images, host.w.images, SideImages(project.services))
    ensures before.Some? ==> before.value == Apps(host.w, project.name)
    ensures before.Some? ==> NetworkReady(host.w.networks, project.name)
    ensures before.Some? ==> forall m | m in project.mounts :: Name(project.name, AppVolume(m)) in host.w.volumes
    ensures before.Some? ==> ServicesValidated(project.services)
    ensures before.Some? ==> AllSettled(old(host.w), host.w, project.name, project.services, host.imageCommand)
  {
    hide Within, Stays, Listed, WellFormed, Slice, AllSettled, ServicesValidated, Name, DanglingStay, GrowBy,
         SliceRunsSettings, ServiceImages, HasTag, Settings.KindOf, Settings.FamilyOf;
    var p := project.name;
    ghost var a, was := host.w, host.trace;
    before := PrepareHost(host, project, ref);
    ghost var w, middle := host.w, host.trace;
    CountsFromEarlier(a, w, w, p, project.services, host.imageCommand);
    GrowByNothing(w.images, {});
    GrowByTransitive(a.images, w.images, w.images, {AppVolumes.ALPINE}, {}, SideImages(project.services));
    if before.None? {
      WithinWidens(a, host.w, p, {}, {}, Services(a, p), {});
      StaysWidens(host.trace, |was|, a, p, Services(a, p));
      StartsOnTrack(w, p, project.services, host.imageCommand);
      return;
    }
    var ok, info := StartServices(host, p, project.services);
    GrowByTransitive(a.images, w.images, host.w.images, {AppVolumes.ALPINE}, ServiceImages(project.services),
                     SideImages(project.services));
    ProgressJoins(host, a, was, w, middle, p, {}, {}, Services(a, p), {}, Services(a, p), {});
    CountsFromEarlier(a, w, host.w, p, project.services, host.imageCommand);
    VolumesOutlive(host, w, middle, p, project.mounts.Keys, Services(a, p));
    NetworkStays(w, host.w, p, Services(a, p));
    if !ok {
      before := None;
    }
  }

  lemma StaysWidens(trace: seq<World>, from: nat, a: World, project: string, hurt: set<nat>)
    requires Stays(trace, from, a, project, {}, {})
    ensures Stays(trace, from, a, project, hurt, {})
  {
    forall k | from <= k < |trace| ensures Within(a, trace[k], project, hurt, {}) {
      WithinWidens(a, trace[k], project, {}, {}, hurt, {});
    }
  }

  lemma VolumesOutlive(host: Host, w: World, middle: seq<World>, project: string, mounts: set<string>, hurt: set<nat>)
    requires Progress(host, w, middle, project, hurt, {})
    requires forall m | m in mounts :: Name(project, AppVolume(m)) in w.volumes
    ensures forall m | m in mounts :: Name(project, AppVolume(m)) in host.w.volumes
  {
    hide Name;
  }

  lemma TagsOutlive(host: Host, w: World, middle: seq<World>, project: string, hurt: set<nat>, ref: string)
    requires Progress(host, w, middle, project, hurt, {}) && HasTag(w.images, ref)
    ensures HasTag(host.w.images, ref)
  {
    var id :| id in w.images && ref in w.images[id].tags;
    assert id in host.w.images && ref in host.w.images[id].tags;
  }

  /** The environment is the fixed merge of the layers over the secrets that were stored, and what
      was generated has been stored. */
  ghost predicate IsResolved(env: set<string>, spec: Env.Spec, run: Env.Run, codec: Codec, project: string,
                             before: Table, after: Table, stored: Vars, results: seq<Vars>) {
    && Persisted(before, codec, project) == Some(stored)
    && Env.Succeeds(spec, run, stored) && Env.AreItemResults(spec.onePassword, results)
    && env == Env.Entries(Env.Injected(spec, run, stored) + Env.ItemsLayer(results))
    && Persisted(after, codec, project) == Some(Env.StoredAfter(spec, run, stored))
  }

  ghost predicate IsSpec(spec: AppSpec, project: Project, version: string) {
    spec.project == project.name && spec.image == Versions.Ref(project.image, version) && spec.mounts == project.mounts
  }

  /** The store is as it was, or holds what the resolution generated. */
  ghost predicate StoreStep(spec: Env.Spec, run: Env.Run, codec: Codec, project: string, before: Table, after: Table,
                            stored: Vars) {
    || after == before
    || (Persisted(before, codec, project) == Some(stored)
        && Persisted(after, codec, project) == Some(Env.StoredAfter(spec, run, stored)))
  }

  /** What every container made from the image will share, and the application containers found. */
  datatype Ready = Ready(spec: AppSpec, before: set<nat>)

  /** The stored secrets can be read, and the environment can be resolved with them. */
  ghost predicate CanResolve(spec: Env.Spec, run: Env.Run, codec: Codec, project: string, table: Table) {
    var stored := Persisted(table, codec, project);
    stored.Some? && Env.Succeeds(spec, run, stored.value)
  }

  method ResolveEnvironment(kv: KvClient, codec: Codec, run: Env.Run, project: Project, stored: Vars)
      returns (env: Option<set<string>>, ghost results: seq<Vars>)
    requires kv.Valid() && LawfulCodec(codec) && Persisted(kv.table, codec, project.name) == Some(stored)
    modifies kv
    ensures kv.Valid() && OthersUntouched(old(kv.table), kv.table, project.name)
    ensures kv.faults >= old(kv.faults)
    ensures env.Some? <==> kv.faults == old(kv.faults) && Env.Succeeds(project.env, run, stored)
    ensures env.Some? ==>
              IsResolved(env.value, project.env, run, codec, project.name, old(kv.table), kv.table, stored, results)
    ensures StoreStep(project.env, run, codec, project.name, old(kv.table), kv.table, stored)
  {
    hide Env.Injected, Env.StoredAfter, Env.Succeeds, Env.AreItemResults;
    var resolution := new Env.Resolution(stored);
    var ok;
    ok, results := resolution.GetEnvironmentVariables(project.env, run, kv, codec, project.name);
    env := if ok then Some(Env.Entries(resolution.returnSecrets)) else None;
  }

  method Prepare(host: Host, kv: KvClient, codec: Codec, run: Env.Run, project: Project, version: string)
      returns (ready: Option<Ready>, ghost stored: Vars, ghost results: seq<Vars>)
    requires host.Valid() && kv.Valid() && LawfulCodec(codec)
    modifies host, kv
    ensures Progress(host, old(host.w), old(host.trace), project.name, Services(old(host.w), project.name), {})
    ensures RolesStay(old(host.w), host.w, project.name) && host.faults >= old(host.faults)
    ensures kv.faults >= old(kv.faults) && (ready.Some? ==> kv.faults == old(kv.faults))
    ensures ready.Some? ==> CanResolve(project.env, run, codec, project.name, old(kv.table))
    ensures host.faults == old(host.faults) && kv.faults == old(kv.faults) && ServicesValidated(project.services)
            && CanResolve(project.env, run, codec, project.name, old(kv.table)) ==>
              ready.Some?
    ensures DanglingStay(old(host.w), host.w, project.name, project.services)
    ensures forall name :: NoMoreThanOne(Slice(old(host.w), project.name, name), Slice(host.w, project.name, name))
    ensures SlicesStayHonest(old(host.w), host.w, project.name, project.services, host.imageCommand)
    ensures GrowBy(old(host.w).images, host.w.images,
                   Pulls(old(host.w).images, project.services, Versions.Ref(project.image, version)))
    ensures kv.Valid() && OthersUntouched(old(kv.table), kv.table, project.name)
    ensures StoreStep(project.env, run, codec, project.name, old(kv.table), kv.table, stored)
    ensures ready.Some? ==> ready.value.before == Apps(host.w, project.name)
    ensures ready.Some? ==> IsSpec(ready.value.spec, project, version)
    ensures ready.Some? ==> IsResolved(ready.value.spec.env, project.env, run, codec, project.name,
                                       old(kv.table), kv.table, stored, results)
    ensures ready.Some? ==> HasTag(host.w.images, ready.value.spec.image)
    ensures ready.Some? ==> NetworkReady(host.w.networks, project.name)
    ensures ready.Some? ==> forall m | m in project.mounts :: Name(project.name, AppVolume(m)) in host.w.volumes
    ensures ready.Some? ==> ServicesValidated(project.services)
    ensures ready.Some? ==> AllSettled(old(host.w), host.w, project.name, project.services, host.imageCommand)
  {
    hide Within, Stays, WellFormed, Listed, Slice, DanglingStay, AllSettled, ServicesValidated, Name, HasTag,
         IsResolved, Persisted, NoMoreThanOne, GrowBy, SideImages, SliceRunsSettings, Settings.KindOf,
         Settings.FamilyOf;
    ready, stored, results := None, map[], [];
    var p, ref := project.name, Versions.Ref(project.image, version);
    ghost var a, was, hurt := host.w, host.trace, Services(host.w, p);
    var secrets := ReadImageAndSecrets(host, kv, codec, p, ref);
    ghost var w, middle, own := host.w, host.trace, if HasTag(a.images, ref) then {} else {ref};
    CountsFromEarlier(a, w, w, p, project.services, host.imageCommand);
    GrowByNothing(w.images, {});
    GrowByTransitive(a.images, w.images, w.images, own, {}, Pulls(a.images, project.services, ref));
    if secrets.None? {
      StaysWidens(host.trace, |was|, a, p, hurt);
      WithinWidens(a, host.w, p, {}, {}, hurt, {});
      StartsOnTrack(w, p, project.services, host.imageCommand);
      SameIsNoMore(a, w, p, project.services, host.imageCommand);
      return;
    }
    stored := secrets.value;
    var before := StartEnvironment(host, project, ref);
    GrowByTransitive(a.images, w.images, host.w.images, own, SideImages(project.services),
                     Pulls(a.images, project.services, ref));
    ProgressJoins(host, a, was, w, middle, p, {}, {}, hurt, {}, hurt, {});
    CountsFromEarlier(a, w, host.w, p, project.services, host.imageCommand);
    TagsOutlive(host, w, middle, p, hurt, ref);
    if before.None? {
      return;
    }
    var env;
    env, results := ResolveEnvironment(kv, codec, run, project, secrets.value);
    if env.None? {
      return;
    }
    ready := Some(Ready(AppSpec(p, ref, env.value, project.mounts), before.value));
  }

  lemma SameIsNoMore(a: World, w: World, project: string, services: map<string, Service>,
                     imageCommand: string -> seq<string>)
    requires forall name :: Slice(a, project, name) == Slice(w, project, name)
    ensures forall name :: NoMoreThanOne(Slice(a, project, name), Slice(w, project, name))
    ensures SlicesStayHonest(a, w, project, services, imageCommand)
  {
    hide Slice, SliceRunsSettings, Settings.KindOf, Settings.FamilyOf;
  }
}

/** The volumes of the application: created when missing, and handed to the user of the image by
    short-lived containers that remove themselves. */
module AppVolumes {
  import opened Text
  import opened Names
  import opened Docker
  import opened Frames
  import opened Fleet
  import Versions

  const ALPINE := "alpine:latest"

  ghost predicate Unlabelled(w: World, id: nat) {
    id in w.containers ==> w.containers[id].labels == map[]
  }

  /** Only unlabelled containers and volumes were added. */
  ghost predicate Quiet(a: World, w: World, project: string) {
    SameRoles(a, w, project) && (forall v | v in a.volumes :: v in w.volumes && w.volumes[v] == a.volumes[v])
  }

  lemma QuietCreation(a: World, w: World, b: Blueprint, cmd: seq<string>, project: string)
    requires WellFormed(w) && Quiet(a, w, project) && b.labels == map[] && b.mounts.Keys <= w.volumes.Keys
    ensures var after := Created(w, b, cmd);
            Quiet(a, after, project) && after.volumes == w.volumes && Unlabelled(after, w.nextId)
              && w.nextId in after.containers
  {
    CreatedRoles(w, b, cmd, project);
    assert b.mounts + w.volumes == w.volumes;
  }

  lemma QuietStart(a: World, w: World, id: nat, project: string)
    requires Quiet(a, w, project) && id in w.containers
    ensures Quiet(a, SetRunning(w, id, true), project)
    ensures Unlabelled(w, id) ==> Unlabelled(SetRunning(w, id, true), id)
  {
    RunningRoles(w, id, true, project);
  }

  lemma QuietEnd(a: World, w: World, id: nat, project: string)
    requires Quiet(a, w, project) && Unlabelled(w, id)
    ensures Quiet(a, Removed(w, id), project)
  {
    RemovedRoles(w, id, project);
  }

  /** A container with automatic removal may be gone as soon as it has run. */
  method MayVanish(host: Host, id: nat, ghost a: World, ghost was: seq<World>, ghost project: string)
    requires Progress(host, a, was, project, {}, {}) && id !in a.containers
    requires Quiet(a, host.w, project) && Unlabelled(host.w, id)
    modifies host
    ensures Progress(host, a, was, project, {}, {}) && Quiet(a, host.w, project)
    ensures host.faults == old(host.faults) && host.w.volumes == old(host.w).volumes
              && host.w.images == old(host.w).images && old(host.trace) <= host.trace
  {
    hide Quiet, Unlabelled, Versions.UniqueTags;
    var vanishes := *;
    if vanishes {
      RemovedWithin(a, host.w, id, project, {}, {});
      QuietEnd(a, host.w, id, project);
      host.Become(Removed(host.w, id));
    }
  }

  lemma UnlabelledFits(labels: Labels, project: string)
    requires labels == map[]
    ensures OneRole(labels) && SideLabels(labels, project)
  {
  }

  /** Starts a container that removes itself in the end. */
  method StartUnlabelled(host: Host, id: nat, ghost a: World, ghost was: seq<World>, ghost project: string)
      returns (ok: bool)
    requires Progress(host, a, was, project, {}, {}) && Quiet(a, host.w, project)
    requires id !in a.containers && id in host.w.containers && Unlabelled(host.w, id)
    modifies host
    ensures Progress(host, a, was, project, {}, {}) && Quiet(a, host.w, project)
    ensures host.faults >= old(host.faults) && (ok <==> host.faults == old(host.faults))
    ensures host.w.volumes == old(host.w).volumes && host.w.images == old(host.w).images
              && old(host.trace) <= host.trace
    ensures ok ==> var c := old(host.w).containers[id];
                   Ran(host.trace, |old(host.trace)|, id, c.image, c.cmd, c.env, c.mounts)
  {
    hide Progress, Quiet, WellFormed, Unlabelled;
    ghost var w := host.w;
    ok := StartWithin(host, id, a, was, project, {}, {});
    if ok {
      QuietStart(a, w, id, project);
      ghost var middle, c := host.trace, w.containers[id];
      assert RunsIn(middle[|middle| - 1], id, c.image, c.cmd, c.env, c.mounts);
      MayVanish(host, id, a, was, project);
      assert RunsIn(host.trace[|middle| - 1], id, c.image, c.cmd, c.env, c.mounts);
    }
  }

  /** Runs an unlabelled container; `attached` when the caller attaches to it first. */
  method RunUnlabelled(host: Host, b: Blueprint, attached: bool, ghost a: World, ghost was: seq<World>,
                       ghost project: string)
      returns (ok: bool, id: nat)
    requires Progress(host, a, was, project, {}, {}) && Quiet(a, host.w, project) && b.labels == map[]
    requires b.mounts.Keys <= host.w.volumes.Keys && HasTag(host.w.images, b.image)
    modifies host
    ensures Progress(host, a, was, project, {}, {}) && Quiet(a, host.w, project)
    ensures host.faults >= old(host.faults) && (ok <==> host.faults == old(host.faults))
    ensures host.w.volumes == old(host.w).volumes && host.w.images == old(host.w).images
              && old(host.trace) <= host.trace
    ensures ok && b.cmd != [] ==>
              id >= old(host.w).nextId
              && Ran(host.trace, |old(host.trace)|, id, b.image, b.cmd, b.env, b.mounts.Keys)
  {
    hide Progress, Quiet, WellFormed, OneRole, SideLabels, Unlabelled, Ran, HasTag;
    UnlabelledFits(b.labels, project);
    ghost var w := host.w;
    ProgressIsWellFormed(host, a, was, project, {}, {});
    var created := CreateWithin(host, b, a, was, project, {}, {});
    if created.None? {
      return false, 0;
    }
    id := created.value;
    QuietCreation(a, w, b, if b.cmd == [] then host.imageCommand(b.image) else b.cmd, project);
    if attached {
      ok := host.Attempt();
      if !ok {
        return;
      }
    }
    ghost var middle := host.trace;
    ok := StartUnlabelled(host, id, a, was, project);
    if ok && b.cmd != [] {
      RanStill(host.trace, host.trace, |middle|, |old(host.trace)|, id, b.image, b.cmd, b.env, b.mounts.Keys);
    }
  }

  /** The user is the one a new container of the image printed, or nobody. */
  ghost predicate IsUser(trace: seq<World>, from: nat, newId: nat, image: string, output: nat -> string, uid: string) {
    uid == "" || exists id :: newId <= id && uid == output(id) && Ran(trace, from, id, image, ["id", "-u"], {}, {})
  }

  /** `determineUidOfAppContainer`: its errors are only logged. */
  method DetermineUid(host: Host, image: string, ghost a: World, ghost was: seq<World>, ghost project: string)
      returns (uid: string, ghost printed: Option<nat>)
    requires Progress(host, a, was, project, {}, {}) && Quiet(a, host.w, project) && HasTag(host.w.images, image)
    modifies host
    ensures Progress(host, a, was, project, {}, {}) && Quiet(a, host.w, project)
    ensures host.faults >= old(host.faults) && host.w.volumes == old(host.w).volumes
              && host.w.images == old(host.w).images && old(host.trace) <= host.trace
    ensures printed.None? ==> uid == "" && host.faults > old(host.faults)
    ensures printed.Some? ==>
              uid == host.output(printed.value) && printed.value >= old(host.w).nextId
              && Ran(host.trace, |old(host.trace)|, printed.value, image, ["id", "-u"], {}, {})
  {
    hide Progress, Quiet, HasTag;
    var name: string := *;
    var ok, id := RunUnlabelled(host, Blueprint(name, map[], image, ["id", "-u"], {}, map[]), true, a, was, project);
    uid := if ok then host.output(id) else "";
    printed := if ok then Some(id) else None;
  }

  function ChownCommand(uid: string): seq<string> {
    ["sh", "-c", "chown -R " + uid + ":" + uid + " /volume"]
  }

  function ChownBlueprint(project: string, mount: string, uid: string): Blueprint {
    Blueprint(Name(project, ChownContainer(mount)), map[], ALPINE, ChownCommand(uid), {},
              map[Name(project, AppVolume(mount)) := map[]])
  }

  /** A new container gave the volume to the user. */
  ghost predicate HandedOver(trace: seq<World>, from: nat, newId: nat, volume: string, uid: string) {
    exists id :: newId <= id && Ran(trace, from, id, "alpine:latest",
                                    ["sh", "-c", "chown -R " + uid + ":" + uid + " /volume"], {}, {volume})
  }

  lemma HandedOverStill(was: seq<World>, now: seq<World>, from: nat, earlier: nat, newId: nat, earlierId: nat,
                        volume: string, uid: string)
    requires was <= now && earlier <= from && earlierId <= newId && HandedOver(was, from, newId, volume, uid)
    ensures HandedOver(now, earlier, earlierId, volume, uid)
  {
    hide Ran;
    var cmd := ["sh", "-c", "chown -R " + uid + ":" + uid + " /volume"];
    var id :| newId <= id && Ran(was, from, id, "alpine:latest", cmd, {}, {volume});
    RanStill(was, now, from, earlier, id, "alpine:latest", cmd, {}, {volume});
  }

  method MakeVolume(host: Host, project: string, mount: string, ghost a: World, ghost was: seq<World>)
      returns (ok: bool)
    requires Progress(host, a, was, project, {}, {}) && Quiet(a, host.w, project)
    modifies host
    ensures Progress(host, a, was, project, {}, {}) && Quiet(a, host.w, project)
    ensures host.faults >= old(host.faults) && (ok <==> host.faults == old(host.faults))
    ensures old(host.w).volumes.Keys <= host.w.volumes.Keys
    ensures old(host.trace) <= host.trace && host.w.images == old(host.w).images && host.w.nextId == old(host.w).nextId
    ensures ok ==> Name(project, AppVolume(mount)) in host.w.volumes
  {
    hide Name, WellFormed, Versions.UniqueTags;
    ghost var w := host.w;
    ok := host.VolumeCreate(Name(project, AppVolume(mount)), VolumeLabels(project));
    SameContainersSameRoles(w, host.w, project);
  }

  method CreateVolume(host: Host, project: string, mount: string, uid: string, ghost a: World, ghost was: seq<World>)
      returns (ok: bool)
    requires Progress(host, a, was, project, {}, {}) && Quiet(a, host.w, project) && HasTag(host.w.images, ALPINE)
    modifies host
    ensures Progress(host, a, was, project, {}, {}) && Quiet(a, host.w, project)
    ensures host.faults >= old(host.faults) && (ok <==> host.faults == old(host.faults))
    ensures old(host.w).volumes.Keys <= host.w.volumes.Keys
    ensures old(host.trace) <= host.trace && host.w.images == old(host.w).images
    ensures ok ==> Name(project, AppVolume(mount)) in host.w.volumes
    ensures ok ==> HandedOver(host.trace, |old(host.trace)|, old(host.w).nextId, Name(project, AppVolume(mount)), uid)
  {
    hide Name, Ran, Progress, Quiet, HasTag;
    ok := MakeVolume(host, project, mount, a, was);
    if !ok {
      return;
    }
    ghost var middle := host.trace;
    assert ChownBlueprint(project, mount, uid).mounts.Keys == {Name(project, AppVolume(mount))};
    var id;
    ok, id := RunUnlabelled(host, ChownBlueprint(project, mount, uid), false, a, was, project);
    if ok {
      RanStill(host.trace, host.trace, |middle|, |old(host.trace)|, id, ALPINE, ChownCommand(uid), {},
               {Name(project, AppVolume(mount))});
    }
  }

  /** Every mount that had no volume of the project got one, and it was given to the user. */
  ghost predicate AllHandedOver(host: Host, a: World, was: seq<World>, project: string, mounts: set<string>,
                                uid: string)
    reads host`trace
  {
    forall m | m in mounts && Name(project, AppVolume(m)) !in VolumesOf(a, project, None) ::
      HandedOver(host.trace, |was|, a.nextId, Name(project, AppVolume(m)), uid)
  }

  /** Creates the volumes that were not listed, in an order Go leaves open. */
  method CreateMissing(host: Host, project: string, mounts: set<string>, listed: set<string>, uid: string,
                       ghost a: World, ghost was: seq<World>)
      returns (ok: bool)
    requires Progress(host, a, was, project, {}, {}) && Quiet(a, host.w, project) && HasTag(host.w.images, ALPINE)
    requires listed <= host.w.volumes.Keys
    modifies host
    ensures Progress(host, a, was, project, {}, {}) && Quiet(a, host.w, project)
    ensures host.faults >= old(host.faults) && (ok <==> host.faults == old(host.faults))
    ensures old(host.trace) <= host.trace && host.w.images == old(host.w).images
    ensures ok ==> forall m | m in mounts :: Name(project, AppVolume(m)) in host.w.volumes
    ensures ok ==> forall m | m in mounts && Name(project, AppVolume(m)) !in listed ::
                     HandedOver(host.trace, |was|, a.nextId, Name(project, AppVolume(m)), uid)
  {
    hide Progress, Quiet, Name, WellFormed, HasTag, HandedOver;
    var left := mounts;
    while left != {}
      invariant left <= mounts && Progress(host, a, was, project, {}, {}) && Quiet(a, host.w, project)
      invariant host.faults == old(host.faults) && host.w.images == old(host.w).images
      invariant listed <= host.w.volumes.Keys && old(host.trace) <= host.trace
      invariant forall m | m in mounts - left :: Name(project, AppVolume(m)) in host.w.volumes
      invariant forall m | m in mounts - left && Name(project, AppVolume(m)) !in listed ::
                  HandedOver(host.trace, |was|, a.nextId, Name(project, AppVolume(m)), uid)
      decreases |left|
    {
      var m :| m in left;
      ghost var middle, w := host.trace, host.w;
      ProgressAges(host, a, was, project, {}, {});
      TraceIsLonger(host, a, was, project);
      if Name(project, AppVolume(m)) !in listed {
        var created := CreateVolume(host, project, m, uid, a, was);
        if !created {
          return false;
        }
        HandedOverStill(host.trace, host.trace, |middle|, |was|, w.nextId, a.nextId, Name(project, AppVolume(m)), uid);
        forall n | n in mounts - left && Name(project, AppVolume(n)) !in listed
          ensures HandedOver(host.trace, |was|, a.nextId, Name(project, AppVolume(n)), uid)
        {
          HandedOverStill(middle, host.trace, |was|, |was|, a.nextId, a.nextId, Name(project, AppVolume(n)), uid);
        }
      }
      left := left - {m};
    }
    ok := true;
  }

  lemma TraceIsLonger(host: Host, a: World, was: seq<World>, project: string)
    requires Progress(host, a, was, project, {}, {})
    ensures |was| <= |host.trace|
  {
  }

  /** `createAppServerVolumes`. */
  method CreateAppServerVolumes(host: Host, project: string, image: string, mounts: set<string>)
      returns (ok: bool, ghost uid: string)
    requires host.Valid() && HasTag(host.w.images, image)
    modifies host
    ensures Progress(host, old(host.w), old(host.trace), project, {}, {}) && SameRoles(old(host.w), host.w, project)
    ensures host.faults >= old(host.faults) && (host.faults == old(host.faults) ==> ok)
    ensures GrowBy(old(host.w).images, host.w.images, {ALPINE})
    ensures ok ==> forall m | m in mounts :: Name(project, AppVolume(m)) in host.w.volumes
    ensures ok ==> AllHandedOver(host, old(host.w), old(host.trace), project, mounts, uid)
    ensures IsUser(host.trace, |old(host.trace)|, old(host.w).nextId, image, host.output, uid)
    ensures host.faults == old(host.faults) && mounts != {} ==>
              exists id :: id >= old(host.w).nextId && uid == host.output(id)
                           && Ran(host.trace, |old(host.trace)|, id, image, ["id", "-u"], {}, {})
  {
    hide Progress, SameRoles, Name, WellFormed, GrowBy, HasTag, Ran, HandedOver;
    ghost var a, was := host.w, host.trace;
    ProgressStarts(host, project, {}, {});
    SameContainersSameRoles(a, a, project);
    GrowByNothing(a.images, {ALPINE});
    uid := "";
    if mounts == {} {
      return true, uid;
    }
    ok := PullWithin(host, ALPINE, a, was, project, {}, {});
    SameContainersSameRoles(a, host.w, project);
    if !ok {
      return;
    }
    GrownTags(a.images, host.w.images, {ALPINE}, image);
    TraceIsLonger(host, a, was, project);
    ProgressAges(host, a, was, project, {}, {});
    ghost var middle := host.trace;
    var user;
    ghost var printed;
    user, printed := DetermineUid(host, image, a, was, project);
    uid := user;
    if printed.Some? {
      RanStill(host.trace, host.trace, |middle|, |was|, printed.value, image, ["id", "-u"], {}, {});
    }
    ProgressIsWellFormed(host, a, was, project, {}, {});
    var listed := host.VolumeList(project, None);
    if listed.None? {
      return false, uid;
    }
    ok := CreateMissing(host, project, mounts, listed.value, user, a, was);
    if printed.Some? {
      RanStill(host.trace, host.trace, |was|, |was|, printed.value, image, ["id", "-u"], {}, {});
    }
  }
}

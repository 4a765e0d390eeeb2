/** What a stretch of calls on behalf of one project may change. */
module Frames {
  import opened Text
  import opened Docker
  import opened Orders
  import opened Versions

  ghost predicate ImagesGrow(a: Images, b: Images) {
    forall id | id in a :: id in b && b[id].created == a[id].created && a[id].tags <= b[id].tags
  }

  predicate SameButRunning(c: Container, d: Container) {
    d == c.(running := d.running)
  }

  predicate OwnOrUnlabelled(labels: Labels, project: string) {
    OfProject(labels, project) || ProjectLabel !in labels
  }

  /** What a container created beside the application container may be labelled with. */
  predicate SideLabels(labels: Labels, project: string) {
    OwnOrUnlabelled(labels, project) && AppLabel !in labels
  }

  /** From `a` to `b` only containers in `hurt` were stopped or removed, only those in `woken` were
      started, new containers have new ids, belong to the project or to nobody and are no application
      containers, no volume, network or image reference was lost, and no route changed. */
  ghost predicate Within(a: World, b: World, project: string, hurt: set<nat>, woken: set<nat>) {
    && a.nextId <= b.nextId
    && (forall id | id in a.containers && id !in hurt :: id in b.containers
          && (b.containers[id] == a.containers[id]
              || (id in woken && b.containers[id] == a.containers[id].(running := true))))
    && (forall id | id in b.containers && id in a.containers ::
          SameButRunning(a.containers[id], b.containers[id])
          && (b.containers[id].running ==> a.containers[id].running || id in woken))
    && (forall id | id in b.containers && id !in a.containers ::
          a.nextId <= id && SideLabels(b.containers[id].labels, project))
    && (forall v | v in a.volumes :: v in b.volumes && b.volumes[v] == a.volumes[v])
    && a.networks <= b.networks
    && ImagesGrow(a.images, b.images) && (UniqueTags(a.images) ==> UniqueTags(b.images))
    && b.routes == a.routes
  }

  /** Every state of the trace from an index on is within the frame around `a`. */
  ghost predicate Stays(trace: seq<World>, from: nat, a: World, project: string, hurt: set<nat>, woken: set<nat>) {
    forall k | from <= k < |trace| :: Within(a, trace[k], project, hurt, woken)
  }

  lemma WithinReflexive(a: World, project: string)
    ensures Within(a, a, project, {}, {})
  {
    hide UniqueTags;
  }

  lemma WithinWidens(a: World, b: World, project: string, hurt: set<nat>, woken: set<nat>, hurt': set<nat>,
                     woken': set<nat>)
    requires Within(a, b, project, hurt, woken) && hurt <= hurt' && woken <= woken'
    ensures Within(a, b, project, hurt', woken')
  {
    hide UniqueTags;
  }

  lemma ImagesGrowTransitive(a: Images, b: Images, c: Images)
    requires ImagesGrow(a, b) && ImagesGrow(b, c)
    ensures ImagesGrow(a, c)
  {
    forall id | id in a ensures a[id].tags <= c[id].tags {
      assert c[id].tags[..|a[id].tags|] == b[id].tags[..|a[id].tags|];
    }
  }

  /** Two stretches one after the other. */
  lemma WithinTransitive(a: World, b: World, c: World, project: string,
                         hurt: set<nat>, woken: set<nat>, hurt': set<nat>, woken': set<nat>)
    requires WellFormed(a) && Within(a, b, project, hurt, woken) && Within(b, c, project, hurt', woken')
    ensures Within(a, c, project, hurt + hurt', woken + woken')
  {
    hide UniqueTags;
    ImagesGrowTransitive(a.images, b.images, c.images);
    forall id | id in a.containers && id in c.containers ensures id in b.containers {
      assert id < a.nextId <= b.nextId;
    }
  }

  lemma StaysJoins(middle: seq<World>, trace: seq<World>, from: nat, a: World, b: World, project: string,
                   hurt: set<nat>, woken: set<nat>, hurt': set<nat>, woken': set<nat>)
    requires WellFormed(a) && middle <= trace && from <= |middle|
    requires Stays(middle, from, a, project, hurt, woken) && Within(a, b, project, hurt, woken)
    requires Stays(trace, |middle|, b, project, hurt', woken')
    ensures Stays(trace, from, a, project, hurt + hurt', woken + woken')
  {
    forall k | from <= k < |trace| ensures Within(a, trace[k], project, hurt + hurt', woken + woken') {
      if k < |middle| {
        assert trace[k] == middle[k];
        WithinWidens(a, trace[k], project, hurt, woken, hurt + hurt', woken + woken');
      } else {
        WithinTransitive(a, b, trace[k], project, hurt, woken, hurt', woken');
      }
    }
  }

  // Which references appear.

  /** Images gain references, none but these, and lose none. */
  ghost predicate GrowBy(a: Images, b: Images, refs: set<string>) {
    ImagesGrow(a, b) && forall id, i | id in b && OldTags(a, id) <= i < |b[id].tags| :: b[id].tags[i] in refs
  }

  function OldTags(a: Images, id: nat): nat {
    if id in a then |a[id].tags| else 0
  }

  lemma TagStays(a: Images, b: Images, ref: string)
    requires ImagesGrow(a, b) && HasTag(a, ref)
    ensures HasTag(b, ref)
  {
    var id :| id in a && ref in a[id].tags;
    assert id in b && ref in b[id].tags;
  }

  lemma GrownTags(a: Images, b: Images, refs: set<string>, ref: string)
    requires GrowBy(a, b, refs) && HasTag(a, ref)
    ensures HasTag(b, ref)
  {
    TagStays(a, b, ref);
  }

  lemma GrowByNothing(a: Images, refs: set<string>)
    ensures GrowBy(a, a, refs)
  {
  }

  lemma GrowByTransitive(a: Images, b: Images, c: Images, refs: set<string>, refs': set<string>, all: set<string>)
    requires GrowBy(a, b, refs) && GrowBy(b, c, refs') && refs + refs' <= all
    ensures GrowBy(a, c, all)
  {
    ImagesGrowTransitive(a, b, c);
    forall id, i | id in c && OldTags(a, id) <= i < |c[id].tags| ensures c[id].tags[i] in all {
      if i < OldTags(b, id) {
        assert c[id].tags[i] == b[id].tags[i];
        assert b[id].tags[i] in refs;
      } else {
        assert c[id].tags[i] in refs';
      }
    }
  }

  lemma PulledGrowsBy(w: World, after: World, ref: string)
    requires WellFormed(w) && IsPulled(w, after, ref)
    ensures GrowBy(w.images, after.images, {ref})
  {
    forall id, i | id in after.images && OldTags(w.images, id) <= i < |after.images[id].tags|
      ensures after.images[id].tags[i] in {ref}
    {
      assert id in w.images ==> id < w.nextId;
    }
  }

  // Single calls, relative to where the stretch began.

  lemma CreatedWithin(a: World, w: World, b: Blueprint, cmd: seq<string>, project: string, hurt: set<nat>,
                      woken: set<nat>)
    requires WellFormed(a) && WellFormed(w) && Within(a, w, project, hurt, woken)
    requires SideLabels(b.labels, project)
    ensures Within(a, Created(w, b, cmd), project, hurt, woken)
  {
    hide UniqueTags;
  }

  lemma StartedWithin(a: World, w: World, id: nat, project: string, hurt: set<nat>, woken: set<nat>)
    requires Within(a, w, project, hurt, woken) && id in w.containers
    requires id in woken || id !in a.containers
    ensures Within(a, SetRunning(w, id, true), project, hurt, woken)
  {
    hide UniqueTags;
  }

  lemma StoppedWithin(a: World, w: World, id: nat, project: string, hurt: set<nat>, woken: set<nat>)
    requires Within(a, w, project, hurt, woken) && id in w.containers
    requires id in hurt || id !in a.containers
    ensures Within(a, SetRunning(w, id, false), project, hurt, woken)
  {
    hide UniqueTags;
  }

  lemma RemovedWithin(a: World, w: World, id: nat, project: string, hurt: set<nat>, woken: set<nat>)
    requires Within(a, w, project, hurt, woken)
    requires id in hurt || id !in a.containers
    ensures Within(a, Removed(w, id), project, hurt, woken)
  {
    hide UniqueTags;
  }

  lemma PulledWithin(a: World, w: World, after: World, ref: string, project: string, hurt: set<nat>, woken: set<nat>)
    requires WellFormed(a) && WellFormed(w) && Within(a, w, project, hurt, woken)
    requires IsPulled(w, after, ref) && !HasTag(w.images, ref)
    ensures Within(a, after, project, hurt, woken)
  {
    hide UniqueTags, HasTag;
    PulledImages(w, after, ref);
    ImagesGrowTransitive(a.images, w.images, after.images);
  }

  /** A pull loses no reference and gives the new one to one image only. */
  lemma PulledStaysDistinct(w: World, after: World, ref: string)
    requires IsPulled(w, after, ref) && !HasTag(w.images, ref) && UniqueTags(w.images)
    ensures forall id | id in after.images :: Distinct(after.images[id].tags)
  {
    forall id | id in after.images ensures Distinct(after.images[id].tags) {
      assert id in w.images ==> ref !in w.images[id].tags;
    }
  }

  lemma PulledImages(w: World, after: World, ref: string)
    requires WellFormed(w) && IsPulled(w, after, ref) && !HasTag(w.images, ref)
    ensures ImagesGrow(w.images, after.images)
    ensures UniqueTags(w.images) ==> UniqueTags(after.images)
  {
    if UniqueTags(w.images) {
      PulledStaysDistinct(w, after, ref);
      hide Distinct;
      forall x, y, tag | x in after.images && y in after.images && tag in after.images[x].tags
        && tag in after.images[y].tags
        ensures x == y
      {
        assert x in w.images ==> (tag in w.images[x].tags || tag == ref) && ref !in w.images[x].tags;
        assert y in w.images ==> (tag in w.images[y].tags || tag == ref) && ref !in w.images[y].tags;
      }
    }
  }

  // What single calls do to the role listings.

  /** The four role listings of a project are the same in both states. */
  ghost predicate SameRoles(a: World, b: World, project: string) {
    && Apps(b, project) == Apps(a, project) && Workers(b, project) == Workers(a, project)
    && Cronjobs(b, project) == Cronjobs(a, project) && Services(b, project) == Services(a, project)
  }

  lemma CreatedListed(w: World, b: Blueprint, cmd: seq<string>, project: string, key: LabelKey, value: Option<string>)
    requires WellFormed(w)
    ensures w.nextId !in w.containers
    ensures Listed(Created(w, b, cmd), project, key, value)
         == Listed(w, project, key, value)
            + if Carries(Created(w, b, cmd).containers[w.nextId], project, key, value) then {w.nextId} else {}
  {
  }

  lemma CreatedRoles(w: World, b: Blueprint, cmd: seq<string>, project: string)
    requires WellFormed(w) && OneRole(b.labels)
    ensures AppLabel !in b.labels ==> Apps(Created(w, b, cmd), project) == Apps(w, project)
    ensures WorkerLabel !in b.labels ==> Workers(Created(w, b, cmd), project) == Workers(w, project)
    ensures CronjobLabel !in b.labels ==> Cronjobs(Created(w, b, cmd), project) == Cronjobs(w, project)
    ensures ServiceLabel !in b.labels ==> Services(Created(w, b, cmd), project) == Services(w, project)
  {
    CreatedListed(w, b, cmd, project, AppLabel, Some("true"));
    CreatedListed(w, b, cmd, project, WorkerLabel, None);
    CreatedListed(w, b, cmd, project, CronjobLabel, None);
    CreatedListed(w, b, cmd, project, ServiceLabel, None);
  }

  lemma RunningRoles(w: World, id: nat, running: bool, project: string)
    requires id in w.containers
    ensures SameRoles(w, SetRunning(w, id, running), project)
  {
    RunningListed(w, id, running, project, AppLabel, Some("true"));
    RunningListed(w, id, running, project, WorkerLabel, None);
    RunningListed(w, id, running, project, CronjobLabel, None);
    RunningListed(w, id, running, project, ServiceLabel, None);
  }

  lemma RunningListed(w: World, id: nat, running: bool, project: string, key: LabelKey, value: Option<string>)
    requires id in w.containers
    ensures Listed(SetRunning(w, id, running), project, key, value) == Listed(w, project, key, value)
  {
  }

  lemma RemovedListed(w: World, id: nat, project: string, key: LabelKey, value: Option<string>)
    ensures Listed(Removed(w, id), project, key, value) == Listed(w, project, key, value) - {id}
  {
  }

  lemma RemovedRoles(w: World, id: nat, project: string)
    ensures Apps(Removed(w, id), project) == Apps(w, project) - {id}
    ensures Workers(Removed(w, id), project) == Workers(w, project) - {id}
    ensures Cronjobs(Removed(w, id), project) == Cronjobs(w, project) - {id}
    ensures Services(Removed(w, id), project) == Services(w, project) - {id}
  {
    RemovedListed(w, id, project, AppLabel, Some("true"));
    RemovedListed(w, id, project, WorkerLabel, None);
    RemovedListed(w, id, project, CronjobLabel, None);
    RemovedListed(w, id, project, ServiceLabel, None);
  }

  // What a frame means for traffic.

  /** A project stays served through a stretch that does not hurt the container it is routed to. */
  lemma WithinKeepsServing(a: World, b: World, project: string, hurt: set<nat>, woken: set<nat>, q: string)
    requires Within(a, b, project, hurt, woken) && Serving(a, q) && a.routes[q] !in hurt
    ensures Serving(b, q)
  {
  }
}

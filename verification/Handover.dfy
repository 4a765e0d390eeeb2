/** What holds in every state of a deployment: other projects and live traffic are left alone, and the
    old workers and cronjobs never run beside the new application container. */
module Handover {
  import opened Docker
  import opened Frames
  import opened Fleet
  import opened Safety
  import Versions

  /** Workers and cronjobs. */
  function Sides(w: World, project: string): set<nat> {
    Workers(w, project) + Cronjobs(w, project)
  }

  ghost predicate Stopped(w: World, ids: set<nat>) {
    forall id | id in ids && id in w.containers :: !w.containers[id].running
  }

  /** There is no application container that was not there at the start, or all workers and cronjobs
      that were are stopped or gone. */
  ghost predicate Exclusive(a: World, w: World, project: string) {
    Apps(w, project) <= Apps(a, project) || Stopped(w, Sides(a, project))
  }

  ghost predicate SoundTrace(trace: seq<World>, from: nat, a: World, project: string) {
    forall k | from <= k < |trace| :: Safe(a, trace[k], project) && Exclusive(a, trace[k], project)
  }

  /** Every state since `a`, reached with the trace `was`, is safe and exclusive. */
  ghost predicate Sound(host: Host, a: World, was: seq<World>, project: string)
    reads host`w, host`trace
  {
    host.Valid() && WellFormed(a) && was <= host.trace && Safe(a, host.w, project)
      && SoundTrace(host.trace, |was|, a, project)
  }

  lemma WithinAddsNoApp(w: World, v: World, project: string, hurt: set<nat>, woken: set<nat>)
    requires Within(w, v, project, hurt, woken)
    ensures Apps(v, project) <= Apps(w, project)
  {
    hide Versions.UniqueTags, ImagesGrow;
    forall id | id in Apps(v, project) ensures id in Apps(w, project) {
      assert id in w.containers;
    }
  }

  lemma WithinStaysStopped(w: World, v: World, project: string, hurt: set<nat>, woken: set<nat>, ids: set<nat>)
    requires Within(w, v, project, hurt, woken) && woken !! ids && Stopped(w, ids)
    requires forall id | id in ids :: id < w.nextId
    ensures Stopped(v, ids)
  {
    hide Versions.UniqueTags, ImagesGrow;
  }

  lemma SidesAreOld(a: World, project: string)
    requires WellFormed(a)
    ensures forall id | id in Sides(a, project) :: id < a.nextId
  {
  }

  /** A stretch that starts none of the old workers and cronjobs keeps an exclusive state exclusive. */
  lemma WithinIsExclusive(a: World, w: World, v: World, project: string, hurt: set<nat>, woken: set<nat>)
    requires WellFormed(a) && a.nextId <= w.nextId && Within(w, v, project, hurt, woken) && Exclusive(a, w, project)
    requires woken !! Sides(a, project) || Apps(w, project) <= Apps(a, project)
    ensures Exclusive(a, v, project)
  {
    hide Within, WellFormed, Listed;
    SidesAreOld(a, project);
    if Apps(w, project) <= Apps(a, project) {
      WithinAddsNoApp(w, v, project, hurt, woken);
    } else {
      WithinStaysStopped(w, v, project, hurt, woken, Sides(a, project));
    }
  }

  lemma SoundStarts(host: Host, project: string)
    requires host.Valid()
    ensures Sound(host, host.w, host.trace, project)
  {
    SafeReflexive(host.w, project);
  }

  /** A stretch of a deployment that was sound so far, from the state `w`, reached with the trace
      `middle`. */
  ghost predicate SoundSoFar(w: World, middle: seq<World>, a: World, was: seq<World>, project: string) {
    WellFormed(a) && was <= middle && Safe(a, w, project) && SoundTrace(middle, |was|, a, project)
  }

  lemma SoundJoins(host: Host, a: World, was: seq<World>, w: World, middle: seq<World>, project: string)
    requires SoundSoFar(w, middle, a, was, project) && Secure(host, w, middle, project)
    requires forall k | |middle| <= k < |host.trace| :: Exclusive(a, host.trace[k], project)
    ensures Sound(host, a, was, project)
  {
    hide Safe, WellFormed, Exclusive;
    SecureParts(host, w, middle, project);
    SafeTransitive(a, w, host.w, project);
    forall k | |was| <= k < |host.trace|
      ensures Safe(a, host.trace[k], project) && Exclusive(a, host.trace[k], project)
    {
      if k < |middle| {
        assert host.trace[k] == middle[k];
      } else {
        SafeTransitive(a, w, host.trace[k], project);
      }
    }
  }

  lemma SecureParts(host: Host, w: World, middle: seq<World>, project: string)
    requires Secure(host, w, middle, project)
    ensures host.Valid() && WellFormed(w) && middle <= host.trace && Safe(w, host.w, project)
    ensures forall k | |middle| <= k < |host.trace| :: Safe(w, host.trace[k], project)
  {
  }

  lemma SoundProgresses(host: Host, a: World, was: seq<World>, w: World, middle: seq<World>, project: string,
                        hurt: set<nat>, woken: set<nat>)
    requires SoundSoFar(w, middle, a, was, project) && Exclusive(a, w, project)
    requires Progress(host, w, middle, project, hurt, woken) && Harmless(w, project, hurt, woken)
    requires woken !! Sides(a, project) || Apps(w, project) <= Apps(a, project)
    ensures Sound(host, a, was, project) && Exclusive(a, host.w, project)
  {
    hide Within, WellFormed, Exclusive, Harmless;
    ProgressIsSecure(host, w, middle, project, hurt, woken);
    forall k | |middle| <= k < |host.trace| ensures Exclusive(a, host.trace[k], project) {
      WithinIsExclusive(a, w, host.trace[k], project, hurt, woken);
    }
    WithinIsExclusive(a, w, host.w, project, hurt, woken);
    SoundJoins(host, a, was, w, middle, project);
  }

  lemma SoundIsSoFar(host: Host, a: World, was: seq<World>, project: string)
    requires Sound(host, a, was, project)
    ensures SoundSoFar(host.w, host.trace, a, was, project)
    ensures host.Valid() && WellFormed(host.w) && WellFormed(a) && a.nextId <= host.w.nextId
  {
  }

  // When the proxy reported no error without having switched.

  /** The project is served for as long as the container its route leads to is there. */
  ghost predicate ServedWhilePresent(a: World, v: World, project: string) {
    Serving(a, project) && a.routes[project] in v.containers ==> Serving(v, project)
  }

  /** Other projects are left alone as ever, this one is served while its container is there. */
  ghost predicate Astray(a: World, v: World, project: string) {
    Apart(a, v, project) && Exclusive(a, v, project) && ServedWhilePresent(a, v, project)
  }

  ghost predicate AstrayTrace(trace: seq<World>, from: nat, a: World, project: string) {
    forall k | from <= k < |trace| :: Astray(a, trace[k], project)
  }

  ghost predicate AllAstray(host: Host, a: World, was: seq<World>, project: string)
    reads host`w, host`trace
  {
    host.Valid() && WellFormed(a) && was <= host.trace && Apart(a, host.w, project)
      && AstrayTrace(host.trace, |was|, a, project)
  }

  /** The containers in `ids` are as they were or gone. */
  ghost predicate UnchangedOrGone(w: World, v: World, ids: set<nat>) {
    forall id | id in ids && id in w.containers && id in v.containers :: v.containers[id] == w.containers[id]
  }

  ghost predicate UnchangedOrGoneSince(trace: seq<World>, from: nat, w: World, ids: set<nat>) {
    forall k | from <= k < |trace| :: UnchangedOrGone(w, trace[k], ids)
  }

  /** Removing containers without having switched: each state is astray. */
  lemma RemovalIsAstray(a: World, w: World, v: World, project: string, gone: set<nat>)
    requires WellFormed(a) && Safe(a, w, project) && Exclusive(a, w, project) && w.routes == a.routes
    requires Within(w, v, project, gone, {}) && Own(w, project, gone) && UnchangedOrGone(w, v, gone)
    ensures Astray(a, v, project)
  {
    WithinIsApart(w, v, project, gone, {});
    ApartTransitive(a, w, v, project);
    WithinIsExclusive(a, w, v, project, gone, {});
    hide Versions.UniqueTags, ImagesGrow, Exclusive, Own;
    if Serving(a, project) && a.routes[project] in v.containers {
      var id := a.routes[project];
      assert id in w.containers && v.containers[id] == w.containers[id];
    }
  }

  lemma SoundIsAstray(trace: seq<World>, from: nat, a: World, project: string)
    requires SoundTrace(trace, from, a, project)
    ensures AstrayTrace(trace, from, a, project)
  {
    hide Apart, Exclusive, Serving;
    forall k | from <= k < |trace| ensures Astray(a, trace[k], project) {
    }
  }

  /** A project that was not served has nothing to lose. */
  lemma AstrayIsSound(host: Host, a: World, was: seq<World>, project: string)
    requires AllAstray(host, a, was, project) && !Serving(a, project)
    ensures Sound(host, a, was, project)
  {
    hide Apart, Exclusive, Serving;
  }

  lemma RemovalGoesAstray(host: Host, a: World, was: seq<World>, w: World, middle: seq<World>, project: string,
                          gone: set<nat>)
    requires SoundSoFar(w, middle, a, was, project) && Exclusive(a, w, project) && w.routes == a.routes
    requires Progress(host, w, middle, project, gone, {}) && Own(w, project, gone)
    requires UnchangedOrGone(w, host.w, gone) && UnchangedOrGoneSince(host.trace, |middle|, w, gone)
    ensures AllAstray(host, a, was, project) && Astray(a, host.w, project)
  {
    hide Within, WellFormed, Exclusive, Own, Safe, Astray, UnchangedOrGone;
    SoundIsAstray(middle, |was|, a, project);
    RemovalIsAstray(a, w, host.w, project, gone);
    forall k | |was| <= k < |host.trace| ensures Astray(a, host.trace[k], project) {
      if k < |middle| {
        assert host.trace[k] == middle[k];
      } else {
        RemovalIsAstray(a, w, host.trace[k], project, gone);
      }
    }
    assert Apart(a, host.w, project) by { AstrayIsApart(a, host.w, project); }
  }

  lemma AstrayIsApart(a: World, v: World, project: string)
    requires Astray(a, v, project)
    ensures Apart(a, v, project)
  {
  }
}

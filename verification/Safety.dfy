/** What any command run for one project leaves alone: the other projects, and live traffic. */
module Safety {
  import opened Docker
  import opened Frames
  import opened Fleet
  import Versions

  /** From `a` to `b` no container and no route of another project changed. */
  ghost predicate Apart(a: World, b: World, project: string) {
    && a.nextId <= b.nextId
    && OthersStay(a, b, project)
    && (forall id | id in b.containers && id in a.containers :: SameButRunning(a.containers[id], b.containers[id]))
    && (forall id | id in b.containers && id !in a.containers ::
          a.nextId <= id && OwnOrUnlabelled(b.containers[id].labels, project))
    && b.routes - {project} == a.routes - {project}
  }

  /** And the project itself is still served if it was. */
  ghost predicate Safe(a: World, b: World, project: string) {
    Apart(a, b, project) && (Serving(a, project) ==> Serving(b, project))
  }

  ghost predicate OthersStay(a: World, b: World, project: string) {
    forall id | id in a.containers && !OfProject(a.containers[id].labels, project) ::
      id in b.containers && b.containers[id] == a.containers[id]
  }

  ghost predicate SafeSince(trace: seq<World>, from: nat, a: World, project: string) {
    forall k | from <= k < |trace| :: Safe(a, trace[k], project)
  }

  /** Every other project that was served still is. */
  lemma ApartKeepsServing(a: World, b: World, project: string, q: string)
    requires Apart(a, b, project) && Serving(a, q) && q != project
    ensures Serving(b, q)
  {
    assert q in a.routes - {project};
    assert q in b.routes - {project};
    assert (a.routes - {project})[q] == (b.routes - {project})[q];
  }

  /** Zero downtime: every project that was served, this one or another, still is. */
  lemma SafeKeepsServing(a: World, b: World, project: string, q: string)
    requires Safe(a, b, project) && Serving(a, q)
    ensures Serving(b, q)
  {
    if q != project {
      ApartKeepsServing(a, b, project, q);
    }
  }

  lemma SafeReflexive(a: World, project: string)
    ensures Safe(a, a, project)
  {
  }

  lemma SafeTransitive(a: World, b: World, c: World, project: string)
    requires WellFormed(a) && Safe(a, b, project) && Safe(b, c, project)
    ensures Safe(a, c, project)
  {
    ApartTransitive(a, b, c, project);
  }

  lemma ApartTransitive(a: World, b: World, c: World, project: string)
    requires WellFormed(a) && Apart(a, b, project) && Apart(b, c, project)
    ensures Apart(a, c, project)
  {
    forall id | id in a.containers && id in c.containers ensures id in b.containers {
      assert id < a.nextId <= b.nextId;
    }
  }

  ghost predicate Own(w: World, project: string, ids: set<nat>) {
    forall id | id in ids && id in w.containers :: OfProject(w.containers[id].labels, project)
  }

  /** A stretch may stop, remove or start containers of its project, but not stop or remove the one
      that carries its traffic. */
  ghost predicate Harmless(w: World, project: string, hurt: set<nat>, woken: set<nat>) {
    Own(w, project, hurt) && Own(w, project, woken) && (Serving(w, project) ==> w.routes[project] !in hurt)
  }

  lemma WithinIsApart(a: World, b: World, project: string, hurt: set<nat>, woken: set<nat>)
    requires Within(a, b, project, hurt, woken) && Own(a, project, hurt) && Own(a, project, woken)
    ensures Apart(a, b, project)
  {
    hide Versions.UniqueTags, ImagesGrow;
  }

  lemma WithinIsSafe(a: World, b: World, project: string, hurt: set<nat>, woken: set<nat>)
    requires Within(a, b, project, hurt, woken) && Harmless(a, project, hurt, woken)
    ensures Safe(a, b, project)
  {
    hide Versions.UniqueTags, ImagesGrow;
    if Serving(a, project) {
      WithinKeepsServing(a, b, project, hurt, woken, project);
    }
  }

  /** Everything the host went through since the state `a`, reached with the trace `was`, is safe. */
  ghost predicate Secure(host: Host, a: World, was: seq<World>, project: string)
    reads host`w, host`trace
  {
    host.Valid() && WellFormed(a) && was <= host.trace && Safe(a, host.w, project)
      && SafeSince(host.trace, |was|, a, project)
  }

  lemma SecureStarts(host: Host, project: string)
    requires host.Valid()
    ensures Secure(host, host.w, host.trace, project)
  {
    SafeReflexive(host.w, project);
  }

  lemma SecureJoins(host: Host, a: World, was: seq<World>, w: World, middle: seq<World>, project: string)
    requires WellFormed(a) && was <= middle && Safe(a, w, project) && SafeSince(middle, |was|, a, project)
    requires Secure(host, w, middle, project)
    ensures Secure(host, a, was, project)
  {
    hide Safe, WellFormed;
    SafeTransitive(a, w, host.w, project);
    forall k | |was| <= k < |host.trace| ensures Safe(a, host.trace[k], project) {
      if k < |middle| {
        assert host.trace[k] == middle[k];
      } else {
        SafeTransitive(a, w, host.trace[k], project);
      }
    }
  }

  lemma ProgressIsSecure(host: Host, w: World, middle: seq<World>, project: string, hurt: set<nat>, woken: set<nat>)
    requires Progress(host, w, middle, project, hurt, woken) && Harmless(w, project, hurt, woken)
    ensures Secure(host, w, middle, project)
  {
    hide Safe, WellFormed, Within, Harmless;
    WithinIsSafe(w, host.w, project, hurt, woken);
    forall k | |middle| <= k < |host.trace| ensures Safe(w, host.trace[k], project) {
      WithinIsSafe(w, host.trace[k], project, hurt, woken);
    }
  }
}

/** The Docker host and its proxy as the deployment tool sees them. Every call either takes effect or
    fails without one; the host remembers every state it has been in. */
module Docker {
  import opened Orders
  import opened Text

  /** The label keys the tool writes and filters by. */
  datatype LabelKey =
    | Tanjun | AppLabel | WorkerLabel | CronjobLabel | ServiceLabel | ProjectLabel
    | ComposeProject | ComposeService | OtherLabel(key: string)

  type Labels = map<LabelKey, string>

  datatype Container = Container(
    name: string, labels: Labels, image: string, cmd: seq<string>, env: set<string>, mounts: set<string>,
    running: bool)

  /** `tags` are the full references, `created` the creation time. */
  datatype Image = Image(tags: seq<string>, created: int)

  type Images = map<nat, Image>

  datatype World = World(
    containers: map<nat, Container>,
    nextId: nat,
    images: Images,
    volumes: map<string, Labels>,
    networks: set<string>,
    routes: map<string, nat>)

  /** What a container is created from; `mounts` are the named volumes with their labels. */
  datatype Blueprint = Blueprint(
    name: string, labels: Labels, image: string, cmd: seq<string>, env: set<string>, mounts: map<string, Labels>)

  function LabelOr(labels: Labels, key: LabelKey): Option<string> {
    if key in labels then Some(labels[key]) else None
  }

  predicate OfProject(labels: Labels, project: string) {
    LabelOr(labels, ProjectLabel) == Some(project)
  }

  /** The label filter of a container listing. */
  predicate Carries(c: Container, project: string, key: LabelKey, value: Option<string>) {
    OfProject(c.labels, project) && key in c.labels && (value.Some? ==> c.labels[key] == value.value)
  }

  function Listed(w: World, project: string, key: LabelKey, value: Option<string>): set<nat> {
    set id | id in w.containers && Carries(w.containers[id], project, key, value)
  }

  lemma ListedExist(w: World, project: string, key: LabelKey, value: Option<string>)
    ensures Listed(w, project, key, value) <= w.containers.Keys
  {
  }

  // The role listings.

  predicate IsApp(c: Container, project: string) {
    Carries(c, project, AppLabel, Some("true"))
  }

  function Apps(w: World, project: string): set<nat> {
    Listed(w, project, AppLabel, Some("true"))
  }

  function Workers(w: World, project: string): set<nat> {
    Listed(w, project, WorkerLabel, None)
  }

  function Cronjobs(w: World, project: string): set<nat> {
    Listed(w, project, CronjobLabel, None)
  }

  function Services(w: World, project: string): set<nat> {
    Listed(w, project, ServiceLabel, None)
  }

  /** A container has at most one of the four role labels. */
  predicate OneRole(labels: Labels) {
    && !(AppLabel in labels && WorkerLabel in labels)
    && !(AppLabel in labels && CronjobLabel in labels)
    && !(AppLabel in labels && ServiceLabel in labels)
    && !(WorkerLabel in labels && CronjobLabel in labels)
    && !(WorkerLabel in labels && ServiceLabel in labels)
    && !(CronjobLabel in labels && ServiceLabel in labels)
  }

  ghost predicate WellFormed(w: World) {
    && (forall id | id in w.containers :: id < w.nextId && OneRole(w.containers[id].labels))
    && (forall id | id in w.images :: id < w.nextId)
    && (forall project | project in w.routes :: w.routes[project] < w.nextId)
  }

  /** The project's route leads to a present, running application container of that project. */
  predicate Serving(w: World, project: string) {
    && project in w.routes && w.routes[project] in w.containers
    && IsApp(w.containers[w.routes[project]], project) && w.containers[w.routes[project]].running
  }

  // The effect of each call that succeeds.

  function Created(w: World, b: Blueprint, cmd: seq<string>): World {
    w.(containers := w.containers[w.nextId := Container(b.name, b.labels, b.image, cmd, b.env, b.mounts.Keys, false)],
       nextId := w.nextId + 1,
       volumes := b.mounts + w.volumes)
  }

  function SetRunning(w: World, id: nat, running: bool): World
    requires id in w.containers
  {
    w.(containers := w.containers[id := w.containers[id].(running := running)])
  }

  function Removed(w: World, id: nat): World {
    w.(containers := w.containers - {id})
  }

  function Keep(tags: seq<string>, gone: set<string>): seq<string> {
    if tags == [] then [] else (if tags[0] in gone then [] else [tags[0]]) + Keep(tags[1..], gone)
  }

  /** Removing references untags them; an image that loses its last tag disappears. */
  function Purge(images: Images, gone: set<string>): Images {
    map id | id in images && (images[id].tags == [] || Keep(images[id].tags, gone) != [])
      :: Image(Keep(images[id].tags, gone), images[id].created)
  }

  /** The references an image listing of the repository reports for an image. */
  function Matching(tags: seq<string>, repo: string): seq<string> {
    if tags == [] then []
    else (if HasPrefix(tags[0], repo + ":") then [tags[0]] else []) + Matching(tags[1..], repo)
  }

  function MatchingIds(images: Images, repo: string): set<nat> {
    set id | id in images && Matching(images[id].tags, repo) != []
  }

  predicate HasTag(images: Images, tag: string) {
    exists id | id in images :: tag in images[id].tags
  }

  /** The label filter of a volume listing. */
  function VolumesOf(w: World, project: string, service: Option<string>): set<string> {
    set v | v in w.volumes && OfProject(w.volumes[v], project)
            && (service.Some? ==> LabelOr(w.volumes[v], ServiceLabel) == service)
  }

  predicate NameTaken(w: World, name: string) {
    exists id | id in w.containers :: w.containers[id].name == name
  }

  /** A pull adds the reference to a new image or to one that was there. */
  ghost predicate IsPulled(before: World, after: World, ref: string) {
    || (exists created :: after == before.(images := before.images[before.nextId := Image([ref], created)],
                                           nextId := before.nextId + 1))
    || (exists id | id in before.images ::
          after == before.(images := before.images[id := before.images[id].(tags := before.images[id].tags + [ref])]))
  }

  class Host {
    /** The command an image brings along. */
    const imageCommand: string -> seq<string>
    /** What the process of a container ends with. */
    const exitCode: nat -> int
    /** The first line it prints. */
    const output: nat -> string
    var w: World
    ghost var trace: seq<World>
    ghost var faults: nat

    ghost predicate Valid()
      reads `w, `trace
    {
      trace != [] && trace[|trace| - 1] == w && WellFormed(w)
    }

    constructor (w: World, imageCommand: string -> seq<string>, exitCode: nat -> int, output: nat -> string)
      requires WellFormed(w)
      ensures Valid() && this.w == w && trace == [w] && faults == 0
      ensures this.imageCommand == imageCommand && this.exitCode == exitCode && this.output == output
    {
      this.imageCommand, this.exitCode, this.output := imageCommand, exitCode, output;
      this.w, trace, faults := w, [w], 0;
    }

    /** Any call may fail. `faults` counts the failures, and results that are treated as errors; a call that
        Docker refuses because it makes no sense in this state is no such failure. */
    method Attempt() returns (ok: bool)
      modifies `faults
      ensures faults == old(faults) + if ok then 0 else 1
    {
      ok := *;
      if !ok {
        faults := faults + 1;
      }
    }

    method Fail()
      modifies `faults
      ensures faults == old(faults) + 1
    {
      faults := faults + 1;
    }

    /** Takes the new state, or the old one again, into the trace. */
    method Become(after: World)
      requires Valid() && WellFormed(after)
      modifies `w, `trace
      ensures Valid() && w == after && trace == old(trace) + [after]
    {
      w := after;
      trace := trace + [after];
    }

    method ContainerList(project: string, key: LabelKey, value: Option<string>) returns (ids: Option<set<nat>>)
      requires Valid()
      modifies `faults
      ensures faults == old(faults) + if ids.Some? then 0 else 1
      ensures ids.Some? ==> ids.value == Listed(w, project, key, value)
    {
      var ok := Attempt();
      ids := if ok then Some(Listed(w, project, key, value)) else None;
    }

    method ContainerInspect(id: nat) returns (c: Option<Container>)
      requires Valid()
      modifies `faults
      ensures c.Some? ==> id in w.containers && c.value == w.containers[id] && faults == old(faults)
      ensures c.None? ==> faults == old(faults) + 1 || (faults == old(faults) && id !in w.containers)
    {
      var ok := Attempt();
      if ok && id !in w.containers {
        return None;
      }
      c := if ok then Some(w.containers[id]) else None;
    }

    /** A name that is taken is bad luck. */
    method ContainerCreate(b: Blueprint) returns (id: Option<nat>)
      requires Valid() && OneRole(b.labels)
      modifies this
      ensures Valid() && trace == old(trace) + [w]
      ensures id.None? ==> w == old(w)
      ensures id.None? ==> faults == old(faults) + 1 || (faults == old(faults) && !HasTag(w.images, b.image))
      ensures id.Some? ==> faults == old(faults)
      ensures id.Some? ==> id.value == old(w.nextId) && HasTag(w.images, b.image)
      ensures id.Some? ==> forall other | other in old(w).containers :: old(w).containers[other].name != b.name
      ensures id.Some? ==> w == Created(old(w), b, if b.cmd == [] then imageCommand(b.image) else b.cmd)
    {
      var ok := Attempt();
      if ok && !HasTag(w.images, b.image) {
        ok := false;
      } else if ok && NameTaken(w, b.name) {
        Fail();
        ok := false;
      }
      id := if ok then Some(w.nextId) else None;
      Become(if ok then Created(w, b, if b.cmd == [] then imageCommand(b.image) else b.cmd) else w);
    }

    method ContainerStart(id: nat) returns (ok: bool)
      requires Valid()
      modifies this
      ensures Valid() && trace == old(trace) + [w]
      ensures ok ==> id in old(w).containers && w == SetRunning(old(w), id, true) && faults == old(faults)
      ensures !ok ==> w == old(w)
      ensures !ok ==> faults == old(faults) + 1 || (faults == old(faults) && id !in old(w).containers)
    {
      ok := Attempt();
      if ok && id !in w.containers {
        ok := false;
      }
      Become(if ok then SetRunning(w, id, true) else w);
    }

    /** Stopping a stopped container succeeds. */
    method ContainerStop(id: nat) returns (ok: bool)
      requires Valid()
      modifies this
      ensures Valid() && trace == old(trace) + [w]
      ensures ok ==> id in old(w).containers && w == SetRunning(old(w), id, false) && faults == old(faults)
      ensures !ok ==> w == old(w)
      ensures !ok ==> faults == old(faults) + 1 || (faults == old(faults) && id !in old(w).containers)
    {
      ok := Attempt();
      if ok && id !in w.containers {
        ok := false;
      }
      Become(if ok then SetRunning(w, id, false) else w);
    }

    /** Killing a stopped container is an error. */
    method ContainerKill(id: nat) returns (ok: bool)
      requires Valid()
      modifies this
      ensures Valid() && trace == old(trace) + [w]
      ensures ok ==> id in old(w).containers && old(w).containers[id].running && w == SetRunning(old(w), id, false)
      ensures ok ==> faults == old(faults)
      ensures !ok ==> w == old(w)
      ensures !ok ==> faults == old(faults) + 1 ||
                      (faults == old(faults) && (id in w.containers ==> !w.containers[id].running))
    {
      ok := Attempt();
      if ok && (id !in w.containers || !w.containers[id].running) {
        ok := false;
      }
      Become(if ok then SetRunning(w, id, false) else w);
    }

    /** Without `force` removing a running container is an error. */
    method ContainerRemove(id: nat, force: bool) returns (ok: bool)
      requires Valid()
      modifies this
      ensures Valid() && trace == old(trace) + [w]
      ensures ok ==> id in old(w).containers && (force || !old(w).containers[id].running) && w == Removed(old(w), id)
      ensures ok ==> faults == old(faults)
      ensures !ok ==> w == old(w)
      ensures !ok ==> faults == old(faults) + 1 ||
                      (faults == old(faults) && (id in w.containers ==> w.containers[id].running && !force))
    {
      ok := Attempt();
      if ok && (id !in w.containers || (w.containers[id].running && !force)) {
        ok := false;
      }
      Become(if ok then Removed(w, id) else w);
    }

    method VolumeCreate(name: string, labels: Labels) returns (ok: bool)
      requires Valid()
      modifies this
      ensures Valid() && trace == old(trace) + [w]
      ensures faults == old(faults) + if ok then 0 else 1
      ensures w == if ok then old(w).(volumes := map[name := labels] + old(w).volumes) else old(w)
    {
      ok := Attempt();
      Become(if ok then w.(volumes := map[name := labels] + w.volumes) else w);
    }

    method VolumeList(project: string, service: Option<string>) returns (names: Option<set<string>>)
      requires Valid()
      modifies `faults
      ensures faults == old(faults) + if names.Some? then 0 else 1
      ensures names.Some? ==> names.value == VolumesOf(w, project, service)
    {
      var ok := Attempt();
      names := if ok then Some(VolumesOf(w, project, service)) else None;
    }

    method VolumeRemove(name: string) returns (ok: bool)
      requires Valid()
      modifies this
      ensures Valid() && trace == old(trace) + [w]
      ensures faults == old(faults) + if ok then 0 else 1
      ensures w == if ok then old(w).(volumes := old(w).volumes - {name}) else old(w)
    {
      ok := Attempt();
      Become(if ok then w.(volumes := w.volumes - {name}) else w);
    }

    /** The name filter of a network listing also takes names that only contain the given one. */
    method NetworkList(name: string) returns (names: Option<set<string>>)
      requires Valid()
      modifies `faults
      ensures faults == old(faults) + if names.Some? then 0 else 1
      ensures names.Some? ==> names.value == set n | n in w.networks && Contains(n, name)
    {
      var ok := Attempt();
      names := if ok then Some(set n | n in w.networks && Contains(n, name)) else None;
    }

    method NetworkCreate(name: string) returns (ok: bool)
      requires Valid()
      modifies this
      ensures Valid() && trace == old(trace) + [w]
      ensures faults == old(faults) + if ok then 0 else 1
      ensures w == if ok then old(w).(networks := old(w).networks + {name}) else old(w)
    {
      ok := Attempt();
      Become(if ok then w.(networks := w.networks + {name}) else w);
    }

    /** Runs the proxy's command and scans one line of its output. A line is an error, and the old route
        is kept; no line, or an empty one, is taken for success, but only `switched` tells whether the
        command has got that far. */
    method ProxyDeploy(project: string, id: nat) returns (ok: bool, ghost switched: bool, ghost scanned: string)
      requires Valid() && id < w.nextId
      modifies this
      ensures Valid() && trace == old(trace) + [w]
      ensures faults == old(faults) + if ok then 0 else 1
      ensures (switched ==> ok) && (ok ==> scanned == "")
      ensures w == if switched then old(w).(routes := old(w).routes[project := id]) else old(w)
    {
      switched, scanned := false, "";
      ok := Attempt();
      if !ok {
        Become(w);
        return;
      }
      var line: string := *;
      scanned := line;
      if line != "" {
        Fail();
        Become(w);
        return false, false, scanned;
      }
      var reached := *;
      switched := reached;
      Become(if reached then w.(routes := w.routes[project := id]) else w);
    }

    /** `PullImageIfNotThere`. */
    method PullIfMissing(ref: string) returns (ok: bool)
      requires Valid()
      modifies this
      ensures Valid() && trace == old(trace) + [w]
      ensures !ok ==> w == old(w) && faults > old(faults)
      ensures ok ==> faults == old(faults) && HasTag(w.images, ref)
      ensures ok ==> w == old(w) || (!HasTag(old(w).images, ref) && IsPulled(old(w), w, ref))
    {
      ok := Attempt();
      if !ok || HasTag(w.images, ref) {
        Become(w);
        return;
      }
      ok := Attempt();
      if !ok {
        Become(w);
        return;
      }
      var created: int := *;
      var known := *;
      if known && w.images != map[] {
        var id :| id in w.images;
        assert ref in (w.images[id].tags + [ref]);
        Become(w.(images := w.images[id := w.images[id].(tags := w.images[id].tags + [ref])]));
        assert ref in w.images[id].tags;
      } else {
        var id := w.nextId;
        Become(w.(images := w.images[w.nextId := Image([ref], created)], nextId := w.nextId + 1));
        assert ref in w.images[id].tags;
      }
    }

    /** The images with a reference of the repository, in an order Docker chooses. */
    method ImageList(repo: string) returns (ids: Option<seq<nat>>)
      requires Valid()
      modifies `faults
      ensures faults == old(faults) + if ids.Some? then 0 else 1
      ensures ids.Some? ==> IsOrder(ids.value, MatchingIds(w.images, repo))
    {
      var ok := Attempt();
      if !ok {
        return None;
      }
      var left := MatchingIds(w.images, repo);
      var order := [];
      while left != {}
        invariant left <= MatchingIds(w.images, repo)
        invariant IsOrder(order, MatchingIds(w.images, repo) - left)
        invariant faults == old(faults)
        decreases |left|
      {
        var id :| id in left;
        ExtendOrder(order, MatchingIds(w.images, repo) - left, id);
        order := order + [id];
        assert MatchingIds(w.images, repo) - left + {id} == MatchingIds(w.images, repo) - (left - {id});
        left := left - {id};
      }
      ids := Some(order);
    }

    method ImageRemove(ref: string) returns (ok: bool)
      requires Valid()
      modifies this
      ensures Valid() && trace == old(trace) + [w]
      ensures faults == old(faults) + if ok then 0 else 1
      ensures w == if ok then old(w).(images := Purge(old(w).images, {ref})) else old(w)
    {
      ok := Attempt();
      if ok && !HasTag(w.images, ref) {
        Fail();
        ok := false;
      }
      Become(if ok then w.(images := Purge(w.images, {ref})) else w);
    }
  }
}

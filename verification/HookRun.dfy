/** The hook container: created, started, followed to its end, inspected and removed. */
module HookRun {
  import opened Names
  import opened Docker
  import opened Frames
  import opened Fleet

  /** Passed and Exited (with a non-zero code) leave no container behind. */
  datatype HookEnd = Passed | Exited | Broken

  function HookCommand(hook: string): seq<string> {
    ["sh", "-c", hook]
  }

  /** A shell ran the hook's words in this container, with the deployed image, environment and volumes. */
  ghost predicate RunsHook(w: World, id: nat, spec: AppSpec, hook: string) {
    RunsIn(w, id, spec.image, ["sh", "-c", hook], spec.env, MountedVolumes(spec))
  }

  /** That happened in a new container, whose exit code was 0 exactly when the hook passed. */
  ghost predicate HookExited(trace: seq<World>, from: nat, newId: nat, spec: AppSpec, hook: string,
                             exitCode: nat -> int, passed: bool) {
    exists k, id :: from <= k < |trace| && newId <= id && RunsHook(trace[k], id, spec, hook)
                    && (passed <==> exitCode(id) == 0)
  }

  /** The hook, if there is one, ran and exited with 0. */
  ghost predicate HookDone(trace: seq<World>, from: nat, newId: nat, spec: AppSpec, hook: string,
                           exitCode: nat -> int) {
    hook == "" || HookExited(trace, from, newId, spec, hook, exitCode, true)
  }

  lemma HookStillDone(was: seq<World>, now: seq<World>, from: nat, earlier: nat, newId: nat, earlierId: nat,
                      spec: AppSpec, hook: string, exitCode: nat -> int)
    requires was <= now && earlier <= from && earlierId <= newId && HookDone(was, from, newId, spec, hook, exitCode)
    ensures HookDone(now, earlier, earlierId, spec, hook, exitCode)
  {
    hide RunsHook;
    if hook != "" {
      var k, id :| from <= k < |was| && newId <= id && RunsHook(was[k], id, spec, hook) && exitCode(id) == 0;
      assert RunsHook(now[k], id, spec, hook);
    }
  }

  function HookBlueprint(spec: AppSpec, hook: string, random: nat): Blueprint {
    Blueprint(Name(spec.project, HookContainer(random)), HookLabels(spec.project), spec.image,
              HookCommand(hook), spec.env, AppMounts(spec))
  }

  lemma HookLabelsFit(project: string)
    ensures OneRole(HookLabels(project)) && SideLabels(HookLabels(project), project)
    ensures AppLabel !in HookLabels(project) && WorkerLabel !in HookLabels(project)
    ensures CronjobLabel !in HookLabels(project) && ServiceLabel !in HookLabels(project)
  {
  }

  method RunHookInContainer(host: Host, spec: AppSpec, hook: string) returns (end: HookEnd)
    requires host.Valid() && HasTag(host.w.images, spec.image)
    modifies host
    ensures Progress(host, old(host.w), old(host.trace), spec.project, {}, {})
    ensures host.faults >= old(host.faults) && (end.Passed? <==> host.faults == old(host.faults))
    ensures SameRoles(old(host.w), host.w, spec.project) && host.w.images == old(host.w).images
    ensures !end.Broken? ==> host.w.containers == old(host.w).containers
    ensures !end.Broken? ==>
              HookExited(host.trace, |old(host.trace)|, old(host.w).nextId, spec, hook, host.exitCode, end.Passed?)
  {
    hide Within, Stays, WellFormed, Listed, Name, AppMounts, HookLabels, OneRole, SideLabels, Progress, HasTag;
    ghost var a, was, p := host.w, host.trace, spec.project;
    ProgressStarts(host, p, {}, {});
    SameContainersSameRoles(a, a, p);
    HookLabelsFit(p);
    AppMountsAre(spec);
    var random := RandomSuffix();
    var b := HookBlueprint(spec, hook, random);
    var id := CreateAndStart(host, b, a, was, p);
    if host.w != a {
      AdditionRemoved(a, host.w, b, p);
    }
    if id.None? {
      return Broken;
    }
    ghost var k := |host.trace| - 1;
    assert RunsHook(host.trace[k], id.value, spec, hook);
    end := FinishHook(host, id.value, a, was, p);
    assert RunsHook(host.trace[k], id.value, spec, hook);
  }

  /** Follows the logs, inspects and removes the hook container. */
  method FinishHook(host: Host, id: nat, ghost a: World, ghost was: seq<World>, ghost project: string)
      returns (end: HookEnd)
    requires Progress(host, a, was, project, {}, {}) && id !in a.containers && id in host.w.containers
    modifies host
    ensures Progress(host, a, was, project, {}, {})
    ensures host.faults >= old(host.faults) && (end.Passed? <==> host.faults == old(host.faults))
    ensures host.w == old(host.w) || host.w == Removed(old(host.w), id)
    ensures !end.Broken? ==> host.w == Removed(old(host.w), id) && (end.Passed? <==> host.exitCode(id) == 0)
    ensures old(host.trace) <= host.trace
  {
    var logsCopied := host.Attempt();
    if !logsCopied {
      var removedEarly := RemoveWithin(host, id, true, a, was, project, {}, {});
      return Broken;
    }
    var inspected := host.ContainerInspect(id);
    if inspected.None? {
      return Broken;
    }
    var removed := RemoveWithin(host, id, true, a, was, project, {}, {});
    if !removed {
      return Broken;
    }
    if host.exitCode(id) == 0 {
      return Passed;
    }
    host.Fail();
    end := Exited;
  }
}

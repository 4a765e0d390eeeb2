/** The worker containers: all replicas of all workers at once, in an order left open. */
module WorkerStart {
  import opened Text
  import opened Names
  import opened Docker
  import opened Frames
  import opened Fleet
  import opened Config

  datatype Task = Task(worker: string, replica: nat)

  /** One task per worker and effective replica. */
  function Tasks(workers: map<string, Worker>): set<Task> {
    set name, i | name in workers && 0 <= i < EffectiveReplicas(workers[name].replicas) :: Task(name, i)
  }

  function WorkerBlueprint(spec: AppSpec, task: Task, command: string, random: nat): Blueprint {
    Blueprint(Name(spec.project, WorkerContainer(task.worker, task.replica, random)),
              WorkerLabels(spec.project, task.worker), spec.image, [command], spec.env, AppMounts(spec))
  }

  /** The container belongs to the worker and runs its command with the deployed image and environment. */
  ghost predicate IsWorkerOf(c: Container, spec: AppSpec, worker: string, command: string) {
    && c.labels == WorkerLabels(spec.project, worker) && c.image == spec.image && c.env == spec.env
    && c.mounts == MountedVolumes(spec)
    && c.cmd == [command]
  }

  ghost predicate OneContainerEach(placed: map<Task, nat>) {
    forall t, u | t in placed && u in placed && placed[t] == placed[u] :: t == u
  }

  /** The containers created for tasks: one new container each, no two tasks share one. */
  ghost predicate Placed(w: World, spec: AppSpec, workers: map<string, Worker>, placed: map<Task, nat>) {
    && (forall t | t in placed :: t.worker in workers && placed[t] in w.containers
          && IsWorkerOf(w.containers[placed[t]], spec, t.worker, workers[t.worker].command))
    && OneContainerEach(placed)
  }

  /** Apart from worker containers nothing changes the role listings. */
  ghost predicate OnlyWorkersChange(a: World, b: World, project: string, placed: map<Task, nat>) {
    && Apps(b, project) == Apps(a, project) && Cronjobs(b, project) == Cronjobs(a, project)
    && Services(b, project) == Services(a, project)
    && Workers(b, project) == Workers(a, project) + placed.Values
    && (forall t | t in placed :: placed[t] !in a.containers)
  }

  lemma WorkerLabelsFit(project: string, worker: string)
    ensures var labels := WorkerLabels(project, worker);
            && OneRole(labels) && OfProject(labels, project) && WorkerLabel in labels && labels[WorkerLabel] == worker
            && AppLabel !in labels && CronjobLabel !in labels && ServiceLabel !in labels
  {
  }

  lemma PlacedOneMore(w: World, after: World, b: Blueprint, spec: AppSpec,
                     workers: map<string, Worker>, task: Task, placed: map<Task, nat>)
    requires WellFormed(w) && IsAddition(w, after, b) && Placed(w, spec, workers, placed)
    requires b.labels == WorkerLabels(spec.project, task.worker) && b.image == spec.image && b.env == spec.env
    requires b.mounts.Keys == MountedVolumes(spec)
    requires task.worker in workers && b.cmd == [workers[task.worker].command]
    ensures Placed(after, spec, workers, placed[task := w.nextId])
    ensures forall t | t in placed :: placed[t] in w.containers && placed[t] in after.containers
    ensures forall t | t in placed :: after.containers[placed[t]] == w.containers[placed[t]]
  {
    hide WorkerLabels, BaseLabels, Prefix, MountedVolumes;
  }

  lemma ValuesGrow(placed: map<Task, nat>, task: Task, id: nat)
    requires task !in placed
    ensures placed[task := id].Values == placed.Values + {id}
  {
    var more := placed[task := id];
    forall v | v in placed.Values ensures v in more.Values {
      var t :| t in placed && placed[t] == v;
      assert t in more && more[t] == v;
    }
    assert task in more && more[task] == id;
  }

  lemma WorkerAdded(a: World, w: World, after: World, b: Blueprint, spec: AppSpec, task: Task, placed: map<Task, nat>)
    requires WellFormed(w) && IsAddition(w, after, b)
    requires b.labels == WorkerLabels(spec.project, task.worker)
    requires w.nextId !in a.containers && task !in placed && OnlyWorkersChange(a, w, spec.project, placed)
    ensures OnlyWorkersChange(a, after, spec.project, placed[task := w.nextId])
  {
    hide WorkerLabels, BaseLabels, Prefix, Listed, IsAddition, WellFormed;
    WorkerLabelsFit(spec.project, task.worker);
    AdditionRoles(w, after, b, spec.project);
    ValuesGrow(placed, task, w.nextId);
  }

  lemma WorkerStarted(a: World, w: World, id: nat, spec: AppSpec, workers: map<string, Worker>, placed: map<Task, nat>)
    requires id in w.containers
    requires Placed(w, spec, workers, placed) && OnlyWorkersChange(a, w, spec.project, placed)
    ensures Placed(SetRunning(w, id, true), spec, workers, placed)
    ensures OnlyWorkersChange(a, SetRunning(w, id, true), spec.project, placed)
  {
    RunningRoles(w, id, true, spec.project);
  }

  ghost predicate Running(w: World, placed: map<Task, nat>, waiting: set<Task>) {
    forall t | t in placed && t !in waiting :: placed[t] in w.containers && w.containers[placed[t]].running
  }

  /** A waiting container has been created and not started. */
  ghost predicate StillStopped(w: World, placed: map<Task, nat>, waiting: set<Task>) {
    forall t | t in waiting && t in placed :: placed[t] in w.containers && !w.containers[placed[t]].running
  }

  lemma RunningOneMore(w: World, after: World, placed: map<Task, nat>, waiting: set<Task>, task: Task, id: nat)
    requires task !in placed && id !in w.containers && id in after.containers && !after.containers[id].running
    requires forall t | t in placed :: placed[t] in w.containers && placed[t] in after.containers
    requires forall t | t in placed :: after.containers[placed[t]] == w.containers[placed[t]]
    ensures Running(after, placed[task := id], waiting + {task}) <==> Running(w, placed, waiting)
    ensures StillStopped(w, placed, waiting) ==> StillStopped(after, placed[task := id], waiting + {task})
  {
    if Running(after, placed[task := id], waiting + {task}) {
      forall t | t in placed && t !in waiting ensures w.containers[placed[t]].running {
        assert t in placed[task := id] && placed[task := id][t] == placed[t];
      }
    }
  }

  lemma RunningStarted(w: World, spec: AppSpec, workers: map<string, Worker>, placed: map<Task, nat>,
                       waiting: set<Task>, task: Task)
    requires Placed(w, spec, workers, placed) && StillStopped(w, placed, waiting) && task in placed && task in waiting
    ensures var after := SetRunning(w, placed[task], true);
            && (Running(after, placed, waiting - {task}) <==> Running(w, placed, waiting))
            && StillStopped(after, placed, waiting - {task})
    ensures !Running(w, placed, waiting - {task}) && StillStopped(w, placed, waiting - {task})
  {
    var after := SetRunning(w, placed[task], true);
    forall t | t in placed && t != task ensures after.containers[placed[t]] == w.containers[placed[t]] {
    }
    if Running(after, placed, waiting - {task}) {
      forall t | t in placed && t !in waiting ensures w.containers[placed[t]].running {
        assert after.containers[placed[t]].running;
      }
    }
  }

  /** Some tasks have not begun, the others were placed or dropped after an error; those waiting
      have their container but not started it yet. */
  ghost predicate Underway(all: set<Task>, pending: set<Task>, placed: map<Task, nat>, waiting: map<Task, nat>) {
    && pending + placed.Keys <= all && pending !! placed.Keys
    && waiting.Keys <= placed.Keys && forall t | t in waiting :: waiting[t] == placed[t]
  }

  ghost predicate Accounted(w: World, all: set<Task>, pending: set<Task>, placed: map<Task, nat>, waiting: set<Task>) {
    pending + placed.Keys == all && Running(w, placed, waiting)
  }

  lemma TaskTaken(all: set<Task>, pending: set<Task>, placed: map<Task, nat>, waiting: map<Task, nat>, task: Task,
                  id: nat)
    requires Underway(all, pending, placed, waiting) && task in pending
    ensures task !in placed && task !in waiting
    ensures Underway(all, pending - {task}, placed[task := id], waiting[task := id])
    ensures Underway(all, pending - {task}, placed, waiting)
    ensures (waiting[task := id]).Keys == waiting.Keys + {task}
    ensures pending - {task} + (placed[task := id]).Keys == pending + placed.Keys
    ensures pending - {task} + placed.Keys != all
  {
    assert task in all && task !in pending - {task} + placed.Keys;
  }

  lemma TaskStarted(all: set<Task>, pending: set<Task>, placed: map<Task, nat>, waiting: map<Task, nat>, task: Task)
    requires Underway(all, pending, placed, waiting) && task in waiting
    ensures task in placed && placed[task] == waiting[task]
    ensures Underway(all, pending, placed, waiting - {task})
    ensures (waiting - {task}).Keys == waiting.Keys - {task}
  {
  }

  /** Starts all replicas of all workers at once. Errors are reported to nobody: the deployment goes
      on with the workers that could be started. */
  method StartWorkers(host: Host, spec: AppSpec, workers: map<string, Worker>) returns (ghost placed: map<Task, nat>)
    requires host.Valid() && HasTag(host.w.images, spec.image)
    modifies host
    ensures Progress(host, old(host.w), old(host.trace), spec.project, {}, {})
    ensures host.faults >= old(host.faults)
    ensures placed.Keys <= Tasks(workers)
    ensures Placed(host.w, spec, workers, placed) && OnlyWorkersChange(old(host.w), host.w, spec.project, placed)
    ensures host.faults == old(host.faults) <==> placed.Keys == Tasks(workers) && Running(host.w, placed, {})
    ensures host.w.images == old(host.w).images
  {
    hide Progress, Within, Stays, WellFormed, Placed, OnlyWorkersChange, Running, StillStopped, Tasks, HasTag;
    ghost var a, was, p := host.w, host.trace, spec.project;
    ProgressStarts(host, p, {}, {});
    NothingPlaced(a, spec, workers);
    NothingUnderway(workers);
    placed := map[];
    ghost var all := Tasks(workers);
    var pending, waiting: map<Task, nat> := Tasks(workers), map[];
    while pending != {} || waiting != map[]
      invariant Progress(host, a, was, p, {}, {}) && host.faults >= old(host.faults)
      invariant Underway(all, pending, placed, waiting)
      invariant Placed(host.w, spec, workers, placed) && OnlyWorkersChange(a, host.w, p, placed)
      invariant StillStopped(host.w, placed, waiting.Keys) && host.w.images == a.images
      invariant host.faults == old(host.faults) <==> Accounted(host.w, all, pending, placed, waiting.Keys)
      decreases |pending|, |waiting|
    {
      if
      case pending != {} =>
        var task :| task in pending;
        TaskHasWorker(workers, pending, placed, waiting, task);
        var id := CreateWorker(host, spec, workers, task, a, was, placed, waiting.Keys);
        TaskTaken(all, pending, placed, waiting, task, if id.Some? then id.value else 0);
        pending := pending - {task};
        if id.Some? {
          placed := placed[task := id.value];
          waiting := waiting[task := id.value];
        }
      case waiting != map[] =>
        var task :| task in waiting;
        TaskStarted(all, pending, placed, waiting, task);
        StartWorker(host, waiting[task], spec, workers, a, was, placed, task, waiting.Keys);
        waiting := waiting - {task};
    }
    AllTaken(all, placed);
  }

  lemma NothingUnderway(workers: map<string, Worker>)
    ensures Underway(Tasks(workers), Tasks(workers), map[], map[])
  {
    hide Tasks;
  }

  lemma TaskHasWorker(workers: map<string, Worker>, pending: set<Task>, placed: map<Task, nat>,
                      waiting: map<Task, nat>, task: Task)
    requires Underway(Tasks(workers), pending, placed, waiting) && task in pending
    ensures task.worker in workers
  {
  }

  lemma AllTaken(all: set<Task>, placed: map<Task, nat>)
    requires Underway(all, {}, placed, map[])
    ensures placed.Keys <= all && {} + placed.Keys == placed.Keys
  {
  }

  lemma NothingPlaced(a: World, spec: AppSpec, workers: map<string, Worker>)
    ensures Placed(a, spec, workers, map[]) && OnlyWorkersChange(a, a, spec.project, map[]) && Running(a, map[], {})
    ensures StillStopped(a, map[], {})
  {
  }

  /** The first call of one replica's goroutine. */
  method CreateWorker(host: Host, spec: AppSpec, workers: map<string, Worker>, task: Task, ghost a: World,
                      ghost was: seq<World>,
                      ghost placed: map<Task, nat>, ghost waiting: set<Task>)
      returns (id: Option<nat>)
    requires Progress(host, a, was, spec.project, {}, {}) && task !in placed && task !in waiting
               && task.worker in workers
    requires Placed(host.w, spec, workers, placed) && OnlyWorkersChange(a, host.w, spec.project, placed)
    requires HasTag(host.w.images, spec.image)
    modifies host
    ensures Progress(host, a, was, spec.project, {}, {})
    ensures host.faults == old(host.faults) + if id.Some? then 0 else 1
    ensures id.None? ==> host.w == old(host.w)
    ensures var now := if id.Some? then placed[task := id.value] else placed;
            Placed(host.w, spec, workers, now) && OnlyWorkersChange(a, host.w, spec.project, now)
    ensures id.Some? ==>
              (Running(host.w, placed[task := id.value], waiting + {task}) <==> Running(old(host.w), placed, waiting))
    ensures id.Some? && StillStopped(old(host.w), placed, waiting) ==>
              StillStopped(host.w, placed[task := id.value], waiting + {task})
    ensures host.w.images == old(host.w).images
  {
    hide Within, Stays, OnlyWorkersChange, Name, OneRole, SideLabels, BaseLabels, Running, StillStopped, Progress,
         Placed;
    var random := RandomSuffix();
    var b := WorkerBlueprint(spec, task, workers[task.worker].command, random);
    WorkerLabelsFit(spec.project, task.worker);
    OfProjectIsSide(b.labels, spec.project);
    ghost var w := host.w;
    ProgressIsWellFormed(host, a, was, spec.project, {}, {});
    id := CreateWithin(host, b, a, was, spec.project, {}, {});
    if id.Some? {
      CreatedIsAddition(w, b, b.cmd);
      PlacedOneMore(w, host.w, b, spec, workers, task, placed);
      RunningOneMore(w, host.w, placed, waiting, task, id.value);
      WorkerAdded(a, w, host.w, b, spec, task, placed);
    }
  }

  lemma PlacedIsThere(w: World, spec: AppSpec, workers: map<string, Worker>, placed: map<Task, nat>, task: Task)
    requires Placed(w, spec, workers, placed) && task in placed
    ensures placed[task] in w.containers
  {
  }

  /** The second call of one replica's goroutine. */
  method StartWorker(host: Host, id: nat, spec: AppSpec, ghost workers: map<string, Worker>, ghost a: World,
                     ghost was: seq<World>,
                     ghost placed: map<Task, nat>, ghost task: Task, ghost waiting: set<Task>)
    requires Progress(host, a, was, spec.project, {}, {}) && task in placed && placed[task] == id && task in waiting
    requires StillStopped(host.w, placed, waiting)
    requires Placed(host.w, spec, workers, placed) && OnlyWorkersChange(a, host.w, spec.project, placed)
    modifies host
    ensures Progress(host, a, was, spec.project, {}, {}) && host.faults >= old(host.faults)
    ensures Placed(host.w, spec, workers, placed) && OnlyWorkersChange(a, host.w, spec.project, placed)
    ensures Running(host.w, placed, waiting - {task}) <==>
              host.faults == old(host.faults) && Running(old(host.w), placed, waiting)
    ensures StillStopped(host.w, placed, waiting - {task}) && host.w.images == old(host.w).images
  {
    hide Progress, Within, Stays, Placed, Running, StillStopped;
    RunningStarted(host.w, spec, workers, placed, waiting, task);
    PlacedIsThere(host.w, spec, workers, placed, task);
    ghost var w := host.w;
    var ok := StartWithin(host, id, a, was, spec.project, {}, {});
    if ok {
      WorkerStarted(a, w, id, spec, workers, placed);
    }
  }

  /** The containers among `ids` that run the worker. */
  function OfWorker(w: World, ids: set<nat>, worker: string): set<nat> {
    set id | id in ids && id in w.containers && LabelOr(w.containers[id].labels, WorkerLabel) == Some(worker)
  }

  /** A successful start gives every worker one container for each effective replica. */
  lemma {:induction false} WorkerCount(w: World, spec: AppSpec, workers: map<string, Worker>, placed: map<Task, nat>,
                                       worker: string)
    requires Placed(w, spec, workers, placed) && placed.Keys == Tasks(workers) && worker in workers
    ensures FitsReplicas(|OfWorker(w, placed.Values, worker)|, workers[worker].replicas)
  {
    var n := EffectiveReplicas(workers[worker].replicas);
    forall t | t in placed ensures LabelOr(w.containers[placed[t]].labels, WorkerLabel) == Some(t.worker) {
      WorkerLabelsFit(spec.project, t.worker);
    }
    ReplicasOf(w, placed, workers, worker);
    FirstReplicas(placed, worker, n);
  }

  lemma ReplicasOf(w: World, placed: map<Task, nat>, workers: map<string, Worker>, worker: string)
    requires placed.Keys == Tasks(workers) && worker in workers
    requires forall t | t in placed :: placed[t] in w.containers
    requires forall t | t in placed :: LabelOr(w.containers[placed[t]].labels, WorkerLabel) == Some(t.worker)
    ensures forall i | 0 <= i < EffectiveReplicas(workers[worker].replicas) :: Task(worker, i) in placed
    ensures OfWorker(w, placed.Values, worker)
         == Replicas(placed, worker, EffectiveReplicas(workers[worker].replicas))
  {
    hide LabelOr, Tasks, EffectiveReplicas, Replicas;
    var n := EffectiveReplicas(workers[worker].replicas);
    forall i | 0 <= i < n ensures Task(worker, i) in placed {
      TaskIsConfigured(workers, Task(worker, i));
    }
    forall id | id in OfWorker(w, placed.Values, worker)
      ensures exists i | 0 <= i < n :: placed[Task(worker, i)] == id
    {
      var t :| t in placed && placed[t] == id;
      TaskIsConfigured(workers, t);
      assert t == Task(worker, t.replica);
    }
    forall id ensures id in Replicas(placed, worker, n) <==> id in OfWorker(w, placed.Values, worker) {
      ReplicasMeaning(placed, worker, n, id);
    }
  }

  lemma TaskIsConfigured(workers: map<string, Worker>, t: Task)
    ensures t in Tasks(workers) <==> t.worker in workers && t.replica < EffectiveReplicas(workers[t.worker].replicas)
  {
    hide EffectiveReplicas;
  }

  /** The containers of the first n replicas. */
  function Replicas(placed: map<Task, nat>, worker: string, n: nat): set<nat>
    requires forall i | 0 <= i < n :: Task(worker, i) in placed
  {
    if n == 0 then {} else Replicas(placed, worker, n - 1) + {placed[Task(worker, n - 1)]}
  }

  lemma {:induction false} ReplicasMeaning(placed: map<Task, nat>, worker: string, n: nat, id: nat)
    requires forall i | 0 <= i < n :: Task(worker, i) in placed
    ensures id in Replicas(placed, worker, n) <==> exists i | 0 <= i < n :: placed[Task(worker, i)] == id
  {
    if n > 0 {
      ReplicasMeaning(placed, worker, n - 1, id);
      assert placed[Task(worker, n - 1)] == id ==> exists i | 0 <= i < n :: placed[Task(worker, i)] == id;
    }
  }

  lemma NextReplicaIsNew(placed: map<Task, nat>, worker: string, n: nat)
    requires forall i | 0 <= i <= n :: Task(worker, i) in placed
    requires OneContainerEach(placed)
    ensures placed[Task(worker, n)] !in Replicas(placed, worker, n)
  {
    hide Replicas;
    ReplicasMeaning(placed, worker, n, placed[Task(worker, n)]);
    forall i | 0 <= i < n ensures placed[Task(worker, i)] != placed[Task(worker, n)] {
      assert Task(worker, i) != Task(worker, n);
    }
  }

  lemma {:induction false} FirstReplicas(placed: map<Task, nat>, worker: string, n: nat)
    requires forall i | 0 <= i < n :: Task(worker, i) in placed
    requires OneContainerEach(placed)
    ensures |Replicas(placed, worker, n)| == n
  {
    hide OneContainerEach;
    if n > 0 {
      FirstReplicas(placed, worker, n - 1);
      NextReplicaIsNew(placed, worker, n - 1);
      OneReplicaMore(placed, worker, n - 1);
    }
  }

  lemma OneReplicaMore(placed: map<Task, nat>, worker: string, n: nat)
    requires forall i | 0 <= i <= n :: Task(worker, i) in placed
    ensures Replicas(placed, worker, n + 1) == Replicas(placed, worker, n) + {placed[Task(worker, n)]}
  {
  }
}

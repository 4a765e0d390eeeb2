/** The state a project should be in after a deployment. */
module Health {
  import opened Docker
  import opened Fleet
  import opened Config
  import opened DeploySteps
  import opened DeployFinish
  import opened WorkerStart

  /** The state a project should be in: one application container that carries the traffic, one worker
      container per effective replica, and two cronjob containers if there are cronjobs, all running. */
  ghost predicate Healthy(w: World, spec: AppSpec, project: Project) {
    && |Apps(w, project.name)| == 1 && Serving(w, project.name)
    && Apps(w, project.name) == {w.routes[project.name]}
    && IsDeployedApp(w.containers[w.routes[project.name]], spec)
    && (forall id | id in Workers(w, project.name) :: id in w.containers && w.containers[id].running
          && w.containers[id].image == spec.image && w.containers[id].env == spec.env)
    && (forall worker | worker in project.workers ::
          FitsReplicas(|OfWorker(w, Workers(w, project.name), worker)|, project.workers[worker].replicas))
    && (forall worker | worker !in project.workers :: OfWorker(w, Workers(w, project.name), worker) == {})
    && |Cronjobs(w, project.name)| == (if project.cronjobs == [] then 0 else 2)
    && AllRunning(w, Cronjobs(w, project.name), true)
  }

  lemma WorkersAreHealthy(w: World, spec: AppSpec, project: Project, placed: map<Task, nat>)
    requires Placed(w, spec, project.workers, placed) && FullyStaffed(w, project, placed)
    ensures forall id | id in placed.Values :: id in w.containers && w.containers[id].running
              && w.containers[id].image == spec.image && w.containers[id].env == spec.env
    ensures forall worker | worker in project.workers ::
              FitsReplicas(|OfWorker(w, placed.Values, worker)|, project.workers[worker].replicas)
    ensures forall worker | worker !in project.workers :: OfWorker(w, placed.Values, worker) == {}
  {
    hide Tasks, EffectiveReplicas, FitsReplicas;
    forall worker | worker in project.workers
      ensures FitsReplicas(|OfWorker(w, placed.Values, worker)|, project.workers[worker].replicas)
    {
      WorkerCount(w, spec, project.workers, placed, worker);
    }
    forall worker, id | worker !in project.workers && id in placed.Values
      ensures id !in OfWorker(w, placed.Values, worker)
    {
      var t :| t in placed && placed[t] == id;
      WorkerLabelsFit(spec.project, t.worker);
    }
  }
}

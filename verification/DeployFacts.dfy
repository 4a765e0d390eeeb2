/** What the steps of a deployment leave alone: the application, the old workers and cronjobs, and the
    services, from one step to the next. */
module DeployFacts {
  import opened Text
  import opened Docker
  import opened Frames
  import opened Fleet
  import opened Config
  import opened Safety
  import opened Handover
  import opened DeploySteps
  import opened DeployPrepare
  import opened ServiceStart
  import opened Versions

  // Up to the deploy hook.

  /** The containers of these listings are exactly as they were. */
  ghost predicate Unchanged(a: World, w: World, ids: set<nat>) {
    forall id | id in ids && id in a.containers :: id in w.containers && w.containers[id] == a.containers[id]
  }

  /** The application, its route and the role listings are as they were. */
  ghost predicate AppStays(a: World, w: World, project: string) {
    RolesStay(a, w, project) && Unchanged(a, w, Apps(a, project)) && w.routes == a.routes
  }

  ghost predicate VolumesKept(a: World, w: World) {
    forall v | v in a.volumes :: v in w.volumes && w.volumes[v] == a.volumes[v]
  }

  /** No image reference and no volume is lost. */
  ghost predicate AssetsKept(a: World, w: World) {
    ImagesGrow(a.images, w.images) && (UniqueTags(a.images) ==> UniqueTags(w.images)) && VolumesKept(a, w)
  }

  /** So far only services, and volumes and networks. */
  ghost predicate NotYetTouched(a: World, w: World, project: string) {
    AppStays(a, w, project) && Unchanged(a, w, Sides(a, project)) && AssetsKept(a, w)
  }

  /** All old workers and cronjobs are stopped. */
  ghost predicate SidesDrained(a: World, w: World, project: string) {
    AppStays(a, w, project) && AllRunning(w, Sides(a, project), false) && AssetsKept(a, w)
  }

  lemma ServicesAreHarmless(a: World, project: string)
    requires WellFormed(a)
    ensures Harmless(a, project, Services(a, project), {})
  {
  }

  lemma PreparedIsUntouched(a: World, w: World, project: string)
    requires WellFormed(a) && Within(a, w, project, Services(a, project), {}) && RolesStay(a, w, project)
    ensures NotYetTouched(a, w, project)
  {
    hide UniqueTags, ImagesGrow;
    assert Services(a, project) !! Apps(a, project) && Services(a, project) !! Sides(a, project);
  }

  lemma SidesAreHarmless(w: World, project: string)
    requires WellFormed(w)
    ensures Harmless(w, project, Sides(w, project), {})
  {
  }

  lemma StoppingKeepsApp(a: World, w: World, v: World, project: string)
    requires WellFormed(w) && NotYetTouched(a, w, project) && OnlyStopped(w, v, Sides(w, project))
    ensures AppStays(a, v, project) && AssetsKept(a, v) && v.images == w.images
    ensures AllRunning(v, Sides(w, project), false) ==> SidesDrained(a, v, project)
    ensures v == w ==> NotYetTouched(a, v, project)
  {
    hide UniqueTags, ImagesGrow, Listed;
    OnlyRunningRoles(w, v, Sides(w, project), project);
    AppsAreNoSides(w, project);
    AppsExist(a, project);
  }

  lemma AppsAreNoSides(w: World, project: string)
    requires WellFormed(w)
    ensures Apps(w, project) !! Sides(w, project)
  {
  }

  lemma AppsExist(w: World, project: string)
    ensures forall id | id in Apps(w, project) + Sides(w, project) :: id in w.containers
  {
  }

  lemma DrainedOutlives(a: World, w: World, v: World, project: string)
    requires WellFormed(a) && SidesDrained(a, w, project) && Within(w, v, project, {}, {}) && SameRoles(w, v, project)
    ensures SidesDrained(a, v, project)
  {
    hide UniqueTags, ImagesGrow, Listed;
    ImagesGrowTransitive(a.images, w.images, v.images);
    AppsExist(a, project);
  }

  // The services, from the end of the preparation on.

  ghost predicate SlicesStay(w: World, v: World, project: string) {
    forall name :: Slice(v, project, name) == Slice(w, project, name)
  }

  lemma WithinKeepsSlices(w: World, v: World, project: string, hurt: set<nat>, woken: set<nat>)
    requires WellFormed(w) && Within(w, v, project, hurt, woken)
    requires Services(v, project) == Services(w, project) && (hurt + woken) !! Services(w, project)
    ensures SlicesStay(w, v, project)
  {
    hide UniqueTags, ImagesGrow;
    forall name ensures Slice(v, project, name) == Slice(w, project, name) {
      FoundIsService(w, project, name);
      FoundIsService(v, project, name);
      SliceKeys(w, project, name);
      SliceKeys(v, project, name);
    }
  }

  lemma LaunchKeepsSlices(w: World, v: World, spec: AppSpec)
    requires WellFormed(w) && IsLaunched(w, v, spec)
    ensures SlicesStay(w, v, spec.project)
  {
    LaunchedRoles(w, v, spec);
    forall name ensures Slice(v, spec.project, name) == Slice(w, spec.project, name) {
      FoundIsService(w, spec.project, name);
      FoundIsService(v, spec.project, name);
      SliceKeys(w, spec.project, name);
      SliceKeys(v, spec.project, name);
    }
  }

  lemma RestoringKeepsSlices(w: World, v: World, project: string, id: nat, removal: set<nat>)
    requires WellFormed(w) && id in Apps(w, project) && removal !! Services(w, project) && Restoring(w, v, id, removal)
    requires Safe(w, v, project)
    ensures SlicesStay(w, v, project)
  {
    AppsAreNoServices(w, project);
    forall name ensures Slice(v, project, name) == Slice(w, project, name) {
      if v.containers - {id} == w.containers - {id} {
        OneContainerApart(w, v, project, name, id);
      } else {
        OneContainerGone(w, v, project, name, id, removal);
      }
    }
  }

  lemma OneContainerGone(w: World, v: World, project: string, name: string, id: nat, removal: set<nat>)
    requires OnlyStarted(Removed(w, id), v, removal) && id !in Services(w, project) && removal !! Services(w, project)
    ensures Slice(v, project, name) == Slice(w, project, name)
  {
    hide Listed, Carries;
    FoundIsService(w, project, name);
    SliceMembers(w, project, name);
    SliceMembers(v, project, name);
    ghost var r := Removed(w, id);
    forall other ensures other in v.containers <==> other in w.containers && other != id {
      assert other in r.containers <==> other in w.containers && other != id;
    }
    forall other | other in v.containers ensures v.containers[other].labels == w.containers[other].labels {
      assert other in r.containers && r.containers[other] == w.containers[other];
    }
    forall other | other in Slice(w, project, name)
      ensures other in v.containers && v.containers[other] == w.containers[other]
    {
      assert other in r.containers;
    }
  }

  lemma SliceMembers(w: World, project: string, name: string)
    ensures forall id :: id in Slice(w, project, name) <==>
              id in w.containers && OfProject(w.containers[id].labels, project)
              && LabelOr(w.containers[id].labels, ServiceLabel) == Some(name)
  {
  }

  lemma AppsAreNoServices(w: World, project: string)
    requires WellFormed(w)
    ensures Apps(w, project) !! Services(w, project)
  {
  }

  lemma OneContainerApart(w: World, v: World, project: string, name: string, id: nat)
    requires v.containers - {id} == w.containers - {id}
    requires id in w.containers && ServiceLabel !in w.containers[id].labels
    requires id in v.containers ==> v.containers[id].labels == w.containers[id].labels
    ensures Slice(v, project, name) == Slice(w, project, name)
  {
    forall other | other != id
      ensures other in v.containers <==> other in w.containers
      ensures other in v.containers ==> v.containers[other] == w.containers[other]
    {
      assert other in v.containers - {id} <==> other in w.containers - {id};
      assert other in v.containers ==> (v.containers - {id})[other] == (w.containers - {id})[other];
    }
  }

  /** No service that is not configured was touched, none has got a second container, and none has lost
      the settings its containers were created from. */
  ghost predicate ServicesKept(a: World, w: World, project: Project, imageCommand: string -> seq<string>) {
    && DanglingStay(a, w, project.name, project.services)
    && (forall name :: NoMoreThanOne(Slice(a, project.name, name), Slice(w, project.name, name)))
    && SlicesStayHonest(a, w, project.name, project.services, imageCommand)
  }

  lemma SlicesCarryOn(a: World, w: World, v: World, project: Project, imageCommand: string -> seq<string>)
    requires SlicesStay(w, v, project.name)
    ensures ServicesKept(a, w, project, imageCommand) ==> ServicesKept(a, v, project, imageCommand)
    ensures ServicesValidated(project.services) && AllSettled(a, w, project.name, project.services, imageCommand) ==>
              AllSettled(a, v, project.name, project.services, imageCommand)
  {
    hide Slice, NoMoreThanOne, ServicesValidated, SliceRunsSettings, Settings.KindOf, Settings.FamilyOf;
    if ServicesValidated(project.services) && AllSettled(a, w, project.name, project.services, imageCommand) {
      forall name | name in project.services
        ensures IsSettled(a, v, JobOf(project.name, project.services, name), imageCommand)
      {
        SettledCarriesOn(a, w, v, JobOf(project.name, project.services, name), imageCommand);
      }
    }
  }

  lemma SettledCarriesOn(a: World, w: World, v: World, job: Job, imageCommand: string -> seq<string>)
    requires IsSettled(a, w, job, imageCommand) && Slice(v, job.project, job.name) == Slice(w, job.project, job.name)
    ensures IsSettled(a, v, job, imageCommand)
  {
    hide Slice, OnTrack;
    var s: Stage :| (s.Kept? || s.Started?) && JobOnTrack(a, w, job, imageCommand, s);
    assert JobOnTrack(a, v, job, imageCommand, s);
  }

  lemma SlicesStayTwice(w: World, v: World, u: World, project: string)
    requires SlicesStay(w, v, project) && SlicesStay(v, u, project)
    ensures SlicesStay(w, u, project)
  {
    hide Slice;
  }

  // The new application container.

  /** The new container runs beside the old ones, whose workers and cronjobs are stopped. */
  ghost predicate Launched(a: World, w: World, spec: AppSpec, id: nat) {
    && id !in a.containers && id in w.containers && IsDeployedApp(w.containers[id], spec)
    && Apps(w, spec.project) == Apps(a, spec.project) + {id}
    && Workers(w, spec.project) == Workers(a, spec.project) && Cronjobs(w, spec.project) == Cronjobs(a, spec.project)
    && Unchanged(a, w, Apps(a, spec.project)) && AllRunning(w, Sides(a, spec.project), false)
    && w.routes == a.routes && AssetsKept(a, w)
  }

  lemma LaunchAfterDrain(a: World, w: World, v: World, spec: AppSpec)
    requires WellFormed(a) && WellFormed(w) && a.nextId <= w.nextId && SidesDrained(a, w, spec.project)
               && IsLaunched(w, v, spec)
    ensures Launched(a, v, spec, w.nextId)
    ensures Exclusive(a, v, spec.project)
  {
    hide UniqueTags, ImagesGrow, Listed, IsDeployedApp;
    LaunchedRoles(w, v, spec);
    AppsExist(a, spec.project);
  }

  lemma DrainedIsExclusive(a: World, w: World, project: string)
    requires WellFormed(a) && SidesDrained(a, w, project)
    ensures Exclusive(a, w, project)
  {
  }

  /** The old application and worker containers, all that a failed switch brings back. */
  function Removal(a: World, project: string): set<nat> {
    Apps(a, project) + Workers(a, project)
  }

  lemma LaunchedCanTakeOver(a: World, w: World, spec: AppSpec, id: nat)
    requires WellFormed(a) && WellFormed(w) && Launched(a, w, spec, id) && a.nextId <= id && w.containers[id].running
    ensures CanTakeOver(w, spec.project, id, Removal(a, spec.project))
    ensures Removal(a, spec.project) !! Services(w, spec.project) && id in Apps(w, spec.project)
    ensures w.routes == a.routes && AssetsKept(a, w)
  {
    hide UniqueTags, ImagesGrow;
    AppLabelsFit(spec.project);
    assert forall other | other in Removal(a, spec.project) ::
             other in Apps(w, spec.project) + Workers(w, spec.project);
  }

  /** Either the old side containers are still stopped, or the new application container is gone. */
  lemma RestoringIsExclusive(a: World, w: World, v: World, spec: AppSpec, id: nat)
    requires WellFormed(a) && Launched(a, w, spec, id) && Restoring(w, v, id, Removal(a, spec.project))
    ensures Exclusive(a, v, spec.project)
  {
    hide UniqueTags, ImagesGrow, IsDeployedApp;
    if v.containers - {id} == w.containers - {id} {
      forall other | other in Sides(a, spec.project) && other in v.containers ensures !v.containers[other].running {
        assert other in v.containers - {id};
        assert (v.containers - {id})[other] == (w.containers - {id})[other];
      }
    } else {
      RestoredRoles(w, v, spec.project, id, Removal(a, spec.project));
    }
  }

  lemma RestoredRoles(w: World, v: World, project: string, id: nat, removal: set<nat>)
    requires OnlyStarted(Removed(w, id), v, removal)
    ensures Apps(v, project) == Apps(w, project) - {id} && Workers(v, project) == Workers(w, project) - {id}
    ensures Cronjobs(v, project) == Cronjobs(w, project) - {id} && Services(v, project) == Services(w, project) - {id}
  {
    RemovedRoles(w, id, project);
    OnlyRunningRoles(Removed(w, id), v, removal, project);
  }

  /** The compensated state: everything found at the start is present, the application and the workers
      run, and the cronjobs are stopped. */
  ghost predicate Compensated(a: World, w: World, project: string) {
    && RolesStay(a, w, project) && w.routes == a.routes
    && AllRunning(w, Removal(a, project), true) && AllRunning(w, Cronjobs(a, project), false)
  }

  lemma RestoredIsCompensated(a: World, w: World, v: World, spec: AppSpec, id: nat)
    requires WellFormed(a) && Launched(a, w, spec, id) && OnlyStarted(Removed(w, id), v, Removal(a, spec.project))
    requires AllRunning(v, Removal(a, spec.project), true) && v.routes == w.routes
    ensures Compensated(a, v, spec.project)
  {
    hide UniqueTags, ImagesGrow, IsDeployedApp;
    RestoredRoles(w, v, spec.project, id, Removal(a, spec.project));
    CronjobsApart(a, spec.project);
    forall other | other in Cronjobs(a, spec.project) ensures other in v.containers && !v.containers[other].running {
      assert other in Sides(a, spec.project);
      assert other in Removed(w, id).containers;
    }
  }

  lemma CronjobsApart(a: World, project: string)
    requires WellFormed(a)
    ensures Cronjobs(a, project) !! Removal(a, project)
    ensures forall id | id in Cronjobs(a, project) + Removal(a, project) :: id in a.containers
  {
  }
}

/** The project configuration. */
module Config {
  import opened Names
  import Env

  datatype Worker = Worker(command: string, replicas: int)

  datatype Service = Service(serviceType: string, settings: map<string, string>)

  /** `mounts` maps mount names to paths; an empty hook means none. */
  datatype Project = Project(
    name: string, image: string, keepVersions: int,
    env: Env.Spec,
    mounts: map<string, string>, workers: map<string, Worker>, cronjobs: seq<string>,
    deployHook: string, postDeployHook: string,
    services: map<string, Service>)

  const DEFAULT_KEEP_VERSIONS := 5

  /** The default of `keep_versions`; a negative number stays as it is. */
  function FillDefaults(p: Project): Project {
    if p.keepVersions == 0 then p.(keepVersions := DEFAULT_KEEP_VERSIONS) else p
  }

  predicate Validated(p: Project) {
    ValidProjectName(p.name) && p.image != ""
  }

  lemma AcceptedExactlyWhen(p: Project)
    ensures Validated(p) <==> MatchesPattern(p.name) && |p.image| > 0
  {
    Names.AcceptedExactlyWhen(p.name);
  }

  /** The containers a worker has to have: as many as configured, one if nothing is configured, and none
      for a negative number. */
  ghost predicate FitsReplicas(containers: nat, replicas: int) {
    && (replicas > 0 ==> containers == replicas)
    && (replicas == 0 ==> containers == 1)
    && (replicas < 0 ==> containers == 0)
  }

  /** The turns of the loop that starts them. */
  function EffectiveReplicas(replicas: int): nat {
    if replicas == 0 then 1 else if replicas < 0 then 0 else replicas
  }

  /** Only a missing number is filled in, with 5; so at least one version is kept exactly when no negative
      number is configured. */
  lemma DefaultsKeepAVersion(p: Project)
    ensures FillDefaults(p).keepVersions >= 1 <==> p.keepVersions >= 0
    ensures p.keepVersions == 0 ==> FillDefaults(p) == p.(keepVersions := 5)
    ensures p.keepVersions != 0 ==> FillDefaults(p) == p
  {
  }

  /** Two accepted projects with different names share no container and no volume name. */
  lemma AcceptedProjectsStayApart(p: Project, q: Project, r: Resource, s: Resource)
    requires Validated(p) && Validated(q) && p.name != q.name
    ensures Name(p.name, r) != Name(q.name, s)
  {
    hide Name, ValidProjectName;
    if Name(p.name, r) == Name(q.name, s) {
      NamesSeparateProjects(p.name, q.name, r, s);
    }
  }
}

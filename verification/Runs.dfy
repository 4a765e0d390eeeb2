/** Properties over whole series of commands: no downtime, healing, rollbacks that come to an end, and
    secrets that stay. */
module Runs {
  import opened Text
  import opened Names
  import opened Docker
  import opened Frames
  import opened Fleet
  import opened Config
  import opened Kv
  import opened Secrets
  import opened Safety
  import opened Handover
  import opened DeploySteps
  import opened DeployPrepare
  import opened Versions
  import opened VersionCommands
  import opened Deployment
  import InitialSecrets
  import Rollbacks
  import Env

  // Zero downtime.

  /** The states one command went through, and the project it was run for; `silent` when the proxy
      reported no error and did not switch either. */
  datatype Episode = Episode(project: string, silent: bool, states: seq<World>)

  function LastOf(start: World, states: seq<World>): World {
    if states == [] then start else states[|states| - 1]
  }

  function EndOf(start: World, history: seq<Episode>): World {
    if history == [] then start
    else LastOf(EndOf(start, history[..|history| - 1]), history[|history| - 1].states)
  }

  /** What a command promises for each state it goes through. */
  ghost predicate Spared(a: World, w: World, project: string, silent: bool) {
    if silent then Apart(a, w, project) else Safe(a, w, project)
  }

  /** Every command began where the one before it ended, and kept its promise in each of its states. */
  ghost predicate IsHistory(start: World, history: seq<Episode>) {
    history == [] ||
      var before, last := history[..|history| - 1], history[|history| - 1];
      && IsHistory(start, before)
      && forall k | 0 <= k < |last.states| :: Spared(EndOf(start, before), last.states[k], last.project, last.silent)
  }

  /** In no command for the project was the proxy silent. */
  ghost predicate NeverSilent(history: seq<Episode>, q: string) {
    forall n | 0 <= n < |history| && history[n].silent :: history[n].project != q
  }

  lemma SparedIsServed(a: World, w: World, project: string, silent: bool, q: string)
    requires Spared(a, w, project, silent) && (silent ==> project != q) && Serving(a, q)
    ensures Serving(w, q)
  {
    hide Serving, Safe, Apart;
    if silent {
      ApartKeepsServing(a, w, project, q);
    } else {
      SafeKeepsServing(a, w, project, q);
    }
  }

  lemma {:induction false} ServedAtTheEnd(start: World, history: seq<Episode>, q: string)
    requires IsHistory(start, history) && Serving(start, q) && NeverSilent(history, q)
    ensures Serving(EndOf(start, history), q)
  {
    hide Serving, Spared;
    if history != [] {
      var before, last := history[..|history| - 1], history[|history| - 1];
      ServedAtTheEnd(start, before, q);
      if last.states != [] {
        SparedIsServed(EndOf(start, before), last.states[|last.states| - 1], last.project, last.silent, q);
      }
    }
  }

  /** Zero downtime over any series of failed and successful deployments and service removals, of any
      projects: a project that is served at the start is served in every state, unless the proxy once
      was silent in a deployment of this very project. */
  lemma {:induction false} NeverDown(start: World, history: seq<Episode>, q: string, i: nat, k: nat)
    requires IsHistory(start, history) && Serving(start, q) && NeverSilent(history, q)
    requires i < |history| && k < |history[i].states|
    ensures Serving(history[i].states[k], q)
  {
    hide Serving, Spared;
    var n := |history| - 1;
    if i == n {
      ServedAtTheEnd(start, history[..n], q);
      SparedIsServed(EndOf(start, history[..n]), history[n].states[k], history[n].project, history[n].silent, q);
    } else {
      assert history[..n][i] == history[i];
      NeverDown(start, history[..n], q, i, k);
    }
  }

  lemma {:induction false} HistoryGrows(start: World, history: seq<Episode>, was: seq<World>, trace: seq<World>,
                                        project: string, silent: bool)
    requires IsHistory(start, history) && was != [] && was[|was| - 1] == EndOf(start, history) && was <= trace
    requires forall k | |was| <= k < |trace| :: Spared(EndOf(start, history), trace[k], project, silent)
    ensures var more := history + [Episode(project, silent, trace[|was|..])];
            IsHistory(start, more) && EndOf(start, more) == trace[|trace| - 1]
  {
    hide Spared;
    var more := history + [Episode(project, silent, trace[|was|..])];
    assert more[..|more| - 1] == history;
    assert trace[..|was|] == was;
  }

  /** A deployment continues a history. */
  lemma {:induction false} DeploymentContinues(host: Host, start: World, history: seq<Episode>, a: World,
                                               was: seq<World>, project: string, silent: bool)
    requires IsHistory(start, history) && EndOf(start, history) == a && was != [] && was[|was| - 1] == a
    requires if silent then AllAstray(host, a, was, project) else Sound(host, a, was, project)
    ensures var more := history + [Episode(project, silent, host.trace[|was|..])];
            IsHistory(start, more) && EndOf(start, more) == host.w
  {
    hide Apart, Exclusive, Serving, ServedWhilePresent, IsHistory, EndOf, WellFormed;
    HistoryGrows(start, history, was, host.trace, project, silent);
  }

  /** So does the removal of a service. */
  lemma {:induction false} RemovalContinues(host: Host, start: World, history: seq<Episode>, a: World,
                                            was: seq<World>, project: string)
    requires IsHistory(start, history) && EndOf(start, history) == a && was != [] && was[|was| - 1] == a
    requires Secure(host, a, was, project)
    ensures var more := history + [Episode(project, false, host.trace[|was|..])];
            IsHistory(start, more) && EndOf(start, more) == host.w
  {
    hide Safe, IsHistory, EndOf, WellFormed;
    HistoryGrows(start, history, was, host.trace, project, false);
  }

  /** What a silent proxy costs, at one input: container 0 carries the traffic and is replaced by
      container 1; the route still leads to 0, and nobody serves the project any more. */
  lemma {:induction false} SilentProxyLosesTraffic()
      returns (spec: AppSpec, a: World, launched: World, w: World)
    ensures WellFormed(a) && Serving(a, spec.project)
    ensures IsLaunched(a, launched, spec) && TakenOver(a, launched, spec, 1, false)
    ensures w == Removed(launched, 0) && Leads(a, w, spec, 1, false) && Apps(w, spec.project) == {1}
    ensures !Safe(a, w, spec.project) && !Serving(w, spec.project)
  {
    hide Name, AppLabels;
    spec := AppSpec("shop", "shop:2", {}, map[]);
    AppLabelsFit("shop");
    a := World(map[0 := Container("first", AppLabels("shop"), "shop:1", [], {}, {}, true)], 1, map[], map[], {},
               map["shop" := 0]);
    launched := SetRunning(Created(a, AppBlueprint(spec, 0), []), 1, true);
    assert IsAddition(a, launched, AppBlueprint(spec, 0));
    LaunchedRoles(a, launched, spec);
    w := Removed(launched, 0);
    TakesOverSilently(a, launched, spec);
    RemovedRoles(launched, 0, "shop");
  }

  lemma TakesOverSilently(a: World, w: World, spec: AppSpec)
    requires WellFormed(a) && IsLaunched(a, w, spec) && w.containers[a.nextId].running
    requires Sides(a, spec.project) == {}
    ensures TakenOver(a, w, spec, a.nextId, false)
  {
    hide Listed, IsLaunched, IsDeployedApp, UniqueTags;
    LaunchedRoles(a, w, spec);
  }

  // Rollbacks.

  /** None of the references is one of the repository's. */
  predicate AreForeign(refs: set<string>, repo: string) {
    forall ref | ref in refs :: !HasPrefix(ref, repo + ":")
  }

  /** When the version a rollback selects has replaced the old containers, a drain that goes through makes
      this a step of a rollback chain, and exactly that version is active; unless the tool's own images
      are taken from the project's repository. */
  lemma {:induction false} DeployedRollback(images: Images, replaced: World, project: Project, version: string, id: nat,
                                            d: Drain, current: string)
    requires Apps(replaced, project.name) == {id} && replaced.containers[id].image == Ref(project.image, version)
    requires ':' !in project.image && IsFullDrain(d, replaced, project)
    requires Rollbacks.SelectsRollback(images, project.image, current, version)
    requires GrowBy(images, replaced.images, Pulls(images, project.services, Ref(project.image, version)))
    requires UniqueTags(images) ==> UniqueTags(replaced.images)
    requires AreForeign(SideImages(project.services), project.image)
    ensures project.keepVersions >= 0
    ensures Rollbacks.RollbackStep(images, current, Purge(replaced.images, d.gone), version, project.image,
                                   project.keepVersions)
    ensures forall next :: CurrentOf(replaced, project.name, next) <==> next == version
  {
    hide UniqueTags, Listed, Purge, DoomedTags, IsListing, Rollbacks.SelectsRollback, Rollbacks.NoNewVersions, GrowBy,
         SideImages, HasTag;
    Rollbacks.SelectedExists(images, project.image, current, version);
    assert Pulls(images, project.services, Ref(project.image, version)) == SideImages(project.services);
    Rollbacks.GrownByForeigners(images, replaced.images, SideImages(project.services), project.image);
    OnlyAppIsCurrent(replaced, project.name, project.image, version, d.current, id);
    assert Rollbacks.DrainStep(replaced.images, Purge(replaced.images, d.gone), version, project.image,
                               project.keepVersions);
    Rollbacks.VersionReadsBack(project.image, version);
    assert id in Apps(replaced, project.name);
  }

  // Secrets.

  /** What a deployment, however it ended, did to the store is one attempt of the series that
      `GeneratedOnce` is about, one that counts as storing whenever the store holds the result. */
  lemma {:induction false} DeploymentIsAttempt(spec: Env.Spec, run: Env.Run, codec: Codec, project: string,
                                               before: Table, after: Table, stored: Vars,
                                               attempts: seq<InitialSecrets.Attempt>, start: Vars)
      returns (attempt: InitialSecrets.Attempt)
    requires StoreStep(spec, run, codec, project, before, after, stored)
    requires Persisted(before, codec, project) == Some(InitialSecrets.StoredBefore(attempts, start))
    ensures attempt.spec == spec && attempt.run == run
    ensures Persisted(after, codec, project) == Some(InitialSecrets.StoredBefore(attempts + [attempt], start))
    ensures var result := Env.StoredAfter(spec, run, InitialSecrets.StoredBefore(attempts, start));
            Persisted(after, codec, project) == Some(result) ==> attempt.storedIt
  {
    var result := Env.StoredAfter(spec, run, InitialSecrets.StoredBefore(attempts, start));
    attempt := InitialSecrets.Attempt(spec, run, Persisted(after, codec, project) == Some(result));
    assert (attempts + [attempt])[..|attempts|] == attempts;
  }

  /** One deployment as the store sees it. */
  datatype StoreUse = StoreUse(spec: Env.Spec, run: Env.Run, before: Table, after: Table, stored: Vars)

  /** Between two deployments of the project nobody changed its secrets. */
  ghost predicate IsStoreSeries(codec: Codec, project: string, uses: seq<StoreUse>) {
    && (forall k | 0 <= k < |uses| ::
          StoreStep(uses[k].spec, uses[k].run, codec, project, uses[k].before, uses[k].after, uses[k].stored))
    && forall k, l | 0 <= k < l < |uses| && l == k + 1 ::
         Persisted(uses[l].before, codec, project) == Persisted(uses[k].after, codec, project)
  }

  ghost predicate Attempted(codec: Codec, project: string, use: StoreUse, a: InitialSecrets.Attempt, stored: Vars) {
    && a.spec == use.spec && a.run == use.run && Persisted(use.before, codec, project) == Some(stored)
    && (Persisted(use.after, codec, project) == Some(Env.StoredAfter(use.spec, use.run, stored)) ==> a.storedIt)
  }

  lemma {:induction false} SeriesIsAttempts(codec: Codec, project: string, uses: seq<StoreUse>, start: Vars)
      returns (attempts: seq<InitialSecrets.Attempt>)
    requires IsStoreSeries(codec, project, uses)
    requires uses != [] ==> Persisted(uses[0].before, codec, project) == Some(start)
    ensures |attempts| == |uses|
    ensures forall k | 0 <= k < |uses| ::
              Attempted(codec, project, uses[k], attempts[k], InitialSecrets.StoredBefore(attempts[..k], start))
    ensures uses != [] ==>
              Persisted(uses[|uses| - 1].after, codec, project) == Some(InitialSecrets.StoredBefore(attempts, start))
  {
    hide StoreStep, Persisted, Env.StoredAfter;
    attempts := [];
    if uses != [] {
      var n := |uses| - 1;
      var use := uses[n];
      var before := SeriesIsAttempts(codec, project, uses[..n], start);
      if n > 0 {
        assert uses[..n][n - 1] == uses[n - 1];
      }
      var a := DeploymentIsAttempt(use.spec, use.run, codec, project, use.before, use.after, use.stored, before, start);
      attempts := before + [a];
      forall k | 0 <= k < |uses|
        ensures Attempted(codec, project, uses[k], attempts[k], InitialSecrets.StoredBefore(attempts[..k], start))
      {
        if k < n {
          assert attempts[..k] == before[..k];
          assert Attempted(codec, project, uses[..n][k], before[k], InitialSecrets.StoredBefore(before[..k], start));
        } else {
          assert attempts[..k] == before;
        }
      }
    }
  }

  /** Over any series of deployments of a project, failed ones among them, all those that resolve their
      environment hand their containers the same entry for a secret that is initial, listed in
      `from_stored` under its own name, and set by no other layer. */
  lemma {:induction false} SecretNeverChanges(codec: Codec, project: string, uses: seq<StoreUse>, i: nat, j: nat,
                                              key: string, envI: set<string>, envJ: set<string>, resultsI: seq<Vars>,
                                              resultsJ: seq<Vars>)
      returns (value: string)
    requires IsStoreSeries(codec, project, uses) && i < j < |uses|
    requires Persisted(uses[0].before, codec, project).Some?
    requires forall n | i <= n <= j && key in uses[n].spec.initial ::
               InitialSecrets.OnlyFromStored(uses[n].spec, uses[n].run, key)
    requires key in uses[i].spec.initial && key in uses[j].spec.initial
    requires ResolvedBy(envI, codec, project, uses[i], resultsI) && ResolvedBy(envJ, codec, project, uses[j], resultsJ)
    requires key !in Env.ItemsLayer(resultsI) && key !in Env.ItemsLayer(resultsJ)
    ensures key + "=" + value in envI && key + "=" + value in envJ
  {
    hide InitialSecrets.OnlyFromStored, InitialSecrets.StoredBefore, Env.Injected, Env.StoredAfter, Env.Succeeds,
         StoreStep, Env.ItemsLayer, Env.AreItemResults, InitialSecrets.ValueOf;
    var start := Persisted(uses[0].before, codec, project).value;
    var attempts := SeriesIsAttempts(codec, project, uses, start);
    forall n | i <= n <= j ensures InitialSecrets.Spares(attempts[n], key) {
      assert Attempted(codec, project, uses[n], attempts[n], InitialSecrets.StoredBefore(attempts[..n], start));
    }
    assert Attempted(codec, project, uses[i], attempts[i], InitialSecrets.StoredBefore(attempts[..i], start));
    assert Attempted(codec, project, uses[j], attempts[j], InitialSecrets.StoredBefore(attempts[..j], start));
    InitialSecrets.GeneratedOnce(attempts, start, i, j, key);
    InitialSecrets.InjectedIsStored(uses[i].spec, uses[i].run, uses[i].stored, key);
    value := Lookup(Env.StoredAfter(uses[i].spec, uses[i].run, uses[i].stored), key);
    InjectedEntry(Env.Injected(uses[i].spec, uses[i].run, uses[i].stored), Env.ItemsLayer(resultsI), key, value);
    InjectedEntry(Env.Injected(uses[j].spec, uses[j].run, uses[j].stored), Env.ItemsLayer(resultsJ), key, value);
  }

  ghost predicate ResolvedBy(env: set<string>, codec: Codec, project: string, use: StoreUse, results: seq<Vars>) {
    IsResolved(env, use.spec, use.run, codec, project, use.before, use.after, use.stored, results)
  }

  lemma InjectedEntry(injected: Vars, items: Vars, key: string, value: string)
    requires InitialSecrets.ValueOf(injected, key) == Some(value) && key !in items
    ensures key + "=" + value in Env.Entries(injected + items)
  {
    assert key in injected + items && (injected + items)[key] == value;
  }

  /** The round trip of a secret, end to end: an argument `k=v` of `secret set` is an environment entry of
      the container a later deployment launches, if k is listed in `from_stored` and set by no file and
      no 1Password item. */
  lemma {:induction false} SecretReachesContainer(
      previous: Vars, args: seq<string>, i: nat, k: string, v: string, before: Table, after: Table, codec: Codec,
      run: Env.Run,
      project: Project, stored: Vars, results: seq<Vars>, spec: AppSpec, c: Container)
    requires SecretsAreSet(previous, args, before, codec, project.name)
    requires i < |args| && '=' !in k && args[i] == k + "=" + v
    requires forall j | i < j < |args| :: !HasPrefix(args[j], k + "=")
    requires k in project.env.fromStored && Env.Source(k, project.env.fromStored[k]) == k
    requires k !in Env.FileLayer(project.env.fromEnvFile, run) && k !in Env.ItemsLayer(results)
    requires IsResolved(spec.env, project.env, run, codec, project.name, before, after, stored, results)
    requires IsDeployedApp(c, spec)
    ensures args[i] in c.env
  {
    hide Env.Injected, Env.Succeeds, Env.AreItemResults, Env.StoredAfter, Env.FileLayer, Env.ItemsLayer;
    InitialSecrets.SecretRoundTrip(previous, args, i, k, v, project.env, run, results);
  }

  /** The store holds what `secret set` made of the secrets before. */
  ghost predicate SecretsAreSet(previous: Vars, args: seq<string>, table: Table, codec: Codec, project: string) {
    Assigned(previous, args).Some? && Persisted(table, codec, project) == Assigned(previous, args)
  }
}

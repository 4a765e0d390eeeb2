/** What the resolved environment means: which layer decides a variable, when an initial secret
    keeps its value from one deployment to the next, and how a stored secret reaches a container. */
module InitialSecrets {
  import opened Orders
  import opened Text
  import opened Kv
  import opened Secrets
  import opened Env
  import OnePassword

  function FileValue(files: seq<string>, run: Run, key: string): Option<string> {
    if files == [] then None
    else
      var vars := FileVars(run, files[|files| - 1]);
      if key in vars then Some(vars[key]) else FileValue(files[..|files| - 1], run, key)
  }

  /** The deciding value of a variable, looked for from the topmost layer down. */
  function Deciding(spec: Spec, run: Run, stored: Vars, key: string): Option<string> {
    if FileValue(spec.fromEnvFile, run, key).Some? then FileValue(spec.fromEnvFile, run, key)
    else if key in spec.fromStored && Source(key, spec.fromStored[key]) in stored then
      Some(stored[Source(key, spec.fromStored[key])])
    else if key in spec.fromEnv && run.getenv(Source(key, spec.fromEnv[key])) != "" then
      Some(run.getenv(Source(key, spec.fromEnv[key])))
    else if key in spec.env then EvaluateEntry(run, key, spec.env[key])
    else None
  }

  function ValueOf(vars: Vars, key: string): Option<string> {
    if key in vars then Some(vars[key]) else None
  }

  lemma {:induction false} LastFileWins(files: seq<string>, run: Run, key: string)
    ensures ValueOf(FileLayer(files, run), key) == FileValue(files, run, key)
  {
    if files != [] {
      LastFileWins(files[..|files| - 1], run, key);
    }
  }

  lemma FourLayers(a: Vars, b: Vars, c: Vars, d: Vars, key: string)
    ensures ValueOf(a + b + c + d, key)
         == if key in d then Some(d[key]) else if key in c then Some(c[key])
            else if key in b then Some(b[key]) else ValueOf(a, key)
  {
  }

  /** The merge of the lower layers holds for each variable the value of the topmost layer that
      sets it, and no variable that no layer sets. */
  lemma {:induction false} TopmostLayerDecides(spec: Spec, run: Run, stored: Vars, key: string)
    ensures ValueOf(Below(spec, run, stored), key) == Deciding(spec, run, stored, key)
  {
    LastFileWins(spec.fromEnvFile, run, key);
    FourLayers(ExpressionLayer(spec.env, run), ProcessLayer(spec.fromEnv, run),
               StoredLayer(spec.fromStored, stored), FileLayer(spec.fromEnvFile, run), key);
  }

  /** After a successful resolution the injected value and the stored value of every initial secret
      are the same, a missing stored value counting as empty. */
  lemma InjectedIsStored(spec: Spec, run: Run, stored: Vars, key: string)
    requires Succeeds(spec, run, stored) && key in spec.initial
    ensures ValueOf(Injected(spec, run, stored), key) == Some(Lookup(StoredAfter(spec, run, stored), key))
  {
    var below := Below(spec, run, stored);
    assert key in below ==>
             key in Overridden(spec.initial, below, stored) && key !in Generated(spec.initial, run, below);
    assert key !in below ==> key in Generated(spec.initial, run, below);
  }

  /** Does this evaluation of the expressions leave the secret as it was stored? */
  ghost predicate KeptBy(spec: Spec, run: Run, stored: Vars, key: string,
                         evaluate: (string, string) -> Option<string>) {
    Succeeds(spec, run.(evalInitial := evaluate), stored) ==>
      ValueOf(Injected(spec, run.(evalInitial := evaluate), stored), key) == Some(Lookup(stored, key))
  }

  lemma EvaluationChangesNothingBelow(spec: Spec, run: Run, stored: Vars, evaluate: (string, string) -> Option<string>)
    ensures Below(spec, run.(evalInitial := evaluate), stored) == Below(spec, run, stored)
  {
    var other := run.(evalInitial := evaluate);
    assert ExpressionLayer(spec.env, other) == ExpressionLayer(spec.env, run);
    assert ProcessLayer(spec.fromEnv, other) == ProcessLayer(spec.fromEnv, run);
    FilesIgnoreEvaluation(spec.fromEnvFile, run, evaluate);
  }

  lemma {:induction false} FilesIgnoreEvaluation(files: seq<string>, run: Run,
                                                 evaluate: (string, string) -> Option<string>)
    ensures FileLayer(files, run.(evalInitial := evaluate)) == FileLayer(files, run)
  {
    if files != [] {
      FilesIgnoreEvaluation(files[..|files| - 1], run, evaluate);
    }
  }

  lemma SetMeansKept(spec: Spec, run: Run, stored: Vars, key: string, evaluate: (string, string) -> Option<string>)
    requires key in spec.initial && key in Below(spec, run, stored)
    ensures KeptBy(spec, run, stored, key, evaluate)
  {
    hide Below, Succeeds, ValueOf;
    var other := run.(evalInitial := evaluate);
    EvaluationChangesNothingBelow(spec, run, stored, evaluate);
    if Succeeds(spec, other, stored) {
      InjectedIsStored(spec, other, stored, key);
    }
  }

  /** An expression that yields something else than what is stored. */
  function Different(stored: Vars, key: string): (string, string) -> Option<string> {
    (k: string, e: string) => Some(Lookup(stored, key) + "x")
  }

  lemma UnsetMeansChanged(spec: Spec, run: Run, stored: Vars, key: string)
    requires key in spec.initial && key !in Below(spec, run, stored) && Succeeds(spec, run, stored)
    ensures !KeptBy(spec, run, stored, key, Different(stored, key))
  {
    hide Below;
    var other := run.(evalInitial := Different(stored, key));
    EvaluationChangesNothingBelow(spec, run, stored, Different(stored, key));
    assert Succeeds(spec, other, stored);
    assert key in Generated(spec.initial, other, Below(spec, other, stored));
    assert ValueOf(Injected(spec, other, stored), key) == Some(Lookup(stored, key) + "x");
    assert |Lookup(stored, key) + "x"| == |Lookup(stored, key)| + 1;
  }

  /** An initial secret keeps its stored value in a further deployment, whatever its expression
      evaluates to, exactly when another layer also sets the variable. Being stored is not enough:
      the code asks whether the variable is set, not whether the secret is stored. */
  lemma {:induction false} KeptExactlyWhenAlsoSet(spec: Spec, run: Run, stored: Vars, key: string)
    requires key in spec.initial && Succeeds(spec, run, stored)
    ensures (forall evaluate :: KeptBy(spec, run, stored, key, evaluate)) <==> key in Below(spec, run, stored)
  {
    hide Below, Succeeds, KeptBy;
    if key in Below(spec, run, stored) {
      forall evaluate ensures KeptBy(spec, run, stored, key, evaluate) {
        SetMeansKept(spec, run, stored, key, evaluate);
      }
    } else {
      UnsetMeansChanged(spec, run, stored, key);
    }
  }

  function Nowhere(evaluate: (string, string) -> Option<string>): Run {
    Run(name => "", name => Missing, (k, e) => None, evaluate, i => true)
  }

  /** The configuration of the README example: one initial secret and nothing else. */
  function ExampleSpec(): Spec {
    Spec(map[], map[], map[], [], map["APP_SECRET" := "randomString(32)"], [])
  }

  lemma ExampleInjects(stored: Vars, value: string)
    ensures var run := Nowhere((k, e) => Some(value));
            && ValueOf(Injected(ExampleSpec(), run, stored), "APP_SECRET") == Some(value)
            && Lookup(StoredAfter(ExampleSpec(), run, stored), "APP_SECRET") == value
  {
    var run := Nowhere((k, e) => Some(value));
    assert Below(ExampleSpec(), run, stored) == map[];
    assert Generated(ExampleSpec().initial, run, map[]) == map["APP_SECRET" := value];
  }

  /** With it the secret is generated again: two deployments in a row inject two different values. */
  lemma ExampleRegenerates(first: string, second: string)
    requires first != second
    ensures var one := Nowhere((k, e) => Some(first)); var two := Nowhere((k, e) => Some(second));
            var stored := StoredAfter(ExampleSpec(), one, map[]);
            && Lookup(stored, "APP_SECRET") == first
            && ValueOf(Injected(ExampleSpec(), two, stored), "APP_SECRET") == Some(second)
            && ValueOf(Injected(ExampleSpec(), two, stored), "APP_SECRET")
               != ValueOf(Injected(ExampleSpec(), one, map[]), "APP_SECRET")
  {
    ExampleInjects(map[], first);
    ExampleInjects(StoredAfter(ExampleSpec(), Nowhere((k, e) => Some(first)), map[]), second);
  }

  /** One deployment of a series: its configuration, its run, and whether it got as far as storing what
      it generated. */
  datatype Attempt = Attempt(spec: Spec, run: Run, storedIt: bool)

  function StoredBefore(attempts: seq<Attempt>, start: Vars): Vars {
    if attempts == [] then start
    else
      var before, last := StoredBefore(attempts[..|attempts| - 1], start), attempts[|attempts| - 1];
      if last.storedIt then StoredAfter(last.spec, last.run, before) else before
  }

  /** The key is listed in `from_stored` under its own name and set by no other layer. */
  ghost predicate OnlyFromStored(spec: Spec, run: Run, key: string) {
    && key in spec.initial
    && key in spec.fromStored && Source(key, spec.fromStored[key]) == key
    && key !in ExpressionLayer(spec.env, run) && key !in ProcessLayer(spec.fromEnv, run)
    && key !in FileLayer(spec.fromEnvFile, run)
  }

  lemma StoredKeyStays(spec: Spec, run: Run, stored: Vars, key: string)
    requires OnlyFromStored(spec, run, key) && key in stored
    ensures key in StoredAfter(spec, run, stored) && StoredAfter(spec, run, stored)[key] == stored[key]
    ensures ValueOf(Injected(spec, run, stored), key) == Some(stored[key])
  {
    assert key in StoredLayer(spec.fromStored, stored);
    var below := Below(spec, run, stored);
    assert key in below && key !in Generated(spec.initial, run, below);
    assert key in Overridden(spec.initial, below, stored);
  }

  /** The deployment has the secret set up that way, or has no such initial secret at all. */
  ghost predicate Spares(a: Attempt, key: string) {
    key in a.spec.initial ==> OnlyFromStored(a.spec, a.run, key)
  }

  lemma SparedKeyStays(a: Attempt, stored: Vars, key: string)
    requires Spares(a, key) && key in stored
    ensures key in StoredAfter(a.spec, a.run, stored) && StoredAfter(a.spec, a.run, stored)[key] == stored[key]
  {
    if key in a.spec.initial {
      StoredKeyStays(a.spec, a.run, stored, key);
    }
  }

  lemma {:induction false} StoredForever(attempts: seq<Attempt>, start: Vars, i: nat, key: string)
    requires i <= |attempts|
    requires forall j | i <= j < |attempts| :: Spares(attempts[j], key)
    requires key in StoredBefore(attempts[..i], start)
    ensures ValueOf(StoredBefore(attempts, start), key) == Some(StoredBefore(attempts[..i], start)[key])
  {
    if i == |attempts| {
      assert attempts[..i] == attempts;
    } else {
      var init, last := attempts[..|attempts| - 1], attempts[|attempts| - 1];
      assert init[..i] == attempts[..i];
      StoredForever(init, start, i, key);
      SparedKeyStays(last, StoredBefore(init, start), key);
    }
  }

  lemma OneMoreAttempt(attempts: seq<Attempt>, start: Vars, i: nat)
    requires i < |attempts| && attempts[i].storedIt
    ensures StoredBefore(attempts[..i + 1], start)
         == StoredAfter(attempts[i].spec, attempts[i].run, StoredBefore(attempts[..i], start))
  {
    assert attempts[..i + 1][..i] == attempts[..i];
  }

  /** The first success already injects what is stored from then on. */
  lemma FirstSuccess(spec: Spec, run: Run, before: Vars, key: string)
    requires OnlyFromStored(spec, run, key) && Succeeds(spec, run, before)
    ensures key in StoredAfter(spec, run, before)
    ensures ValueOf(Injected(spec, run, before), key) == Some(StoredAfter(spec, run, before)[key])
  {
    FirstSuccessStores(spec, run, before, key);
    InjectedIsStored(spec, run, before, key);
  }

  lemma SparedIsOnlyStored(attempt: Attempt, key: string)
    requires Spares(attempt, key) && key in attempt.spec.initial
    ensures OnlyFromStored(attempt.spec, attempt.run, key)
  {
  }

  /** Generated once: over any series of failed and successful deployments, whatever else changes in the
      configuration between them, from the first one that succeeds every later one with the secret
      injects the same value. */
  lemma {:induction false} GeneratedOnce(attempts: seq<Attempt>, start: Vars, i: nat, j: nat, key: string)
    requires i < j < |attempts| && attempts[i].storedIt
    requires forall n | i <= n <= j :: Spares(attempts[n], key)
    requires key in attempts[i].spec.initial && key in attempts[j].spec.initial
    requires Succeeds(attempts[i].spec, attempts[i].run, StoredBefore(attempts[..i], start))
    ensures ValueOf(Injected(attempts[j].spec, attempts[j].run, StoredBefore(attempts[..j], start)), key)
         == ValueOf(Injected(attempts[i].spec, attempts[i].run, StoredBefore(attempts[..i], start)), key)
  {
    hide OnlyFromStored, Succeeds, StoredBefore, Injected, StoredAfter, Spares;
    SparedIsOnlyStored(attempts[i], key);
    SparedIsOnlyStored(attempts[j], key);
    var before := StoredBefore(attempts[..i], start);
    OneMoreAttempt(attempts, start, i);
    FirstSuccess(attempts[i].spec, attempts[i].run, before, key);
    assert attempts[..j][..i + 1] == attempts[..i + 1];
    StoredForever(attempts[..j], start, i + 1, key);
    StoredKeyStays(attempts[j].spec, attempts[j].run, StoredBefore(attempts[..j], start), key);
  }

  lemma FirstSuccessStores(spec: Spec, run: Run, stored: Vars, key: string)
    requires OnlyFromStored(spec, run, key) && Succeeds(spec, run, stored)
    ensures key in StoredAfter(spec, run, stored)
  {
    var below := Below(spec, run, stored);
    assert key in below <==> key in stored;
    assert key !in below ==> key in Generated(spec.initial, run, below);
  }

  /** A stored secret listed in `from_stored` arrives as it is, unless a file or an item sets it. */
  lemma {:induction false} StoredSecretArrives(spec: Spec, run: Run, stored: Vars, results: seq<Vars>, key: string)
    requires key in stored && key in spec.fromStored && Source(key, spec.fromStored[key]) == key
    requires key !in FileLayer(spec.fromEnvFile, run) && key !in ItemsLayer(results)
    ensures key + "=" + stored[key] in Entries(Injected(spec, run, stored) + ItemsLayer(results))
  {
    var below := Below(spec, run, stored);
    assert key in StoredLayer(spec.fromStored, stored);
    assert key in below && below[key] == stored[key];
    assert key !in Generated(spec.initial, run, below);
    assert key in Overridden(spec.initial, below, stored) ==>
             Overridden(spec.initial, below, stored)[key] == stored[key];
    var vars := Injected(spec, run, stored) + ItemsLayer(results);
    assert key in vars && vars[key] == stored[key];
  }

  /** The round trip of a secret: `k=v` given to `secret set` is the environment entry `k=v` of a
      later deployment that lists k and overrides it nowhere else, for every v. */
  lemma {:induction false} SecretRoundTrip(before: Vars, args: seq<string>, i: nat, k: string, v: string,
                                          spec: Spec, run: Run, results: seq<Vars>)
    requires Assigned(before, args).Some? && i < |args|
    requires '=' !in k && args[i] == k + "=" + v
    requires forall j | i < j < |args| :: !HasPrefix(args[j], k + "=")
    requires k in spec.fromStored && Source(k, spec.fromStored[k]) == k
    requires k !in FileLayer(spec.fromEnvFile, run) && k !in ItemsLayer(results)
    ensures args[i] in Entries(Injected(spec, run, Assigned(before, args).value) + ItemsLayer(results))
  {
    AssignmentArrives(before, args, i, k, v);
    StoredSecretArrives(spec, run, Assigned(before, args).value, results, k);
  }

  /** With clash-free items the whole environment is one fixed map: no iteration order shows. */
  lemma {:induction false} EnvironmentIsUnique(items: seq<OnePassword.Item>, a: seq<Vars>, b: seq<Vars>)
    requires AreItemResults(items, a) && AreItemResults(items, b)
    requires forall i | 0 <= i < |items| :: OnePassword.ClashFree(items[i].remap)
    ensures a == b
  {
    forall i | 0 <= i < |items| ensures a[i] == b[i] {
      assert OnePassword.IsResult(items[i], a[i]) && OnePassword.IsResult(items[i], b[i]);
      ItemIsUnique(items[i], a[i], b[i]);
    }
  }

  lemma ItemIsUnique(item: OnePassword.Item, a: Vars, b: Vars)
    requires OnePassword.IsResult(item, a) && OnePassword.IsResult(item, b) && OnePassword.ClashFree(item.remap)
    ensures a == b
  {
    var fields := OnePassword.Omitted(OnePassword.Collected(item.fields), item.omit);
    forall order | IsOrder(order, item.remap.Keys)
      ensures OnePassword.Moved(fields, item.remap, order) == OnePassword.Renamed(fields, item.remap, item.remap.Keys)
    {
      OnePassword.RemapConfluent(fields, item.remap, order);
    }
  }
}

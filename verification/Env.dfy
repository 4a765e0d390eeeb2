/** The environment of a deployment: six layers written one after the other into one map, in
    iteration orders Go leaves open, and the initial secrets that persist between deployments. */
module Env {
  import opened Text
  import opened Kv
  import opened Secrets
  import OnePassword

  /** `ProjectEnvironment`: an empty value means the expression is evaluated. */
  datatype Entry = Entry(value: string, expression: string)

  datatype EnvFile = Missing | Unreadable | Content(vars: Vars)

  /** The configured part: `app.env`, `app.secrets` and `app.initial_secrets` (name to expression). */
  datatype Spec = Spec(
    env: map<string, Entry>,
    fromEnv: map<string, string>,
    fromStored: map<string, string>,
    fromEnvFile: seq<string>,
    initial: map<string, string>,
    onePassword: seq<OnePassword.Item>)

  /** The rest of one run: the process environment, the files, and what evaluating the expression
      of a variable or of an initial secret yields (None for a failure), and which 1Password items can
      be read. Two runs may evaluate one expression differently, as `randomString` does. */
  datatype Run = Run(
    getenv: string -> string,
    file: string -> EnvFile,
    evalEnv: (string, string) -> Option<string>,
    evalInitial: (string, string) -> Option<string>,
    answers: nat -> bool)

  function Source(key: string, name: string): string {
    if name == "" then key else name
  }

  // The fixed merge, one function per layer.

  function EvaluateEntry(run: Run, key: string, entry: Entry): Option<string> {
    if entry.value != "" then Some(entry.value) else run.evalEnv(key, entry.expression)
  }

  function ExpressionLayer(env: map<string, Entry>, run: Run): Vars {
    map k | k in env && EvaluateEntry(run, k, env[k]).Some? :: EvaluateEntry(run, k, env[k]).value
  }

  function ProcessLayer(fromEnv: map<string, string>, run: Run): Vars {
    map k | k in fromEnv && run.getenv(Source(k, fromEnv[k])) != "" :: run.getenv(Source(k, fromEnv[k]))
  }

  function StoredLayer(fromStored: map<string, string>, stored: Vars): Vars {
    map k | k in fromStored && Source(k, fromStored[k]) in stored :: stored[Source(k, fromStored[k])]
  }

  /** A variable from the process is read under its configured name, or its own one if none is configured. */
  lemma FromEnvIsReadAs(fromEnv: map<string, string>, run: Run, k: string)
    requires k in fromEnv
    ensures fromEnv[k] != "" ==>
              (k in ProcessLayer(fromEnv, run) <==> run.getenv(fromEnv[k]) != "")
              && (k in ProcessLayer(fromEnv, run) ==> ProcessLayer(fromEnv, run)[k] == run.getenv(fromEnv[k]))
    ensures fromEnv[k] == "" ==>
              (k in ProcessLayer(fromEnv, run) <==> run.getenv(k) != "")
              && (k in ProcessLayer(fromEnv, run) ==> ProcessLayer(fromEnv, run)[k] == run.getenv(k))
  {
  }

  /** And so is a stored one. */
  lemma FromStoredIsReadAs(fromStored: map<string, string>, stored: Vars, k: string)
    requires k in fromStored
    ensures fromStored[k] != "" ==>
              (k in StoredLayer(fromStored, stored) <==> fromStored[k] in stored)
              && (k in StoredLayer(fromStored, stored) ==> StoredLayer(fromStored, stored)[k] == stored[fromStored[k]])
    ensures fromStored[k] == "" ==>
              (k in StoredLayer(fromStored, stored) <==> k in stored)
              && (k in StoredLayer(fromStored, stored) ==> StoredLayer(fromStored, stored)[k] == stored[k])
  {
  }

  function FileVars(run: Run, name: string): Vars {
    if run.file(name).Content? then run.file(name).vars else map[]
  }

  function FileLayer(files: seq<string>, run: Run): Vars {
    if files == [] then map[]
    else FileLayer(files[..|files| - 1], run) + FileVars(run, files[|files| - 1])
  }

  /** Everything set before the initial secrets are looked at. */
  function Below(spec: Spec, run: Run, stored: Vars): Vars {
    ExpressionLayer(spec.env, run) + ProcessLayer(spec.fromEnv, run)
    + StoredLayer(spec.fromStored, stored) + FileLayer(spec.fromEnvFile, run)
  }

  /** The initial secrets evaluated in this run. */
  function Generated(initial: map<string, string>, run: Run, below: Vars): Vars {
    map k | k in initial && k !in below && run.evalInitial(k, initial[k]).Some?
      :: run.evalInitial(k, initial[k]).value
  }

  /** A key some layer set already takes the stored value, or the empty string. */
  function Overridden(initial: map<string, string>, below: Vars, stored: Vars): Vars {
    map k | k in initial && k in below :: Lookup(stored, k)
  }

  /** The environment before the 1Password items. */
  function Injected(spec: Spec, run: Run, stored: Vars): Vars {
    var below := Below(spec, run, stored);
    below + Overridden(spec.initial, below, stored) + Generated(spec.initial, run, below)
  }

  /** The stored secrets afterwards. */
  function StoredAfter(spec: Spec, run: Run, stored: Vars): Vars {
    stored + Generated(spec.initial, run, Below(spec, run, stored))
  }

  /** Every expression that is needed evaluates, and every file that exists and every item can be read. */
  ghost predicate Succeeds(spec: Spec, run: Run, stored: Vars) {
    && (forall k | k in spec.env :: EvaluateEntry(run, k, spec.env[k]).Some?)
    && (forall i | 0 <= i < |spec.fromEnvFile| :: !run.file(spec.fromEnvFile[i]).Unreadable?)
    && (forall k | k in spec.initial && k !in Below(spec, run, stored) :: run.evalInitial(k, spec.initial[k]).Some?)
    && (forall i | 0 <= i < |spec.onePassword| :: run.answers(i))
  }

  /** The `key=value` strings a container is given. */
  function Entries(vars: Vars): set<string> {
    set k | k in vars :: k + "=" + vars[k]
  }

  function ItemsLayer(items: seq<Vars>): Vars {
    if items == [] then map[] else ItemsLayer(items[..|items| - 1]) + items[|items| - 1]
  }

  ghost predicate AreItemResults(items: seq<OnePassword.Item>, results: seq<Vars>) {
    |results| == |items| && forall i | 0 <= i < |items| :: OnePassword.IsResult(items[i], results[i])
  }

  /** One more key of a layer has been copied, or turned out not to be part of it. */
  lemma CopyOne(before: Vars, layer: Vars, left: set<string>, key: string)
    requires key in left
    ensures key in layer ==> (before + (layer - left))[key := layer[key]] == before + (layer - (left - {key}))
    ensures key !in layer ==> before + (layer - left) == before + (layer - (left - {key}))
    ensures if key in layer then key in layer - (left - {key}) else layer - (left - {key}) == layer - left
  {
  }

  lemma CopyNothing(before: Vars, layer: Vars, keys: set<string>)
    requires layer.Keys <= keys
    ensures before + (layer - keys) == before
    ensures layer - {} == layer
  {
    assert layer - keys == map[];
  }

  /** What the initial secrets not in `left` have done to the environment and to the store. */
  function EnvSoFar(initial: map<string, string>, run: Run, below: Vars, stored: Vars, left: set<string>): Vars {
    below + ((Overridden(initial, below, stored) + Generated(initial, run, below)) - left)
  }

  function StoredSoFar(initial: map<string, string>, run: Run, below: Vars, stored: Vars, left: set<string>): Vars {
    stored + (Generated(initial, run, below) - left)
  }

  lemma InitialTurn(initial: map<string, string>, run: Run, below: Vars, stored: Vars, left: set<string>, key: string)
    requires key in left && left <= initial.Keys
    ensures var env, keep := EnvSoFar(initial, run, below, stored, left),
                             StoredSoFar(initial, run, below, stored, left);
            var env', keep' := EnvSoFar(initial, run, below, stored, left - {key}),
                               StoredSoFar(initial, run, below, stored, left - {key});
            var output := run.evalInitial(key, initial[key]);
            && (key in env <==> key in below) && (key in below ==> key !in Generated(initial, run, below))
            && (key in below ==> env' == env[key := Lookup(keep, key)] && keep' == keep)
            && (key !in below && output.Some? ==>
                  env' == env[key := output.value] && keep' == keep[key := output.value]
                  && key in Generated(initial, run, below))
  {
    var generated := Generated(initial, run, below);
    CopyOne(below, Overridden(initial, below, stored) + generated, left, key);
    CopyOne(stored, generated, left, key);
  }

  lemma InitialEnds(initial: map<string, string>, run: Run, below: Vars, stored: Vars)
    ensures EnvSoFar(initial, run, below, stored, initial.Keys) == below
    ensures StoredSoFar(initial, run, below, stored, initial.Keys) == stored
    ensures Generated(initial, run, below).Keys <= initial.Keys
    ensures EnvSoFar(initial, run, below, stored, {})
         == below + (Overridden(initial, below, stored) + Generated(initial, run, below))
    ensures StoredSoFar(initial, run, below, stored, {}) == stored + Generated(initial, run, below)
  {
    var generated := Generated(initial, run, below);
    CopyNothing(below, Overridden(initial, below, stored) + generated, initial.Keys);
    CopyNothing(stored, generated, initial.Keys);
  }

  lemma NothingBefore(layer: Vars)
    ensures map[] + layer == layer
  {
  }

  lemma NothingAfter(a: Vars, layer: Vars)
    ensures layer == map[] ==> a + layer == a
  {
  }

  lemma MergeAssociates(a: Vars, b: Vars, c: Vars)
    ensures (a + b) + c == a + (b + c)
  {
  }

  lemma NoFiles(before: Vars, files: seq<string>, run: Run)
    ensures before + FileLayer(files[..0], run) == before
  {
  }

  lemma FilesGrow(before: Vars, files: seq<string>, run: Run, i: nat)
    requires i < |files|
    ensures before + FileLayer(files[..i], run) + FileVars(run, files[i]) == before + FileLayer(files[..i + 1], run)
  {
    assert files[..i + 1][..i] == files[..i];
    MergeAssociates(before, FileLayer(files[..i], run), FileVars(run, files[i]));
  }

  lemma ItemsGrow(before: Vars, results: seq<Vars>, vars: Vars)
    ensures before + ItemsLayer(results) + vars == before + ItemsLayer(results + [vars])
  {
    assert (results + [vars])[..|results|] == results;
    MergeAssociates(before, ItemsLayer(results), vars);
  }

  /** The maps one resolution writes in place. */
  class Resolution {
    var returnSecrets: Vars
    var storedSecrets: Vars

    constructor (stored: Vars)
      ensures returnSecrets == map[] && storedSecrets == stored
    {
      returnSecrets, storedSecrets := map[], stored;
    }

    method ResolveFromExpression(env: map<string, Entry>, run: Run) returns (ok: bool)
      modifies this`returnSecrets
      ensures ok <==> forall k | k in env :: EvaluateEntry(run, k, env[k]).Some?
      ensures ok ==> returnSecrets == old(returnSecrets) + ExpressionLayer(env, run)
    {
      var left := env.Keys;
      ghost var before, layer := returnSecrets, ExpressionLayer(env, run);
      CopyNothing(before, layer, left);
      while left != {}
        invariant left <= env.Keys
        invariant forall k | k in env && k !in left :: EvaluateEntry(run, k, env[k]).Some?
        invariant returnSecrets == before + (layer - left)
        decreases |left|
      {
        var key :| key in left;
        CopyOne(before, layer, left, key);
        var entry := env[key];
        if entry.value != "" {
          returnSecrets := returnSecrets[key := entry.value];
        } else {
          var output := run.evalEnv(key, entry.expression);
          if output.None? {
            return false;
          }
          returnSecrets := returnSecrets[key := output.value];
        }
        left := left - {key};
      }
      ok := true;
    }

    method ResolveFromEnv(fromEnv: map<string, string>, run: Run)
      modifies this`returnSecrets
      ensures returnSecrets == old(returnSecrets) + ProcessLayer(fromEnv, run)
    {
      var left := fromEnv.Keys;
      ghost var before, layer := returnSecrets, ProcessLayer(fromEnv, run);
      CopyNothing(before, layer, left);
      while left != {}
        invariant left <= fromEnv.Keys
        invariant returnSecrets == before + (layer - left)
        decreases |left|
      {
        var key :| key in left;
        CopyOne(before, layer, left, key);
        var value := run.getenv(Source(key, fromEnv[key]));
        if value != "" {
          returnSecrets := returnSecrets[key := value];
        }
        left := left - {key};
      }
    }

    method ResolveFromStored(fromStored: map<string, string>)
      modifies this`returnSecrets
      ensures returnSecrets == old(returnSecrets) + StoredLayer(fromStored, storedSecrets)
    {
      var left := fromStored.Keys;
      ghost var before, layer := returnSecrets, StoredLayer(fromStored, storedSecrets);
      CopyNothing(before, layer, left);
      while left != {}
        invariant left <= fromStored.Keys
        invariant returnSecrets == before + (layer - left)
        decreases |left|
      {
        var key :| key in left;
        CopyOne(before, layer, left, key);
        var name := Source(key, fromStored[key]);
        if name in storedSecrets {
          returnSecrets := returnSecrets[key := storedSecrets[name]];
        }
        left := left - {key};
      }
    }

    method CopyAll(vars: Vars)
      modifies this`returnSecrets
      ensures returnSecrets == old(returnSecrets) + vars
    {
      var left := vars.Keys;
      ghost var before := returnSecrets;
      CopyNothing(before, vars, left);
      while left != {}
        invariant left <= vars.Keys
        invariant returnSecrets == before + (vars - left)
        decreases |left|
      {
        var key :| key in left;
        CopyOne(before, vars, left, key);
        returnSecrets := returnSecrets[key := vars[key]];
        left := left - {key};
      }
    }

    method ResolveFromFiles(files: seq<string>, run: Run) returns (ok: bool)
      modifies this`returnSecrets
      ensures ok <==> forall i | 0 <= i < |files| :: !run.file(files[i]).Unreadable?
      ensures ok ==> returnSecrets == old(returnSecrets) + FileLayer(files, run)
    {
      hide FileLayer;
      ghost var before := returnSecrets;
      NoFiles(before, files, run);
      for i := 0 to |files|
        invariant forall j | 0 <= j < i :: !run.file(files[j]).Unreadable?
        invariant returnSecrets == before + FileLayer(files[..i], run)
      {
        FilesGrow(before, files, run, i);
        NothingAfter(before + FileLayer(files[..i], run), FileVars(run, files[i]));
        match run.file(files[i]) {
          case Missing =>
          case Unreadable => return false;
          case Content(vars) => CopyAll(vars);
        }
      }
      assert files[..|files|] == files;
      ok := true;
    }

    /** Evaluates what no layer has set and remembers it. */
    method EvaluateInitial(initial: map<string, string>, run: Run) returns (ok: bool, changed: bool)
      modifies this
      ensures ok <==> forall k | k in initial && k !in old(returnSecrets) :: run.evalInitial(k, initial[k]).Some?
      ensures var generated := Generated(initial, run, old(returnSecrets));
              ok ==>
              && returnSecrets == old(returnSecrets)
                                  + (Overridden(initial, old(returnSecrets), old(storedSecrets)) + generated)
              && storedSecrets == old(storedSecrets) + generated
              && (changed <==> generated != map[])
    {
      hide Generated, Overridden, EnvSoFar, StoredSoFar, Lookup;
      changed := false;
      var left := initial.Keys;
      ghost var below, stored := returnSecrets, storedSecrets;
      InitialEnds(initial, run, below, stored);
      while left != {}
        invariant left <= initial.Keys
        invariant returnSecrets == EnvSoFar(initial, run, below, stored, left)
        invariant storedSecrets == StoredSoFar(initial, run, below, stored, left)
        invariant forall k | k in Generated(initial, run, below) :: changed || k in left
        invariant changed ==> Generated(initial, run, below) != map[]
        invariant forall k | k in initial && k !in left && k !in below :: run.evalInitial(k, initial[k]).Some?
        decreases |left|
      {
        var key :| key in left;
        InitialTurn(initial, run, below, stored, left, key);
        if key in returnSecrets {
          returnSecrets := returnSecrets[key := Lookup(storedSecrets, key)];
        } else {
          var output := run.evalInitial(key, initial[key]);
          if output.None? {
            return false, changed;
          }
          returnSecrets := returnSecrets[key := output.value];
          storedSecrets := storedSecrets[key := output.value];
          changed := true;
        }
        left := left - {key};
      }
      ok := true;
    }

    /** `resolveInitialSecrets`: the store is written only when something was evaluated. */
    method ResolveInitial(initial: map<string, string>, run: Run, kv: KvClient, codec: Codec, project: string)
        returns (ok: bool)
      requires kv.Valid() && LawfulCodec(codec)
      modifies this, kv
      ensures kv.Valid() && OthersUntouched(old(kv.table), kv.table, project)
      ensures kv.faults >= old(kv.faults)
      ensures ok <==> kv.faults == old(kv.faults)
                      && forall k | k in initial && k !in old(returnSecrets) :: run.evalInitial(k, initial[k]).Some?
      ensures var generated := Generated(initial, run, old(returnSecrets));
              var stored := old(storedSecrets) + generated;
              && (ok ==> returnSecrets == old(returnSecrets)
                          + (Overridden(initial, old(returnSecrets), old(storedSecrets)) + generated))
              && (ok ==> storedSecrets == stored)
              && (ok && generated == map[] ==> kv.table == old(kv.table))
              && (ok && generated != map[] ==> Persisted(kv.table, codec, project) == Some(stored))
              && (kv.table == old(kv.table) || Persisted(kv.table, codec, project) == Some(stored))
    {
      var changed;
      ok, changed := EvaluateInitial(initial, run);
      if ok && changed {
        ok := SetProjectSecrets(kv, codec, project, storedSecrets);
      }
    }

    method ResolveOnePassword(items: seq<OnePassword.Item>, run: Run) returns (ok: bool, ghost results: seq<Vars>)
      modifies this`returnSecrets
      ensures ok <==> forall i | 0 <= i < |items| :: run.answers(i)
      ensures ok ==> AreItemResults(items, results)
      ensures ok ==> returnSecrets == old(returnSecrets) + ItemsLayer(results)
    {
      results := [];
      ghost var before := returnSecrets;
      for i := 0 to |items|
        invariant |results| == i && forall j | 0 <= j < i :: OnePassword.IsResult(items[j], results[j])
        invariant returnSecrets == before + ItemsLayer(results) && forall j | 0 <= j < i :: run.answers(j)
      {
        if !run.answers(i) {
          return false, results;
        }
        var vars := OnePassword.ResolveSecrets(items[i]);
        CopyAll(vars);
        ItemsGrow(before, results, vars);
        results := results + [vars];
      }
      ok := true;
    }

    /** The layers below the initial secrets. */
    method ResolveBelow(spec: Spec, run: Run) returns (ok: bool)
      requires returnSecrets == map[]
      modifies this`returnSecrets
      ensures ok ==> returnSecrets == Below(spec, run, storedSecrets)
      ensures ok <==> (forall k | k in spec.env :: EvaluateEntry(run, k, spec.env[k]).Some?)
                      && forall i | 0 <= i < |spec.fromEnvFile| :: !run.file(spec.fromEnvFile[i]).Unreadable?
    {
      ok := ResolveFromExpression(spec.env, run);
      if !ok { return; }
      NothingBefore(ExpressionLayer(spec.env, run));
      ResolveFromEnv(spec.fromEnv, run);
      ResolveFromStored(spec.fromStored);
      ok := ResolveFromFiles(spec.fromEnvFile, run);
    }

    /** `getEnvironmentVariables`: whatever the iteration orders, the result is the fixed merge. */
    method GetEnvironmentVariables(spec: Spec, run: Run, kv: KvClient, codec: Codec, project: string)
        returns (ok: bool, ghost results: seq<Vars>)
      requires kv.Valid() && LawfulCodec(codec)
      requires returnSecrets == map[]
      modifies this, kv
      ensures kv.Valid() && OthersUntouched(old(kv.table), kv.table, project)
      ensures kv.faults >= old(kv.faults)
      ensures ok <==> kv.faults == old(kv.faults) && Succeeds(spec, run, old(storedSecrets))
      ensures ok ==> AreItemResults(spec.onePassword, results)
      ensures ok ==> returnSecrets == Injected(spec, run, old(storedSecrets)) + ItemsLayer(results)
      ensures ok ==> storedSecrets == StoredAfter(spec, run, old(storedSecrets))
      ensures ok && Persisted(old(kv.table), codec, project) == Some(old(storedSecrets)) ==>
                Persisted(kv.table, codec, project) == Some(storedSecrets)
      ensures kv.table == old(kv.table)
           || Persisted(kv.table, codec, project) == Some(StoredAfter(spec, run, old(storedSecrets)))
    {
      results := [];
      ghost var stored := storedSecrets;
      ok := ResolveBelow(spec, run);
      if !ok { return; }
      ghost var below := returnSecrets;
      ghost var overridden, generated := Overridden(spec.initial, below, stored), Generated(spec.initial, run, below);
      ok := ResolveInitial(spec.initial, run, kv, codec, project);
      if !ok { return; }
      MergeAssociates(below, overridden, generated);
      NothingAfter(stored, generated);
      ok, results := ResolveOnePassword(spec.onePassword, run);
    }
  }
}

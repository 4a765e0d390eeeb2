/** The stored secrets of a project: one encoded map under one key of the key/value store. */
module Secrets {
  import opened Text
  import Names
  import opened Kv

  type Vars = map<string, string>

  /** JSON of a string map. */
  datatype Codec = Codec(encode: Vars -> string, decode: string -> Option<Vars>)

  ghost predicate LawfulCodec(codec: Codec) {
    forall m :: codec.decode(codec.encode(m)) == Some(m) && codec.encode(m) != ""
  }

  function StoreKey(project: string): string {
    Names.Prefix(project) + "_secrets"
  }

  /** The secrets a table holds for a project: the text under the project's key, or none when there is no
      text; None when the text does not decode. */
  ghost function Persisted(table: Table, codec: Codec, project: string): Option<Vars> {
    var text := Lookup(table, "tanjun_" + project + "_secrets");
    if text == "" then Some(map[]) else codec.decode(text)
  }

  /** Nothing but the text under the project's key has changed. */
  ghost predicate OthersUntouched(before: Table, after: Table, project: string) {
    after - {"tanjun_" + project + "_secrets"} == before - {"tanjun_" + project + "_secrets"}
  }

  /** So no command for one project changes what another one has stored. */
  lemma {:induction false} SecretsStayApart(before: Table, after: Table, codec: Codec, p: string, q: string)
    requires OthersUntouched(before, after, p) && p != q
    ensures Lookup(after, "tanjun_" + q + "_secrets") == Lookup(before, "tanjun_" + q + "_secrets")
    ensures Persisted(after, codec, q) == Persisted(before, codec, q)
  {
    var own, other := "tanjun_" + p + "_secrets", "tanjun_" + q + "_secrets";
    assert own[|"tanjun_"|..|own| - |"_secrets"|] == p && other[|"tanjun_"|..|other| - |"_secrets"|] == q;
    assert other in after <==> other in after - {own};
    assert other in before <==> other in before - {own};
    assert other in after - {own} ==> (after - {own})[other] == (before - {own})[other];
  }

  /** What every other project has stored is what it was. */
  ghost predicate OtherProjectsKeep(before: Table, after: Table, project: string) {
    forall q | q != project :: Lookup(after, "tanjun_" + q + "_secrets") == Lookup(before, "tanjun_" + q + "_secrets")
  }

  lemma OthersKeep(before: Table, after: Table, codec: Codec, project: string)
    requires OthersUntouched(before, after, project)
    ensures OtherProjectsKeep(before, after, project)
  {
    hide OthersUntouched;
    forall q | q != project
      ensures Lookup(after, "tanjun_" + q + "_secrets") == Lookup(before, "tanjun_" + q + "_secrets")
    {
      SecretsStayApart(before, after, codec, project, q);
    }
  }

  method ListProjectSecrets(kv: KvClient, codec: Codec, project: string) returns (secrets: Option<Vars>)
    requires kv.Valid()
    modifies kv
    ensures kv.Valid() && kv.table == old(kv.table) && kv.faults >= old(kv.faults)
    ensures secrets == if kv.faults == old(kv.faults) then Persisted(kv.table, codec, project) else None
  {
    var text := kv.Get(StoreKey(project));
    secrets := if text.None? then None
               else if text.value == "" then Some(map[])
               else codec.decode(text.value);
  }

  method SetProjectSecrets(kv: KvClient, codec: Codec, project: string, secrets: Vars) returns (ok: bool)
    requires kv.Valid() && LawfulCodec(codec)
    modifies kv
    ensures kv.Valid() && OthersUntouched(old(kv.table), kv.table, project)
    ensures OtherProjectsKeep(old(kv.table), kv.table, project)
    ensures kv.faults >= old(kv.faults) && (ok <==> kv.faults == old(kv.faults))
    ensures ok ==> Persisted(kv.table, codec, project) == Some(secrets)
    ensures kv.table == old(kv.table) || Persisted(kv.table, codec, project) == Some(secrets)
  {
    ghost var before := kv.table;
    ok := kv.Set(StoreKey(project), codec.encode(secrets));
    OthersKeep(before, kv.table, codec, project);
  }

  /** The arguments of `secret set`, taken one by one; None when one of them has no `=`. */
  function Assigned(secrets: Vars, args: seq<string>): Option<Vars> {
    if args == [] then Some(secrets)
    else match Assigned(secrets, args[..|args| - 1])
      case None => None
      case Some(before) =>
        match SplitFirst(args[|args| - 1], '=')
        case None => None
        case Some((key, value)) => Some(before[key := value])
  }

  method SecretSet(kv: KvClient, codec: Codec, project: string, args: seq<string>) returns (ok: bool)
    requires kv.Valid() && LawfulCodec(codec)
    modifies kv
    ensures kv.Valid() && OthersUntouched(old(kv.table), kv.table, project)
    ensures OtherProjectsKeep(old(kv.table), kv.table, project)
    ensures (exists i | 0 <= i < |args| :: '=' !in args[i]) ==> !ok && kv.table == old(kv.table)
    ensures kv.faults >= old(kv.faults)
    ensures ok <==> kv.faults == old(kv.faults) && Persisted(old(kv.table), codec, project).Some?
                    && forall i | 0 <= i < |args| :: '=' in args[i]
    ensures ok ==>
              Persisted(kv.table, codec, project) == Assigned(Persisted(old(kv.table), codec, project).value, args)
    ensures kv.table != old(kv.table) && Persisted(old(kv.table), codec, project).Some? ==>
              Persisted(kv.table, codec, project) == Assigned(Persisted(old(kv.table), codec, project).value, args)
  {
    var stored := ListProjectSecrets(kv, codec, project);
    if stored.None? {
      return false;
    }
    var secrets := stored.value;
    for i := 0 to |args|
      invariant kv.Valid() && kv.table == old(kv.table)
      invariant Assigned(stored.value, args[..i]) == Some(secrets)
      invariant forall j | 0 <= j < i :: '=' in args[j]
    {
      assert args[..i + 1][..i] == args[..i];
      var parts := SplitFirst(args[i], '=');
      if parts.None? {
        return false;
      }
      secrets := secrets[parts.value.0 := parts.value.1];
    }
    assert args[..|args|] == args;
    ok := SetProjectSecrets(kv, codec, project, secrets);
  }

  /** A malformed argument anywhere spoils the batch, and nothing else does. */
  lemma {:induction false} AssignedExactlyWhen(secrets: Vars, args: seq<string>)
    ensures Assigned(secrets, args).Some? <==> forall i | 0 <= i < |args| :: '=' in args[i]
  {
    if args != [] {
      AssignedExactlyWhen(secrets, args[..|args| - 1]);
      var last := args[|args| - 1];
      assert forall i | 0 <= i < |args| - 1 :: args[..|args| - 1][i] == args[i];
    }
  }

  /** `k=v` stores v under k, however many equals signs v holds, as long as no later argument
      assigns k again. */
  lemma {:induction false} AssignmentArrives(secrets: Vars, args: seq<string>, i: nat, k: string, v: string)
    requires Assigned(secrets, args).Some? && i < |args|
    requires '=' !in k && args[i] == k + "=" + v
    requires forall j | i < j < |args| :: !HasPrefix(args[j], k + "=")
    ensures k in Assigned(secrets, args).value && Assigned(secrets, args).value[k] == v
  {
    var n := |args| - 1;
    if i == n {
      SplitJoined(k, v, '=');
      assert args[n] == k + ['='] + v;
    } else {
      assert args[..n][i] == args[i];
      AssignmentArrives(secrets, args[..n], i, k, v);
      var parts := SplitFirst(args[n], '=').value;
      assert args[n] == (parts.0 + "=") + parts.1;
      assert HasPrefix(args[n], parts.0 + "=");
    }
  }
}

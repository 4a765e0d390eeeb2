/** Turning a 1Password item into variables: filter the fields, omit some, rename some in place. */
module OnePassword {
  import opened Orders

  datatype Field = Field(name: string, value: string)

  /** `remap` goes from the new name to the field it is taken from. */
  datatype Item = Item(fields: seq<Field>, omit: seq<string>, remap: map<string, string>)

  /** Fields with a label and a value; the last of several with one label wins. */
  function Collected(fields: seq<Field>): map<string, string> {
    if fields == [] then map[]
    else
      var before, f := Collected(fields[..|fields| - 1]), fields[|fields| - 1];
      if f.value == "" || f.name == "" then before else before[f.name := f.value]
  }

  /** A label counts when its last field with a value gives it one; the omitted ones do not. */
  lemma {:induction false} CollectedMeaning(fields: seq<Field>, omit: seq<string>, name: string, i: nat)
    requires name != "" && i < |fields| && fields[i].name == name && fields[i].value != ""
    requires forall j | i < j < |fields| :: fields[j].name != name || fields[j].value == ""
    ensures name !in omit ==>
              name in Omitted(Collected(fields), omit) && Omitted(Collected(fields), omit)[name] == fields[i].value
    ensures name in omit ==> name !in Omitted(Collected(fields), omit)
  {
    LastFieldWins(fields, name, i);
  }

  lemma {:induction false} LastFieldWins(fields: seq<Field>, name: string, i: nat)
    requires name != "" && i < |fields| && fields[i].name == name && fields[i].value != ""
    requires forall j | i < j < |fields| :: fields[j].name != name || fields[j].value == ""
    ensures name in Collected(fields) && Collected(fields)[name] == fields[i].value
  {
    var n := |fields| - 1;
    if i < n {
      assert fields[..n][i] == fields[i];
      LastFieldWins(fields[..n], name, i);
    }
  }

  /** Nothing else is taken over. */
  lemma {:induction false} OnlyCollected(fields: seq<Field>, name: string)
    requires name == "" || forall i | 0 <= i < |fields| :: fields[i].name != name || fields[i].value == ""
    ensures name !in Collected(fields)
  {
    if fields != [] {
      OnlyCollected(fields[..|fields| - 1], name);
    }
  }

  function Omitted(m: map<string, string>, omit: seq<string>): map<string, string> {
    m - (set name | name in omit)
  }

  /** One turn of the renaming loop. */
  function Move(m: map<string, string>, target: string, source: string): map<string, string> {
    if source in m then m[target := m[source]] - {source} else m
  }

  /** The whole renaming loop for one iteration order. */
  function Moved(m: map<string, string>, remap: map<string, string>, order: seq<string>): map<string, string>
    requires forall t | t in order :: t in remap
  {
    if order == [] then m
    else
      var t := order[|order| - 1];
      Move(Moved(m, remap, order[..|order| - 1]), t, remap[t])
  }

  /** The variables an item can turn into, over all orders of its renaming loop. */
  ghost predicate IsResult(item: Item, secrets: map<string, string>) {
    exists order :: IsOrder(order, item.remap.Keys)
      && secrets == Moved(Omitted(Collected(item.fields), item.omit), item.remap, order)
  }

  /** `ResolveSecrets`, from the decoded fields on. */
  method ResolveSecrets(item: Item) returns (secrets: map<string, string>)
    ensures IsResult(item, secrets)
  {
    secrets := map[];
    for i := 0 to |item.fields|
      invariant secrets == Collected(item.fields[..i])
    {
      assert item.fields[..i + 1][..i] == item.fields[..i];
      var f := item.fields[i];
      if f.value != "" && f.name != "" {
        secrets := secrets[f.name := f.value];
      }
    }
    assert item.fields[..|item.fields|] == item.fields;
    for i := 0 to |item.omit|
      invariant secrets == Omitted(Collected(item.fields), item.omit[..i])
    {
      secrets := secrets - {item.omit[i]};
    }
    assert item.omit[..|item.omit|] == item.omit;
    secrets := RemapFields(secrets, item.remap);
  }

  /** The renaming loop. */
  method RemapFields(fields: map<string, string>, remap: map<string, string>) returns (secrets: map<string, string>)
    ensures exists order :: IsOrder(order, remap.Keys) && secrets == Moved(fields, remap, order)
  {
    hide IsOrder;
    secrets := fields;
    ghost var order := [];
    var left := remap.Keys;
    NothingVisited(left);
    while left != {}
      invariant left <= remap.Keys
      invariant IsOrder(order, remap.Keys - left) && forall k | k in order :: k in remap
      invariant secrets == Moved(fields, remap, order)
      decreases |left|
    {
      var key :| key in left;
      OneMoreVisited(order, remap.Keys, left, key);
      assert (order + [key])[..|order|] == order;
      var source := remap[key];
      if source in secrets {
        secrets := secrets[key := secrets[source]];
        secrets := secrets - {source};
      }
      order := order + [key];
      left := left - {key};
    }
    NothingVisited(remap.Keys);
  }

  /** Two entries clash when they take the same field, or one takes what the other writes. */
  predicate Clash(remap: map<string, string>, t: string, u: string)
    requires t in remap && u in remap
  {
    t != u && (remap[t] == remap[u] || remap[t] == u)
  }

  ghost predicate ClashFree(remap: map<string, string>) {
    forall t, u | t in remap && u in remap :: !Clash(remap, t, u)
  }

  predicate IsSource(remap: map<string, string>, targets: set<string>, name: string)
    requires targets <= remap.Keys
  {
    exists t | t in targets :: remap[t] == name
  }

  /** The simultaneous renaming by the entries in `targets`: sources disappear, each target whose
      source exists takes its value, everything else stays. */
  function Renamed(m: map<string, string>, remap: map<string, string>, targets: set<string>): map<string, string>
    requires targets <= remap.Keys
  {
    map name | name in m.Keys + targets
             && !IsSource(remap, targets, name)
             && (name in m || remap[name] in m)
      :: if name in targets && remap[name] in m then m[remap[name]] else m[name]
  }

  lemma RenameOneMore(m: map<string, string>, remap: map<string, string>, targets: set<string>, t: string)
    requires ClashFree(remap) && targets <= remap.Keys && t in remap && t !in targets
    ensures Move(Renamed(m, remap, targets), t, remap[t]) == Renamed(m, remap, targets + {t})
  {
    var s := remap[t];
    var before, after := Renamed(m, remap, targets), Renamed(m, remap, targets + {t});
    assert s !in targets && !IsSource(remap, targets, s) by {
      assert forall u | u in targets :: !Clash(remap, t, u) && !Clash(remap, u, t);
    }
    assert s in before <==> s in m;
    forall name ensures IsSource(remap, targets + {t}, name) <==> IsSource(remap, targets, name) || name == s {
      if name == s {
        assert t in targets + {t};
      } else if IsSource(remap, targets, name) {
        var u :| u in targets && remap[u] == name;
        assert u in targets + {t};
      }
    }
    assert !IsSource(remap, targets, t) || t == s by {
      assert forall u | u in targets :: !Clash(remap, u, t);
    }
  }

  lemma {:induction false} LoopRenames(m: map<string, string>, remap: map<string, string>, order: seq<string>,
                                       targets: set<string>)
    requires ClashFree(remap) && targets <= remap.Keys && IsOrder(order, targets)
    ensures Moved(m, remap, order) == Renamed(m, remap, targets)
  {
    EmptyOrder(order, targets);
    if order != [] {
      var t := order[|order| - 1];
      InitOfOrder(order, targets);
      LoopRenames(m, remap, order[..|order| - 1], targets - {t});
      RenameOneMore(m, remap, targets - {t}, t);
      assert targets - {t} + {t} == targets;
    }
  }

  /** Confluence: without clashes every iteration order gives the same simultaneous renaming. */
  lemma {:induction false} RemapConfluent(m: map<string, string>, remap: map<string, string>, order: seq<string>)
    requires ClashFree(remap) && IsOrder(order, remap.Keys)
    ensures Moved(m, remap, order) == Renamed(m, remap, remap.Keys)
  {
    LoopRenames(m, remap, order, remap.Keys);
  }

  lemma {:induction false} MovedConcat(m: map<string, string>, remap: map<string, string>, a: seq<string>,
                                       b: seq<string>)
    requires (forall t | t in a :: t in remap) && forall t | t in b :: t in remap
    ensures Moved(m, remap, a + b) == Moved(Moved(m, remap, a), remap, b)
  {
    if b == [] {
      assert a + b == a;
    } else {
      assert (a + b)[..|a + b| - 1] == a + b[..|b| - 1];
      MovedConcat(m, remap, a, b[..|b| - 1]);
    }
  }

  /** Entries whose sources are all absent do nothing. */
  lemma {:induction false} InertEntries(m: map<string, string>, remap: map<string, string>, order: seq<string>)
    requires forall t | t in order :: t in remap && remap[t] !in m
    ensures Moved(m, remap, order) == m
  {
    if order != [] {
      InertEntries(m, remap, order[..|order| - 1]);
    }
  }

  /** The loop only ever writes targets. */
  lemma {:induction false} OnlyTargetsAppear(m: map<string, string>, remap: map<string, string>, order: seq<string>,
                                             name: string)
    requires (forall t | t in order :: t in remap) && name !in m && name !in order
    ensures name !in Moved(m, remap, order)
  {
    if order != [] {
      OnlyTargetsAppear(m, remap, order[..|order| - 1], name);
    }
  }

  /** An order that visits the entries `first`, then `middle`, then all that are left. */
  lemma StagedOrder(remap: map<string, string>, first: set<string>, middle: seq<string>, chosen: set<string>)
    returns (front: seq<string>, back: seq<string>)
    requires first <= remap.Keys && chosen <= remap.Keys && first !! chosen && IsOrder(middle, chosen)
    ensures IsOrder(front, first) && IsOrder(back, remap.Keys - first - chosen)
    ensures IsOrder(front + middle + back, remap.Keys)
  {
    front := AnOrder(first);
    back := AnOrder(remap.Keys - first - chosen);
    ConcatOrders(front, middle, first, chosen);
    ConcatOrders(front + middle, back, first + chosen, remap.Keys - first - chosen);
    assert first + chosen + (remap.Keys - first - chosen) == remap.Keys;
  }

  lemma {:induction false} OneMove(remap: map<string, string>, t: string)
    requires t in remap
    ensures Moved(map[remap[t] := "x"], remap, [t]) == if remap[t] == t then map[] else map[t := "x"]
  {
    assert [t][..0] == [];
  }

  /** Shared source `s`: the entry visited first takes the only value. */
  lemma FirstTakesIt(remap: map<string, string>, t: string) returns (order: seq<string>)
    requires t in remap
    ensures IsOrder(order, remap.Keys)
    ensures Moved(map[remap[t] := "x"], remap, order) == if remap[t] == t then map[] else map[t := "x"]
  {
    var s, m := remap[t], map[remap[t] := "x"];
    var idle := set u | u in remap && remap[u] != s;
    assert IsOrder([t], {t});
    var front, back := StagedOrder(remap, idle, [t], {t});
    order := front + [t] + back;
    InertEntries(m, remap, front);
    MovedConcat(m, remap, front, [t]);
    MovedConcat(m, remap, front + [t], back);
    OneMove(remap, t);
    InertEntries(if s == t then map[] else map[t := "x"], remap, back);
  }

  lemma {:induction false} TwoMoves(remap: map<string, string>, t: string, u: string)
    requires t in remap && u in remap && t != u && remap[t] == u && remap[u] != u
    ensures Moved(map[remap[u] := "x"], remap, [u, t]) == map[t := "x"]
  {
    var m := map[remap[u] := "x"];
    assert [u, t][..1] == [u] && [u][..0] == [];
    assert Moved(m, remap, [u]) == Move(m, u, remap[u]) == map[u := "x"];
    assert Moved(m, remap, [u, t]) == Move(map[u := "x"], t, u);
  }

  /** `t` takes what `u` writes: visited right after `u` it moves the value on. */
  lemma MovedOn(remap: map<string, string>, t: string, u: string) returns (order: seq<string>)
    requires t in remap && u in remap && t != u && remap[t] == u && remap[u] != u
    ensures IsOrder(order, remap.Keys)
    ensures u !in Moved(map[remap[u] := "x"], remap, order)
  {
    var m := map[remap[u] := "x"];
    var idle := set v | v in remap && v != t && remap[v] != remap[u];
    assert IsOrder([u, t], {u, t});
    var front, back := StagedOrder(remap, idle, [u, t], {u, t});
    order := front + [u, t] + back;
    InertEntries(m, remap, front);
    MovedConcat(m, remap, front, [u, t]);
    MovedConcat(m, remap, front + [u, t], back);
    TwoMoves(remap, t, u);
    OnlyTargetsAppear(map[t := "x"], remap, back, u);
  }

  /** The converse: any clash makes two orders disagree on some item. */
  lemma {:induction false} ClashDiverges(remap: map<string, string>, t: string, u: string)
      returns (m: map<string, string>, a: seq<string>, b: seq<string>)
    requires t in remap && u in remap && Clash(remap, t, u)
    ensures IsOrder(a, remap.Keys) && IsOrder(b, remap.Keys)
    ensures Moved(m, remap, a) != Moved(m, remap, b)
  {
    m := map[remap[u] := "x"];
    a := FirstTakesIt(remap, u);
    if remap[t] == remap[u] {
      b := FirstTakesIt(remap, t);
      assert t in map[t := "x"] && u in map[u := "x"];
    } else {
      b := MovedOn(remap, t, u);
      assert u in map[u := "x"];
    }
  }

  ghost predicate Confluent(remap: map<string, string>) {
    forall m, a, b | IsOrder(a, remap.Keys) && IsOrder(b, remap.Keys) :: Moved(m, remap, a) == Moved(m, remap, b)
  }

  /** The result of the renaming loop is independent of Go's map order exactly when no two entries
      clash. */
  lemma {:induction false} ConfluentExactlyWhenClashFree(remap: map<string, string>)
    ensures Confluent(remap) <==> ClashFree(remap)
  {
    if ClashFree(remap) {
      forall m, a, b | IsOrder(a, remap.Keys) && IsOrder(b, remap.Keys)
        ensures Moved(m, remap, a) == Moved(m, remap, b)
      {
        RemapConfluent(m, remap, a);
        RemapConfluent(m, remap, b);
      }
    } else {
      var t, u :| t in remap && u in remap && Clash(remap, t, u);
      var m, a, b := ClashDiverges(remap, t, u);
    }
  }
}

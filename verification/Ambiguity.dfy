/** Valkey and Memcached accept any key, so two different settings can be written as the same flags. */
module Ambiguity {
  import opened Orders
  import opened Text
  import opened Settings

  /** A flag without its dashes. */
  function Body(style: Style, key: string, value: string): string {
    key + [style.separator] + value
  }

  /** Wherever a written setting could be split, the part before is a key, and, if it is longer than the
      key itself, the key of a setting that is written alike. Settings without a separator in any key
      or value are unambiguous. */
  predicate Unambiguous(style: Style, settings: map<string, string>) {
    forall key, p | key in settings && 0 <= p < |Body(style, key, settings[key])|
                    && Body(style, key, settings[key])[p] == style.separator ::
      var body := Body(style, key, settings[key]);
      body[..p] in settings && (p > |key| ==> settings[body[..p]] == body[p + 1..])
  }

  /** The settings are written as the flags of no other settings, whatever the orders. */
  ghost predicate OnlyWrittenSo(style: Style, now: map<string, string>) {
    forall was: map<string, string>, wasOrder: seq<string>, nowOrder: seq<string> |
      IsOrder(wasOrder, was.Keys) && IsOrder(nowOrder, now.Keys)
      && Flags(style, was, wasOrder) == Flags(style, now, nowOrder) :: was == now
  }

  // Unambiguous settings are only written so.

  /** The keys of the settings with this body. */
  function Writing(style: Style, settings: map<string, string>, body: string): set<string> {
    set key | key in settings && Body(style, key, settings[key]) == body
  }

  function Places(style: Style, settings: map<string, string>, order: seq<string>, body: string): set<nat>
    requires forall k | k in order :: k in settings
  {
    set i | 0 <= i < |order| && Body(style, order[i], settings[order[i]]) == body
  }

  lemma {:induction false} ImageCount(order: seq<string>, places: set<nat>)
    requires Distinct(order) && forall i | i in places :: i < |order|
    ensures |set i | i in places :: order[i]| == |places|
  {
    if places != {} {
      var i :| i in places;
      ImageCount(order, places - {i});
      assert (set j | j in places :: order[j]) == (set j | j in places - {i} :: order[j]) + {order[i]};
    }
  }

  lemma WritingCount(style: Style, settings: map<string, string>, order: seq<string>, body: string)
    requires IsOrder(order, settings.Keys)
    ensures |Writing(style, settings, body)| == |Places(style, settings, order, body)|
  {
    var places := Places(style, settings, order, body);
    ImageCount(order, places);
    assert Writing(style, settings, body) == set i | i in places :: order[i];
  }

  ghost predicate SameBodies(style: Style, was: map<string, string>, wasOrder: seq<string>, now: map<string, string>,
                             nowOrder: seq<string>) {
    && IsOrder(wasOrder, was.Keys) && IsOrder(nowOrder, now.Keys) && |wasOrder| == |nowOrder|
    && forall i | 0 <= i < |wasOrder| :: wasOrder[i] in was && nowOrder[i] in now
         && Body(style, wasOrder[i], was[wasOrder[i]]) == Body(style, nowOrder[i], now[nowOrder[i]])
  }

  lemma FlagIsBody(style: Style, key: string, value: string, key': string, value': string)
    ensures Flag(style, key, value) == Flag(style, key', value')
       <==> Body(style, key, value) == Body(style, key', value')
  {
    var n := |style.dash|;
    assert Flag(style, key, value) == style.dash + Body(style, key, value);
    assert Flag(style, key', value') == style.dash + Body(style, key', value');
    assert Flag(style, key, value)[n..] == Body(style, key, value);
    assert Flag(style, key', value')[n..] == Body(style, key', value');
  }

  lemma FlagsAreBodies(style: Style, was: map<string, string>, wasOrder: seq<string>, now: map<string, string>,
                       nowOrder: seq<string>)
    requires IsOrder(wasOrder, was.Keys) && IsOrder(nowOrder, now.Keys)
    ensures Flags(style, was, wasOrder) == Flags(style, now, nowOrder)
       <==> SameBodies(style, was, wasOrder, now, nowOrder)
  {
    hide Flags, Flag, Body, Distinct;
    forall i | 0 <= i < |wasOrder| && i < |nowOrder|
      ensures Flags(style, was, wasOrder)[i] == Flags(style, now, nowOrder)[i]
         <==> Body(style, wasOrder[i], was[wasOrder[i]]) == Body(style, nowOrder[i], now[nowOrder[i]])
    {
      FlagAt(style, was, wasOrder, i);
      FlagAt(style, now, nowOrder, i);
      FlagIsBody(style, wasOrder[i], was[wasOrder[i]], nowOrder[i], now[nowOrder[i]]);
    }
  }

  lemma SameBodiesSameCount(style: Style, was: map<string, string>, wasOrder: seq<string>, now: map<string, string>,
                            nowOrder: seq<string>, body: string)
    requires SameBodies(style, was, wasOrder, now, nowOrder)
    ensures |Writing(style, was, body)| == |Writing(style, now, body)|
  {
    hide Body, Distinct, Writing;
    WritingCount(style, was, wasOrder, body);
    WritingCount(style, now, nowOrder, body);
    assert Places(style, was, wasOrder, body) == Places(style, now, nowOrder, body);
  }

  ghost predicate AgreeBelow(was: map<string, string>, now: map<string, string>, n: nat) {
    forall key: string | |key| < n :: (key in was <==> key in now) && (key in was ==> was[key] == now[key])
  }

  /** No key is missing among those written alike: there would be one too few of them. */
  lemma {:induction false} NoneMissing(style: Style, was: map<string, string>, now: map<string, string>, key: string)
    requires Unambiguous(style, now) && AgreeBelow(was, now, |key|) && key in now
    requires var body := Body(style, key, now[key]); |Writing(style, was, body)| == |Writing(style, now, body)|
    ensures key in was && was[key] == now[key]
  {
    var body := Body(style, key, now[key]);
    if key !in Writing(style, was, body) {
      forall x | x in Writing(style, was, body) ensures x in Writing(style, now, body) - {key} {
        assert x == body[..|x|] && key == body[..|key|] && body[|x|] == style.separator && was[x] == body[|x| + 1..];
        assert x != key;
        if |x| > |key| {
          assert now[x] == was[x];
        }
      }
      assert key in Writing(style, now, body);
      SubsetCounts(Writing(style, was, body), Writing(style, now, body) - {key});
    } else {
      assert was[key] == Body(style, key, was[key])[|key| + 1..] && now[key] == body[|key| + 1..];
    }
  }

  lemma {:induction false} SubsetCounts<T>(a: set<T>, b: set<T>)
    requires a <= b
    ensures |a| <= |b|
  {
    if a != {} {
      var x :| x in a;
      SubsetCounts(a - {x}, b - {x});
    }
  }

  /** A key of the old settings is one of the new ones. */
  lemma {:induction false} NoneAdded(style: Style, was: map<string, string>, wasOrder: seq<string>,
                                     now: map<string, string>, nowOrder: seq<string>, key: string)
    requires SameBodies(style, was, wasOrder, now, nowOrder) && Unambiguous(style, now) && key in was
    ensures key in now
  {
    hide Body, Distinct, Unambiguous;
    assert key in wasOrder;
    var i :| 0 <= i < |wasOrder| && wasOrder[i] == key;
    SplitIsKey(style, now, nowOrder[i], key, was[key]);
  }

  lemma SplitIsKey(style: Style, now: map<string, string>, other: string, key: string, value: string)
    requires Unambiguous(style, now) && other in now && Body(style, key, value) == Body(style, other, now[other])
    ensures key in now
  {
    var body := Body(style, other, now[other]);
    assert key == body[..|key|] && body[|key|] == style.separator;
  }

  lemma {:induction false} TheyAgree(style: Style, was: map<string, string>, wasOrder: seq<string>,
                                     now: map<string, string>, nowOrder: seq<string>, n: nat)
    requires SameBodies(style, was, wasOrder, now, nowOrder) && Unambiguous(style, now)
    ensures AgreeBelow(was, now, n)
  {
    hide Unambiguous, SameBodies;
    if n > 0 {
      TheyAgree(style, was, wasOrder, now, nowOrder, n - 1);
      forall key: string | |key| < n ensures (key in was <==> key in now) && (key in was ==> was[key] == now[key]) {
        if |key| == n - 1 {
          if key in was {
            NoneAdded(style, was, wasOrder, now, nowOrder, key);
          }
          if key in now {
            SameBodiesSameCount(style, was, wasOrder, now, nowOrder, Body(style, key, now[key]));
            NoneMissing(style, was, now, key);
          }
        }
      }
    }
  }

  lemma {:induction false} UnambiguousIsOnlyWrittenSo(style: Style, was: map<string, string>, wasOrder: seq<string>,
                                                      now: map<string, string>, nowOrder: seq<string>)
    requires SameBodies(style, was, wasOrder, now, nowOrder) && Unambiguous(style, now)
    ensures was == now
  {
    hide SameBodies, Unambiguous;
    forall key ensures (key in was <==> key in now) && (key in was ==> was[key] == now[key]) {
      TheyAgree(style, was, wasOrder, now, nowOrder, |key| + 1);
    }
  }

  // Ambiguous settings have other settings that are written alike.

  /** The part before another separator is not a key yet: rename the setting. */
  lemma {:induction false} Renamed(style: Style, now: map<string, string>, order: seq<string>, key: string, p: nat)
      returns (was: map<string, string>, wasOrder: seq<string>)
    requires IsOrder(order, now.Keys) && key in now && p < |Body(style, key, now[key])|
    requires var body := Body(style, key, now[key]); body[p] == style.separator && body[..p] !in now
    ensures SameBodies(style, was, wasOrder, now, order) && was != now
  {
    var body := Body(style, key, now[key]);
    var other := body[..p];
    was := (now - {key})[other := body[p + 1..]];
    var i :| 0 <= i < |order| && order[i] == key;
    wasOrder := order[i := other];
    assert Body(style, other, was[other]) == body;
    assert other in was;
    forall k | k in was ensures k in wasOrder {
      if k == other {
        assert wasOrder[i] == k;
      } else {
        var j :| 0 <= j < |order| && order[j] == k;
        assert wasOrder[j] == k;
      }
    }
  }

  /** It is the key of a setting that is written otherwise: swap the two. */
  lemma {:induction false} Swapped(style: Style, now: map<string, string>, order: seq<string>, key: string, p: nat)
      returns (was: map<string, string>, wasOrder: seq<string>)
    requires IsOrder(order, now.Keys) && key in now && |key| < p < |Body(style, key, now[key])|
    requires var body := Body(style, key, now[key]);
             && body[p] == style.separator && body[..p] in now && now[body[..p]] != body[p + 1..]
    ensures SameBodies(style, was, wasOrder, now, order) && was != now
  {
    var other, tail := SwappedBodies(style, key, now[key], p, now[Body(style, key, now[key])[..p]]);
    was := now[other := Body(style, key, now[key])[p + 1..]][key := tail];
    var i :| 0 <= i < |order| && order[i] == key;
    var j :| 0 <= j < |order| && order[j] == other;
    wasOrder := order[i := other][j := key];
    hide Body;
    forall k | k in was ensures k in wasOrder {
      var l :| 0 <= l < |order| && order[l] == k;
      assert wasOrder[if l == i then j else if l == j then i else l] == k;
    }
  }

  lemma SwappedBodies(style: Style, key: string, value: string, p: nat, otherValue: string)
      returns (other: string, tail: string)
    requires |key| < p < |Body(style, key, value)| && Body(style, key, value)[p] == style.separator
    ensures other == Body(style, key, value)[..p] && other != key
    ensures Body(style, other, Body(style, key, value)[p + 1..]) == Body(style, key, value)
    ensures Body(style, key, tail) == Body(style, other, otherValue)
  {
    other := Body(style, key, value)[..p];
    tail := other[|key| + 1..] + [style.separator] + otherValue;
    assert other == key + [style.separator] + other[|key| + 1..];
  }

  /** Settings are written as the flags of no other settings exactly when they are unambiguous. */
  lemma {:induction false} OnlyWrittenSoExactlyWhen(style: Style, now: map<string, string>)
    ensures OnlyWrittenSo(style, now) <==> Unambiguous(style, now)
  {
    hide SameBodies, Flags;
    if Unambiguous(style, now) {
      forall was: map<string, string>, wasOrder: seq<string>, nowOrder: seq<string> |
        IsOrder(wasOrder, was.Keys) && IsOrder(nowOrder, now.Keys)
        && Flags(style, was, wasOrder) == Flags(style, now, nowOrder)
        ensures was == now
      {
        FlagsAreBodies(style, was, wasOrder, now, nowOrder);
        UnambiguousIsOnlyWrittenSo(style, was, wasOrder, now, nowOrder);
      }
    } else {
      var key, p :| key in now && 0 <= p < |Body(style, key, now[key])|
        && Body(style, key, now[key])[p] == style.separator
        && var body := Body(style, key, now[key]);
           !(body[..p] in now && (p > |key| ==> now[body[..p]] == body[p + 1..]));
      var order := AnOrder(now.Keys);
      var was, wasOrder;
      if Body(style, key, now[key])[..p] !in now {
        was, wasOrder := Renamed(style, now, order, key, p);
      } else {
        was, wasOrder := Swapped(style, now, order, key, p);
      }
      assert IsOrder(wasOrder, was.Keys) by { BodiesAreOrders(style, was, wasOrder, now, order); }
      FlagsAreBodies(style, was, wasOrder, now, order);
    }
  }

  lemma BodiesAreOrders(style: Style, was: map<string, string>, wasOrder: seq<string>, now: map<string, string>,
                        nowOrder: seq<string>)
    requires SameBodies(style, was, wasOrder, now, nowOrder)
    ensures IsOrder(wasOrder, was.Keys)
  {
  }

  /** No redeploy keeps a container of the same service that was started with other settings. */
  ghost predicate SkipIsSound(kind: Kind, now: map<string, string>, imageDefault: seq<string>) {
    forall was: map<string, string>, wasOrder: seq<string>, nowOrder: seq<string> |
      IsOrder(wasOrder, was.Keys) && IsOrder(nowOrder, now.Keys)
      && Keeps(kind, Recorded(Command(kind, was, wasOrder), imageDefault), Command(kind, now, nowOrder)) :: was == now
  }

  /** Skip soundness for any service that compares commands, exactly. */
  lemma {:induction false} SkipIsSoundExactlyWhen(kind: Kind, now: map<string, string>, imageDefault: seq<string>)
    requires DecisionOf(kind).SameCommand? && PlainDefault(StyleOf(kind), imageDefault) && imageDefault != []
    requires kind.MySQL? ==> imageDefault == ["mysqld"]
    ensures SkipIsSound(kind, now, imageDefault) <==> Unambiguous(StyleOf(kind), now)
  {
    hide Flags, Command, Keeps, Unambiguous;
    var style := StyleOf(kind);
    OnlyWrittenSoExactlyWhen(style, now);
    forall was: map<string, string>, wasOrder: seq<string>, nowOrder: seq<string> |
      IsOrder(wasOrder, was.Keys) && IsOrder(nowOrder, now.Keys)
      ensures Keeps(kind, Recorded(Command(kind, was, wasOrder), imageDefault), Command(kind, now, nowOrder))
         <==> Flags(style, was, wasOrder) == Flags(style, now, nowOrder) && (ShowsDefault(kind) ==> was != map[])
      ensures was == map[] && Flags(style, was, wasOrder) == Flags(style, now, nowOrder) ==> now == map[]
    {
      SameFlagsExactlyWhen(kind, was, wasOrder, imageDefault, now, nowOrder);
      EmptyOrder(wasOrder, was.Keys);
      EmptyOrder(nowOrder, now.Keys);
    }
  }

  /** A container of the same service that is kept was started with these settings if they are unambiguous. */
  lemma {:induction false} KeptIsUnambiguous(kind: Kind, was: map<string, string>, wasOrder: seq<string>,
                                             imageDefault: seq<string>, now: map<string, string>,
                                             nowOrder: seq<string>)
    requires DecisionOf(kind).SameCommand? && !kind.MySQL? && PlainDefault(StyleOf(kind), imageDefault)
    requires IsOrder(wasOrder, was.Keys) && IsOrder(nowOrder, now.Keys) && Unambiguous(StyleOf(kind), now)
    requires Keeps(kind, Recorded(Command(kind, was, wasOrder), imageDefault), Command(kind, now, nowOrder))
    ensures was == now
  {
    hide Unambiguous, Flags;
    var someDefault := if imageDefault == [] then [""] else imageDefault;
    if Command(kind, was, wasOrder) != [] || imageDefault != [] {
      SkipIsSoundExactlyWhen(kind, now, someDefault);
      assert Keeps(kind, Recorded(Command(kind, was, wasOrder), someDefault), Command(kind, now, nowOrder));
    } else {
      EmptyOrder(wasOrder, was.Keys);
      EmptyOrder(nowOrder, now.Keys);
    }
  }

  /** The failing input: both settings are written `--a=b=c`, so Valkey keeps the container. */
  lemma {:induction false} ValkeyMistakesSettings(imageDefault: seq<string>)
    ensures var was, now := map["a=b" := "c"], map["a" := "b=c"];
            && IsOrder(["a=b"], was.Keys) && IsOrder(["a"], now.Keys) && was != now
            && Keeps(Valkey, Recorded(Command(Valkey, was, ["a=b"]), imageDefault), Command(Valkey, now, ["a"]))
  {
    var was, now := map["a=b" := "c"], map["a" := "b=c"];
    FlagAt(LONG, was, ["a=b"], 0);
    FlagAt(LONG, now, ["a"], 0);
    assert Flag(LONG, "a=b", "c") == "--a=b=c" == Flag(LONG, "a", "b=c");
    assert Flags(LONG, was, ["a=b"]) == ["--a=b=c"] == Flags(LONG, now, ["a"]);
    assert "a=b" in was;
  }
}

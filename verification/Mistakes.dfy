/** A service changed into another one finds a container that was created for what it was before. */
module Mistakes {
  import opened Orders
  import opened Text
  import opened Settings

  predicate UsesMySQLKeys(kind: Kind) {
    kind.MySQL? || kind.MariaDB?
  }

  /** One of the two is Memcached, the other MySQL or MariaDB. */
  predicate MayBeMistaken(wasKind: Kind, nowKind: Kind) {
    (wasKind.Memcached? && UsesMySQLKeys(nowKind)) || (UsesMySQLKeys(wasKind) && nowKind.Memcached?)
  }

  /** The first word of a command that was not left to the image. */
  lemma {:induction false} FirstWord(kind: Kind, settings: map<string, string>, order: seq<string>)
    requires forall k | k in order :: k in settings
    requires Command(kind, settings, order) != []
    ensures if BaseCommand(kind) != [] then Command(kind, settings, order)[0] == BaseCommand(kind)[0]
            else order != [] && HasPrefix(Command(kind, settings, order)[0], StyleOf(kind).dash)
  {
    hide Flags;
    if BaseCommand(kind) == [] {
      assert Command(kind, settings, order) == Flags(StyleOf(kind), settings, order);
      FirstFlag(StyleOf(kind), settings, order);
    }
  }

  /** Across families a container started with a command of its own is kept by no other pair. */
  lemma {:induction false} OnlyTheseAreMistaken(
      wasKind: Kind, was: map<string, string>, wasOrder: seq<string>,
      nowKind: Kind, now: map<string, string>, nowOrder: seq<string>)
    requires DecisionOf(wasKind).SameCommand? && DecisionOf(nowKind).SameCommand?
    requires FamilyOf(wasKind) != FamilyOf(nowKind)
    requires IsOrder(wasOrder, was.Keys) && IsOrder(nowOrder, now.Keys) && Command(wasKind, was, wasOrder) != []
    requires Keeps(nowKind, Command(wasKind, was, wasOrder), Command(nowKind, now, nowOrder))
    ensures MayBeMistaken(wasKind, nowKind)
  {
    hide Command, Flags, Flag, Distinct;
    var cmd := Command(wasKind, was, wasOrder);
    FirstWord(wasKind, was, wasOrder);
    WordsDiffer();
    assert Compared(nowKind, cmd) == cmd;
    FirstWord(nowKind, now, nowOrder);
  }

  lemma WordsDiffer()
    ensures "postgres" != "valkey-server" && "mysqld" != "postgres" && "mysqld" != "valkey-server"
    ensures !HasPrefix("postgres", "-") && !HasPrefix("valkey-server", "-") && !HasPrefix("mysqld", "-")
    ensures !HasPrefix("postgres", "--") && !HasPrefix("valkey-server", "--") && !HasPrefix("mysqld", "--")
  {
    assert "postgres"[0] != "valkey-server"[0] && "mysqld"[0] != "postgres"[0] && "mysqld"[0] != "valkey-server"[0];
    assert "postgres"[0] != "-"[0] && "valkey-server"[0] != "-"[0] && "mysqld"[0] != "-"[0];
    assert "postgres"[0] != "--"[0] && "valkey-server"[0] != "--"[0] && "mysqld"[0] != "--"[0];
  }

  /** Some accepted settings of the one service give its container a command that the other one keeps for
      these settings. */
  ghost predicate IsMistaken(wasKind: Kind, nowKind: Kind, now: map<string, string>) {
    exists was: map<string, string>, wasOrder: seq<string>, nowOrder: seq<string> ::
      IsOrder(wasOrder, was.Keys) && IsOrder(nowOrder, now.Keys) && Validated(wasKind, was) && was != map[]
      && Keeps(nowKind, Command(wasKind, was, wasOrder), Command(nowKind, now, nowOrder))
  }

  lemma {:induction false} KeptForItsFlags(
      wasKind: Kind, was: map<string, string>, wasOrder: seq<string>,
      nowKind: Kind, now: map<string, string>, nowOrder: seq<string>)
    requires MayBeMistaken(wasKind, nowKind) && was != map[]
    requires IsOrder(wasOrder, was.Keys) && IsOrder(nowOrder, now.Keys)
    ensures Keeps(nowKind, Command(wasKind, was, wasOrder), Command(nowKind, now, nowOrder))
       <==> Flags(StyleOf(wasKind), was, wasOrder) == Flags(StyleOf(nowKind), now, nowOrder)
    ensures Flags(StyleOf(wasKind), was, wasOrder) == Flags(StyleOf(nowKind), now, nowOrder) ==> now != map[]
  {
    hide Flags, Flag, Distinct;
    EmptyOrder(wasOrder, was.Keys);
    EmptyOrder(nowOrder, now.Keys);
    var cmd := Command(wasKind, was, wasOrder);
    assert cmd == Flags(StyleOf(wasKind), was, wasOrder) && |cmd| == |wasOrder|;
    assert Command(nowKind, now, nowOrder) == Flags(StyleOf(nowKind), now, nowOrder);
    FirstWord(wasKind, was, wasOrder);
    WordsDiffer();
  }

  // Writing settings again in another style.

  /** The key and the value each setting would have had to be written the same. */
  datatype Rewriting = Rewriting(keyOf: string -> string, valueOf: string -> string)

  ghost predicate OneKeyEach(f: Rewriting, now: map<string, string>) {
    forall k, l | k in now && l in now && f.keyOf(k) == f.keyOf(l) :: k == l
  }

  ghost predicate Rewrites(f: Rewriting, wasStyle: Style, nowStyle: Style, now: map<string, string>) {
    && (forall k | k in now :: Flag(wasStyle, f.keyOf(k), f.valueOf(k)) == Flag(nowStyle, k, now[k]))
    && OneKeyEach(f, now)
  }

  function Rewritten(f: Rewriting, now: map<string, string>): map<string, string>
    requires OneKeyEach(f, now)
  {
    map k | k in now :: f.keyOf(k) := f.valueOf(k)
  }

  function RewrittenOrder(f: Rewriting, order: seq<string>): seq<string> {
    seq(|order|, i requires 0 <= i < |order| => f.keyOf(order[i]))
  }

  lemma RewrittenIsOrder(f: Rewriting, now: map<string, string>, order: seq<string>)
    requires OneKeyEach(f, now) && IsOrder(order, now.Keys)
    ensures IsOrder(RewrittenOrder(f, order), Rewritten(f, now).Keys)
  {
    var was, wasOrder := Rewritten(f, now), RewrittenOrder(f, order);
    forall k | k in was ensures k in wasOrder {
      var l :| l in now && f.keyOf(l) == k;
      var i :| 0 <= i < |order| && order[i] == l;
      assert wasOrder[i] == k;
    }
    forall k | k in wasOrder ensures k in was {
      var i :| 0 <= i < |order| && wasOrder[i] == k;
      assert order[i] in order;
    }
    forall i, j | 0 <= i < j < |wasOrder| ensures wasOrder[i] != wasOrder[j] {
      assert order[i] in order && order[j] in order && order[i] != order[j];
    }
  }

  lemma RewrittenAt(f: Rewriting, now: map<string, string>, key: string)
    requires OneKeyEach(f, now) && key in now
    ensures f.keyOf(key) in Rewritten(f, now) && Rewritten(f, now)[f.keyOf(key)] == f.valueOf(key)
  {
  }

  lemma {:induction false} RewrittenFlags(f: Rewriting, wasStyle: Style, nowStyle: Style, now: map<string, string>,
                                          order: seq<string>)
    requires Rewrites(f, wasStyle, nowStyle, now) && IsOrder(order, now.Keys)
    ensures IsOrder(RewrittenOrder(f, order), Rewritten(f, now).Keys)
    ensures Flags(wasStyle, Rewritten(f, now), RewrittenOrder(f, order)) == Flags(nowStyle, now, order)
  {
    hide Flags, Flag, OneKeyEach, Rewritten, Distinct;
    var was, wasOrder := Rewritten(f, now), RewrittenOrder(f, order);
    RewrittenIsOrder(f, now, order);
    forall i | 0 <= i < |order| ensures Flags(wasStyle, was, wasOrder)[i] == Flags(nowStyle, now, order)[i] {
      FlagAt(wasStyle, was, wasOrder, i);
      FlagAt(nowStyle, now, order, i);
      RewrittenAt(f, now, order[i]);
    }
  }

  // MySQL and MariaDB find a container of Memcached.

  lemma MySQLServerKeyHasNoSpace(key: string)
    requires MySQLServerKey(key)
    ensures ' ' !in key
  {
  }

  lemma MySQLStorageKeyHasNoSpace(key: string)
    requires MySQLStorageKey(key)
    ensures ' ' !in key
  {
  }

  lemma MySQLKeyIsAWord(key: string)
    requires MySQLKey(key)
    ensures ' ' !in key && '=' !in key
  {
    SupportedKeysArePlain(MySQL, key);
    if MySQLServerKey(key) { MySQLServerKeyHasNoSpace(key); } else { MySQLStorageKeyHasNoSpace(key); }
  }

  /** Some settings of Memcached are written as these settings of a database. */
  ghost predicate LooksLikeMemcached(now: map<string, string>) {
    exists was: map<string, string>, wasOrder: seq<string>, nowOrder: seq<string> ::
      IsOrder(wasOrder, was.Keys) && IsOrder(nowOrder, now.Keys)
      && Flags(SHORT, was, wasOrder) == Flags(LONG, now, nowOrder)
  }

  function AsMemcached(now: map<string, string>): Rewriting {
    Rewriting(
      k => if k in now then "-" + k + "=" + Halves(now[k]).0 else "",
      k => if k in now then Halves(now[k]).1 else "")
  }

  /** A value at its first space. */
  function Halves(value: string): (string, string) {
    match SplitFirst(value, ' ')
    case None => (value, "")
    case Some(halves) => halves
  }

  lemma {:induction false} AsMemcachedRewrites(now: map<string, string>)
    requires forall key | key in now :: MySQLKey(key) && ' ' in now[key]
    ensures Rewrites(AsMemcached(now), SHORT, LONG, now)
  {
    hide MySQLKey, Flag, Halves;
    var f := AsMemcached(now);
    forall k | k in now ensures Flag(SHORT, f.keyOf(k), f.valueOf(k)) == Flag(LONG, k, now[k]) {
      MemcachedFlag(k, now[k]);
    }
    forall k, l | k in now && l in now && f.keyOf(k) == f.keyOf(l) ensures k == l {
      SplitsBack(k, Halves(now[k]).0);
      SplitsBack(l, Halves(now[l]).0);
    }
  }

  lemma MemcachedFlag(key: string, value: string)
    requires ' ' in value
    ensures Flag(SHORT, "-" + key + "=" + Halves(value).0, Halves(value).1) == Flag(LONG, key, value)
  {
    var halves := Halves(value);
    assert value == halves.0 + [' '] + halves.1;
    assert Flag(LONG, key, value) == "--" + key + "=" + value;
    assert Flag(SHORT, "-" + key + "=" + halves.0, halves.1) == "-" + ("-" + key + "=" + halves.0) + " " + halves.1;
  }

  lemma SplitsBack(key: string, rest: string)
    requires MySQLKey(key)
    ensures ("-" + key + "=" + rest)[1..] == key + "=" + rest && SplitFirst(key + "=" + rest, '=') == Some((key, rest))
  {
    hide MySQLKey;
    MySQLKeyIsAWord(key);
    assert key + "=" + rest == key + ['='] + rest;
    SplitJoined(key, rest, '=');
  }

  lemma NotInTheWord(text: string, before: string, word: string, after: string, at: nat, c: char)
    requires text == before + word + after && at < |text| && text[at] == c && c !in before && c !in word
    ensures at >= |before| + |word|
  {
    forall i | 0 <= i < |before| + |word| ensures text[i] != c {
      assert text[i] == if i < |before| then before[i] else word[i - |before|];
    }
  }

  lemma {:induction false} SpaceInTheValue(key: string, value: string, wasKey: string, wasValue: string)
    requires MySQLKey(key) && Flag(LONG, key, value) == Flag(SHORT, wasKey, wasValue)
    ensures ' ' in value
  {
    hide MySQLKey;
    MySQLKeyIsAWord(key);
    var flag := Flag(LONG, key, value);
    assert flag == "-" + wasKey + " " + wasValue && flag[|wasKey| + 1] == ' ';
    assert flag == "--" + key + "=" + value;
    var at := |wasKey| + 1;
    NotInTheWord(flag, "--", key + "=", value, at, ' ');
    assert value[at - |key| - 3] == flag[at];
  }

  /** A container of Memcached may be kept by MySQL or MariaDB for these settings exactly when every value
      holds a space. */
  lemma {:induction false} LooksLikeMemcachedExactlyWhen(now: map<string, string>)
    requires forall key | key in now :: MySQLKey(key)
    ensures LooksLikeMemcached(now) <==> forall key | key in now :: ' ' in now[key]
  {
    hide MySQLKey, Flags, Flag;
    if forall key | key in now :: ' ' in now[key] {
      var order := AnOrder(now.Keys);
      AsMemcachedRewrites(now);
      RewrittenFlags(AsMemcached(now), SHORT, LONG, now, order);
    }
    if LooksLikeMemcached(now) {
      var was: map<string, string>, wasOrder: seq<string>, nowOrder: seq<string> :|
        IsOrder(wasOrder, was.Keys) && IsOrder(nowOrder, now.Keys)
        && Flags(SHORT, was, wasOrder) == Flags(LONG, now, nowOrder);
      forall key | key in now ensures ' ' in now[key] {
        var i :| 0 <= i < |nowOrder| && nowOrder[i] == key;
        assert |wasOrder| == |Flags(SHORT, was, wasOrder)| == |nowOrder|;
        FlagAt(SHORT, was, wasOrder, i);
        FlagAt(LONG, now, nowOrder, i);
        SpaceInTheValue(key, now[key], wasOrder[i], was[wasOrder[i]]);
      }
    }
  }

  /** MySQL and MariaDB mistake a container of Memcached exactly when there are settings and every value
      holds a space. */
  lemma {:induction false} MemcachedIsMistakenExactlyWhen(kind: Kind, now: map<string, string>)
    requires UsesMySQLKeys(kind) && Validated(kind, now)
    ensures IsMistaken(Memcached, kind, now) <==> now != map[] && forall key | key in now :: ' ' in now[key]
  {
    hide Flags, Command, Keeps, MySQLKey;
    LooksLikeMemcachedExactlyWhen(now);
    if LooksLikeMemcached(now) && now != map[] {
      var was: map<string, string>, wasOrder: seq<string>, nowOrder: seq<string> :|
        IsOrder(wasOrder, was.Keys) && IsOrder(nowOrder, now.Keys)
        && Flags(SHORT, was, wasOrder) == Flags(LONG, now, nowOrder);
      SameSize(SHORT, was, wasOrder, LONG, now, nowOrder);
      KeptForItsFlags(Memcached, was, wasOrder, kind, now, nowOrder);
      assert IsMistaken(Memcached, kind, now);
    }
    if IsMistaken(Memcached, kind, now) {
      var was: map<string, string>, wasOrder: seq<string>, nowOrder: seq<string> :|
        IsOrder(wasOrder, was.Keys) && IsOrder(nowOrder, now.Keys) && Validated(Memcached, was) && was != map[]
        && Keeps(kind, Command(Memcached, was, wasOrder), Command(kind, now, nowOrder));
      KeptForItsFlags(Memcached, was, wasOrder, kind, now, nowOrder);
    }
  }

  lemma SameSize(wasStyle: Style, was: map<string, string>, wasOrder: seq<string>, nowStyle: Style,
                 now: map<string, string>, nowOrder: seq<string>)
    requires IsOrder(wasOrder, was.Keys) && IsOrder(nowOrder, now.Keys)
    requires Flags(wasStyle, was, wasOrder) == Flags(nowStyle, now, nowOrder)
    ensures was == map[] <==> now == map[]
  {
    hide Flags;
    assert |wasOrder| == |Flags(wasStyle, was, wasOrder)| == |nowOrder|;
    EmptyOrder(wasOrder, was.Keys);
    EmptyOrder(nowOrder, now.Keys);
  }

  // Memcached finds a container of MySQL or MariaDB.

  /** Accepted settings of a database are written as these settings of Memcached. */
  ghost predicate LooksLikeDatabase(now: map<string, string>) {
    exists was: map<string, string>, wasOrder: seq<string>, nowOrder: seq<string> ::
      IsOrder(wasOrder, was.Keys) && IsOrder(nowOrder, now.Keys) && (forall key | key in was :: MySQLKey(key))
      && Flags(LONG, was, wasOrder) == Flags(SHORT, now, nowOrder)
  }

  /** What a key of Memcached would be as a setting of a database: a dash, an accepted key, an equals sign
      and the beginning of the value. */
  function DatabaseKey(key: string): Option<(string, string)> {
    if !HasPrefix(key, "-") then None
    else match SplitFirst(key[1..], '=')
      case None => None
      case Some(parts) => if MySQLKey(parts.0) then Some(parts) else None
  }

  ghost predicate AllAreDatabaseKeys(now: map<string, string>) {
    && (forall key | key in now :: DatabaseKey(key).Some?)
    && forall k, l | k in now && l in now && DatabaseKey(k).Some? && DatabaseKey(l).Some?
                     && DatabaseKey(k).value.0 == DatabaseKey(l).value.0 :: k == l
  }

  function AsDatabase(now: map<string, string>): Rewriting {
    Rewriting(
      k => match DatabaseKey(k) case None => "" case Some(parts) => parts.0,
      k => match DatabaseKey(k) case None => "" case Some(parts) => parts.1 + " " + if k in now then now[k] else "")
  }

  lemma {:induction false} AsDatabaseRewrites(now: map<string, string>)
    requires AllAreDatabaseKeys(now)
    ensures Rewrites(AsDatabase(now), LONG, SHORT, now)
  {
    hide MySQLKey, Flag, DatabaseKey;
    var f := AsDatabase(now);
    forall k | k in now ensures Flag(LONG, f.keyOf(k), f.valueOf(k)) == Flag(SHORT, k, now[k]) {
      DatabaseFlag(k, now[k]);
    }
  }

  lemma DatabaseFlag(key: string, value: string)
    requires DatabaseKey(key).Some?
    ensures var parts := DatabaseKey(key).value;
            Flag(LONG, parts.0, parts.1 + " " + value) == Flag(SHORT, key, value)
  {
    hide MySQLKey;
    var parts := DatabaseKey(key).value;
    assert key == "-" + key[1..] && key[1..] == parts.0 + ['='] + parts.1;
    assert Flag(LONG, parts.0, parts.1 + " " + value) == "--" + parts.0 + "=" + (parts.1 + " " + value);
    assert Flag(SHORT, key, value) == "-" + ("-" + (parts.0 + "=" + parts.1)) + " " + value;
  }

  lemma {:induction false} WrittenByADatabase(key: string, value: string, wasKey: string, wasValue: string)
    requires MySQLKey(wasKey) && Flag(LONG, wasKey, wasValue) == Flag(SHORT, key, value)
    ensures DatabaseKey(key).Some? && DatabaseKey(key).value.0 == wasKey
  {
    hide MySQLKey;
    MySQLKeyIsAWord(wasKey);
    var flag := Flag(LONG, wasKey, wasValue);
    assert flag == "-" + key + " " + value && flag[|key| + 1] == ' ';
    assert flag == "--" + wasKey + "=" + wasValue;
    var at := |key| + 1;
    NotInTheWord(flag, "--", wasKey + "=", wasValue, at, ' ');
    var rest := key[|wasKey| + 2..];
    assert key == flag[1..at] && flag[1] == '-' && flag[2..|wasKey| + 2] == wasKey && flag[|wasKey| + 2] == '=';
    assert key[1..] == wasKey + ['='] + rest;
    SplitJoined(wasKey, rest, '=');
  }

  /** A container of MySQL or MariaDB may be kept by Memcached for these settings exactly when every key is a
      dash, an accepted key, an equals sign and more, no two with the same accepted key. */
  lemma {:induction false} LooksLikeDatabaseExactlyWhen(now: map<string, string>)
    ensures LooksLikeDatabase(now) <==> AllAreDatabaseKeys(now)
  {
    hide MySQLKey, Flags, Flag, DatabaseKey;
    if AllAreDatabaseKeys(now) {
      var order := AnOrder(now.Keys);
      AsDatabaseRewrites(now);
      RewrittenFlags(AsDatabase(now), LONG, SHORT, now, order);
      RewrittenKeysAreAccepted(now);
    }
    if LooksLikeDatabase(now) {
      var was: map<string, string>, wasOrder: seq<string>, nowOrder: seq<string> :|
        IsOrder(wasOrder, was.Keys) && IsOrder(nowOrder, now.Keys) && (forall key | key in was :: MySQLKey(key))
        && Flags(LONG, was, wasOrder) == Flags(SHORT, now, nowOrder);
      assert |wasOrder| == |Flags(LONG, was, wasOrder)| == |nowOrder|;
      forall i | 0 <= i < |nowOrder|
        ensures DatabaseKey(nowOrder[i]).Some? && DatabaseKey(nowOrder[i]).value.0 == wasOrder[i]
      {
        FlagAt(LONG, was, wasOrder, i);
        FlagAt(SHORT, now, nowOrder, i);
        WrittenByADatabase(nowOrder[i], now[nowOrder[i]], wasOrder[i], was[wasOrder[i]]);
      }
      DifferentDatabaseKeys(now, wasOrder, nowOrder);
    }
  }

  lemma RewrittenKeysAreAccepted(now: map<string, string>)
    requires AllAreDatabaseKeys(now) && Rewrites(AsDatabase(now), LONG, SHORT, now)
    ensures forall key | key in Rewritten(AsDatabase(now), now) :: MySQLKey(key)
  {
    hide MySQLKey, Flag;
  }

  lemma DifferentDatabaseKeys(now: map<string, string>, wasOrder: seq<string>, nowOrder: seq<string>)
    requires IsOrder(nowOrder, now.Keys) && Distinct(wasOrder) && |wasOrder| == |nowOrder|
    requires forall i | 0 <= i < |nowOrder| ::
               DatabaseKey(nowOrder[i]).Some? && DatabaseKey(nowOrder[i]).value.0 == wasOrder[i]
    ensures AllAreDatabaseKeys(now)
  {
    hide DatabaseKey;
    forall key | key in now ensures DatabaseKey(key).Some? {
      var i :| 0 <= i < |nowOrder| && nowOrder[i] == key;
    }
    forall k, l | k in now && l in now && DatabaseKey(k).value.0 == DatabaseKey(l).value.0 ensures k == l {
      var i :| 0 <= i < |nowOrder| && nowOrder[i] == k;
      var j :| 0 <= j < |nowOrder| && nowOrder[j] == l;
      assert wasOrder[i] == wasOrder[j];
    }
  }

  /** Memcached mistakes a container of MySQL or MariaDB exactly when there are settings and every key is
      written like the beginning of a setting of a database, each of another one. */
  lemma {:induction false} DatabaseIsMistakenExactlyWhen(kind: Kind, now: map<string, string>)
    requires UsesMySQLKeys(kind)
    ensures IsMistaken(kind, Memcached, now) <==> now != map[] && AllAreDatabaseKeys(now)
  {
    hide Flags, Command, Keeps, MySQLKey, AllAreDatabaseKeys;
    LooksLikeDatabaseExactlyWhen(now);
    if LooksLikeDatabase(now) && now != map[] {
      var was: map<string, string>, wasOrder: seq<string>, nowOrder: seq<string> :|
        IsOrder(wasOrder, was.Keys) && IsOrder(nowOrder, now.Keys) && (forall key | key in was :: MySQLKey(key))
        && Flags(LONG, was, wasOrder) == Flags(SHORT, now, nowOrder);
      SameSize(LONG, was, wasOrder, SHORT, now, nowOrder);
      KeptForItsFlags(kind, was, wasOrder, Memcached, now, nowOrder);
      assert IsMistaken(kind, Memcached, now);
    }
    if IsMistaken(kind, Memcached, now) {
      var was: map<string, string>, wasOrder: seq<string>, nowOrder: seq<string> :|
        IsOrder(wasOrder, was.Keys) && IsOrder(nowOrder, now.Keys) && Validated(kind, was) && was != map[]
        && Keeps(Memcached, Command(kind, was, wasOrder), Command(Memcached, now, nowOrder));
      KeptForItsFlags(kind, was, wasOrder, Memcached, now, nowOrder);
    }
  }
}

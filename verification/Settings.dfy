/** The services: their settings, the command line rendered from them, and the decision to keep or
    recreate a running container. */
module Settings {
  import opened Orders
  import opened Text

  datatype Kind = MySQL | MariaDB | Postgres | Valkey | Memcached | RabbitMQ | OpenSearch | Blackfire | Tideways

  predicate IsDatabase(kind: Kind) {
    kind.MySQL? || kind.MariaDB? || kind.Postgres?
  }

  /** What a kept container is kept for. */
  datatype Decision = SameCommand | SameImage | Present

  function DecisionOf(kind: Kind): Decision {
    match kind
    case MySQL | MariaDB | Postgres | Valkey | Memcached => SameCommand
    case RabbitMQ | OpenSearch => SameImage
    case Blackfire | Tideways => Present
  }

  /** The databases replace one another, every other service stands for itself. */
  function FamilyOf(kind: Kind): Kind {
    if IsDatabase(kind) then MySQL else kind
  }

  /** The keys MySQL and MariaDB accept. */
  predicate MySQLKey(key: string) {
    MySQLServerKey(key) || MySQLStorageKey(key)
  }

  predicate MySQLServerKey(key: string) {
    || key == "sql_mode" || key == "log_bin_trust_function_creators" || key == "join_buffer_size"
    || key == "group_concat_max_len" || key == "max_connections" || key == "max_allowed_packet"
  }

  predicate MySQLStorageKey(key: string) {
    || key == "innodb_log_file_size" || key == "innodb_buffer_pool_size" || key == "innodb_buffer_pool_instances"
    || key == "binlog_cache_size" || key == "max_binlog_size" || key == "binlog_expire_logs_seconds"
  }

  /** The keys Postgres accepts. */
  predicate PostgresKey(key: string) {
    PostgresMemoryKey(key) || PostgresPlannerKey(key) || PostgresProcessKey(key)
  }

  predicate PostgresMemoryKey(key: string) {
    || key == "shared_buffers" || key == "effective_cache_size" || key == "maintenance_work_mem"
    || key == "wal_buffers" || key == "work_mem"
  }

  predicate PostgresPlannerKey(key: string) {
    || key == "checkpoint_completion_target" || key == "default_statistics_target"
    || key == "random_page_cost" || key == "min_wal_size" || key == "max_wal_size"
  }

  predicate PostgresProcessKey(key: string) {
    || key == "max_connections" || key == "effective_io_concurrency" || key == "max_worker_processes"
    || key == "max_parallel_workers_per_gather" || key == "max_parallel_workers"
  }

  predicate SupportedKey(kind: Kind, key: string) {
    if kind.Postgres? then PostgresKey(key) else MySQLKey(key)
  }

  /** `Validate`: only the databases look at the keys. */
  predicate Validated(kind: Kind, settings: map<string, string>) {
    IsDatabase(kind) ==> forall key | key in settings :: SupportedKey(kind, key)
  }

  /** Which keys the databases accept. */
  lemma AcceptedKeys(kind: Kind, key: string)
    ensures kind.MySQL? || kind.MariaDB? ==>
              (SupportedKey(kind, key) <==>
                 || key == "sql_mode" || key == "log_bin_trust_function_creators" || key == "binlog_cache_size"
                 || key == "join_buffer_size" || key == "innodb_log_file_size" || key == "innodb_buffer_pool_size"
                 || key == "innodb_buffer_pool_instances" || key == "group_concat_max_len" || key == "max_connections"
                 || key == "max_allowed_packet" || key == "max_binlog_size" || key == "binlog_expire_logs_seconds")
    ensures kind.Postgres? ==>
              (SupportedKey(kind, key) <==>
                 || key == "max_connections" || key == "shared_buffers" || key == "effective_cache_size"
                 || key == "maintenance_work_mem" || key == "checkpoint_completion_target" || key == "wal_buffers"
                 || key == "default_statistics_target" || key == "random_page_cost" || key == "effective_io_concurrency"
                 || key == "work_mem" || key == "min_wal_size" || key == "max_wal_size"
                 || key == "max_worker_processes" || key == "max_parallel_workers_per_gather"
                 || key == "max_parallel_workers")
  {
  }

  /** `newService`: the service a type string stands for. */
  function KindOf(serviceType: string): Option<Kind> {
    if serviceType in ["mysql:8.0", "mysql:8.4"] then Some(MySQL)
    else if serviceType in ["mariadb:10.6", "mariadb:10.11", "mariadb:11.4"] then Some(MariaDB)
    else if serviceType in ["postgres:17", "postgres:16", "postgres:15", "postgres:14"] then Some(Postgres)
    else if serviceType in ["valkey:7.2", "valkey:8.0"] then Some(Valkey)
    else if serviceType == "memcached:latest" then Some(Memcached)
    else if serviceType == "rabbitmq:4" then Some(RabbitMQ)
    else if serviceType == "opensearch:2.17.1" then Some(OpenSearch)
    else if serviceType == "blackfire:latest" then Some(Blackfire)
    else if serviceType == "tideways:latest" then Some(Tideways)
    else None
  }

  function ServiceImage(kind: Kind, serviceType: string): string {
    match kind
    case MySQL | MariaDB => serviceType
    case Postgres => "postgres:alpine"
    case Valkey => "valkey/" + serviceType
    case Memcached => "memcached:alpine"
    case RabbitMQ => "rabbitmq:4-management-alpine"
    case OpenSearch => "opensearchproject/" + serviceType
    case Blackfire => "blackfire/blackfire:2"
    case Tideways => "ghcr.io/tideways/daemon:latest"
  }

  // Rendering.

  /** The command before any setting is appended. */
  function BaseCommand(kind: Kind): seq<string> {
    if kind.Postgres? then ["postgres"] else if kind.Valkey? then ["valkey-server"] else []
  }

  /** How a setting is written: what it starts with, and what separates key and value. */
  datatype Style = Style(dash: string, separator: char)

  const LONG := Style("--", '=')
  const SHORT := Style("-", ' ')

  function StyleOf(kind: Kind): Style {
    if kind.Memcached? then SHORT else LONG
  }

  function Flag(style: Style, key: string, value: string): string {
    style.dash + key + [style.separator] + value
  }

  function Flags(style: Style, settings: map<string, string>, order: seq<string>): (flags: seq<string>)
    requires forall k | k in order :: k in settings
    ensures |flags| == |order|
  {
    if order == [] then []
    else
      var key := order[|order| - 1];
      Flags(style, settings, order[..|order| - 1]) + [Flag(style, key, settings[key])]
  }

  function Command(kind: Kind, settings: map<string, string>, order: seq<string>): seq<string>
    requires forall k | k in order :: k in settings
  {
    BaseCommand(kind) + Flags(StyleOf(kind), settings, order)
  }

  /** Services that compare commands have one flag per setting in theirs, in some order; the others
      leave theirs to the image. */
  ghost predicate Rendered(kind: Kind, settings: map<string, string>, cmd: seq<string>) {
    if DecisionOf(kind).SameCommand? then
      exists order :: IsOrder(order, settings.Keys) && cmd == Command(kind, settings, order)
    else
      cmd == []
  }

  /** The command is the first words and then exactly one flag for each setting, in some order. */
  ghost predicate OneFlagEach(cmd: seq<string>, first: seq<string>, dash: string, separator: string,
                              settings: map<string, string>) {
    exists order :: IsOrder(order, settings.Keys) && |cmd| == |first| + |order| && first <= cmd
      && forall i | 0 <= i < |order| :: cmd[|first| + i] == dash + order[i] + separator + settings[order[i]]
  }

  /** What every service's command looks like. */
  lemma {:induction false} RenderedMeaning(kind: Kind, settings: map<string, string>, cmd: seq<string>)
    ensures kind.MySQL? || kind.MariaDB? ==>
              (Rendered(kind, settings, cmd) <==> OneFlagEach(cmd, [], "--", "=", settings))
    ensures kind.Postgres? ==>
              (Rendered(kind, settings, cmd) <==> OneFlagEach(cmd, ["postgres"], "--", "=", settings))
    ensures kind.Valkey? ==>
              (Rendered(kind, settings, cmd) <==> OneFlagEach(cmd, ["valkey-server"], "--", "=", settings))
    ensures kind.Memcached? ==>
              (Rendered(kind, settings, cmd) <==> OneFlagEach(cmd, [], "-", " ", settings))
    ensures kind.RabbitMQ? || kind.OpenSearch? || kind.Blackfire? || kind.Tideways? ==>
              (Rendered(kind, settings, cmd) <==> cmd == [])
  {
    hide Command, OneFlagEach;
    forall order | IsOrder(order, settings.Keys)
      ensures cmd == Command(kind, settings, order) <==>
                WrittenInOrder(cmd, BaseCommand(kind), StyleOf(kind), settings, order)
    {
      CommandIsWritten(kind, settings, cmd, order);
    }
    OneFlagEachInOrder(cmd, BaseCommand(kind), StyleOf(kind), settings);
  }

  ghost predicate WrittenInOrder(cmd: seq<string>, first: seq<string>, style: Style, settings: map<string, string>,
                                 order: seq<string>)
    requires forall k | k in order :: k in settings
  {
    && |cmd| == |first| + |order| && first <= cmd
    && forall i | 0 <= i < |order| :: cmd[|first| + i] == Flag(style, order[i], settings[order[i]])
  }

  lemma {:induction false} CommandIsWritten(kind: Kind, settings: map<string, string>, cmd: seq<string>,
                                            order: seq<string>)
    requires IsOrder(order, settings.Keys)
    ensures cmd == Command(kind, settings, order) <==>
              WrittenInOrder(cmd, BaseCommand(kind), StyleOf(kind), settings, order)
  {
    hide Flag, Flags, Distinct;
    var style, n := StyleOf(kind), |BaseCommand(kind)|;
    forall i | 0 <= i < |order| ensures Flags(style, settings, order)[i] == Flag(style, order[i], settings[order[i]]) {
      FlagAt(style, settings, order, i);
    }
    if WrittenInOrder(cmd, BaseCommand(kind), style, settings, order) {
      assert cmd == cmd[..n] + cmd[n..] && cmd[n..] == Flags(style, settings, order);
    }
  }

  lemma OneFlagEachInOrder(cmd: seq<string>, first: seq<string>, style: Style, settings: map<string, string>)
    ensures OneFlagEach(cmd, first, style.dash, [style.separator], settings) <==>
              exists order :: IsOrder(order, settings.Keys) && WrittenInOrder(cmd, first, style, settings, order)
  {
    hide Distinct;
    if order :| IsOrder(order, settings.Keys) && WrittenInOrder(cmd, first, style, settings, order) {
      assert forall i | 0 <= i < |order| ::
               cmd[|first| + i] == style.dash + order[i] + [style.separator] + settings[order[i]];
    }
    if OneFlagEach(cmd, first, style.dash, [style.separator], settings) {
      var order :| IsOrder(order, settings.Keys) && |cmd| == |first| + |order| && first <= cmd
        && forall i | 0 <= i < |order| ::
             cmd[|first| + i] == style.dash + order[i] + [style.separator] + settings[order[i]];
      assert WrittenInOrder(cmd, first, style, settings, order);
    }
  }

  lemma OneMoreFlag(kind: Kind, settings: map<string, string>, order: seq<string>, key: string)
    requires key in settings && forall k | k in order :: k in settings
    ensures forall k | k in order + [key] :: k in settings
    ensures Command(kind, settings, order + [key])
         == Command(kind, settings, order) + [Flag(StyleOf(kind), key, settings[key])]
  {
    hide Flag;
    var style := StyleOf(kind);
    assert (order + [key])[..|order|] == order;
    assert Flags(style, settings, order + [key]) == Flags(style, settings, order) + [Flag(style, key, settings[key])];
  }

  lemma NoFlags(kind: Kind, settings: map<string, string>)
    ensures Command(kind, settings, []) == BaseCommand(kind)
  {
  }

  /** Appends one flag per setting, visiting the settings in an order Go leaves open. */
  method AppendSettings(kind: Kind, settings: map<string, string>) returns (cmd: seq<string>)
    requires DecisionOf(kind).SameCommand?
    ensures Rendered(kind, settings, cmd)
  {
    hide IsOrder, Flag, Command, BaseCommand;
    cmd := BaseCommand(kind);
    ghost var order := [];
    var left := settings.Keys;
    NothingVisited(left);
    NoFlags(kind, settings);
    while left != {}
      invariant left <= settings.Keys
      invariant IsOrder(order, settings.Keys - left) && forall k | k in order :: k in settings
      invariant cmd == Command(kind, settings, order)
      decreases |left|
    {
      var key :| key in left;
      OneMoreVisited(order, settings.Keys, left, key);
      OneMoreFlag(kind, settings, order, key);
      cmd := cmd + [Flag(StyleOf(kind), key, settings[key])];
      order := order + [key];
      left := left - {key};
    }
    NothingVisited(settings.Keys);
  }

  method RenderCommand(kind: Kind, settings: map<string, string>) returns (cmd: seq<string>)
    ensures Rendered(kind, settings, cmd)
  {
    if DecisionOf(kind).SameCommand? {
      cmd := AppendSettings(kind, settings);
    } else {
      cmd := [];
    }
  }

  // Keeping.

  /** What inspecting a container reports: Docker fills an empty command with the image's own. */
  function Recorded(cmd: seq<string>, imageDefault: seq<string>): seq<string> {
    if cmd == [] then imageDefault else cmd
  }

  /** The command compared with the new one; only MySQL drops a leading `mysqld` first. */
  function Compared(kind: Kind, existing: seq<string>): seq<string> {
    if kind.MySQL? && existing != [] && existing[0] == "mysqld" then existing[1..] else existing
  }

  predicate Keeps(kind: Kind, existing: seq<string>, wanted: seq<string>) {
    Compared(kind, existing) == wanted
  }

  /** No word of the image's own command looks like a setting. */
  predicate PlainDefault(style: Style, imageDefault: seq<string>) {
    forall i | 0 <= i < |imageDefault| :: !HasPrefix(imageDefault[i], style.dash)
  }

  /** The settings a command line carries. */
  function ReadBack(style: Style, cmd: seq<string>): map<string, string> {
    if cmd == [] then map[]
    else
      var before, last := ReadBack(style, cmd[..|cmd| - 1]), cmd[|cmd| - 1];
      if !HasPrefix(last, style.dash) then before
      else match SplitFirst(last[|style.dash|..], style.separator)
        case None => before
        case Some((key, value)) => before[key := value]
  }

  lemma MySQLServerKeyIsPlain(key: string)
    requires MySQLServerKey(key)
    ensures '=' !in key
  {
  }

  lemma MySQLStorageKeyIsPlain(key: string)
    requires MySQLStorageKey(key)
    ensures '=' !in key
  {
  }

  lemma PostgresMemoryKeyIsPlain(key: string)
    requires PostgresMemoryKey(key)
    ensures '=' !in key
  {
  }

  lemma PostgresPlannerKeyIsPlain(key: string)
    requires PostgresPlannerKey(key)
    ensures '=' !in key
  {
  }

  lemma PostgresProcessKeyIsPlain(key: string)
    requires PostgresProcessKey(key)
    ensures '=' !in key
  {
  }

  /** No key a database accepts holds an equals sign, so a rendered flag can be read back. */
  lemma SupportedKeysArePlain(kind: Kind, key: string)
    requires SupportedKey(kind, key)
    ensures '=' !in key
  {
    if MySQLServerKey(key) { MySQLServerKeyIsPlain(key); }
    else if MySQLStorageKey(key) { MySQLStorageKeyIsPlain(key); }
    else if PostgresMemoryKey(key) { PostgresMemoryKeyIsPlain(key); }
    else if PostgresPlannerKey(key) { PostgresPlannerKeyIsPlain(key); }
    else { PostgresProcessKeyIsPlain(key); }
  }

  predicate PlainKeys(style: Style, settings: map<string, string>) {
    forall key | key in settings :: style.separator !in key
  }

  lemma ValidatedIsPlain(kind: Kind, settings: map<string, string>)
    requires IsDatabase(kind) && Validated(kind, settings)
    ensures StyleOf(kind) == LONG && PlainKeys(LONG, settings)
  {
    forall key | key in settings ensures '=' !in key {
      SupportedKeysArePlain(kind, key);
    }
  }

  lemma {:induction false} FlagReadsBack(style: Style, key: string, value: string)
    requires style.separator !in key
    ensures HasPrefix(Flag(style, key, value), style.dash)
    ensures SplitFirst(Flag(style, key, value)[|style.dash|..], style.separator) == Some((key, value))
  {
    assert Flag(style, key, value)[|style.dash|..] == key + [style.separator] + value;
    SplitJoined(key, value, style.separator);
  }

  lemma {:induction false} AppendedFlagReadsBack(style: Style, cmd: seq<string>, flag: string, key: string,
                                                 value: string)
    requires style.separator !in key && flag == Flag(style, key, value)
    ensures ReadBack(style, cmd + [flag]) == ReadBack(style, cmd)[key := value]
  {
    assert (cmd + [flag])[..|cmd|] == cmd;
    FlagReadsBack(style, key, value);
  }

  lemma {:induction false} PlainReadsBackEmpty(style: Style, cmd: seq<string>)
    requires PlainDefault(style, cmd)
    ensures ReadBack(style, cmd) == map[]
  {
    if cmd != [] {
      PlainReadsBackEmpty(style, cmd[..|cmd| - 1]);
    }
  }

  /** Rendering loses nothing, whichever order the settings were visited in. */
  lemma {:induction false} RenderingReadsBack(style: Style, base: seq<string>, settings: map<string, string>,
                                              order: seq<string>)
    requires PlainDefault(style, base) && PlainKeys(style, settings)
    requires forall k | k in order :: k in settings
    ensures ReadBack(style, base + Flags(style, settings, order)) == map k | k in order :: settings[k]
  {
    if order == [] {
      assert base + [] == base;
      PlainReadsBackEmpty(style, base);
    } else {
      var init, key := order[..|order| - 1], order[|order| - 1];
      var flag := Flag(style, key, settings[key]);
      assert order == init + [key];
      assert base + Flags(style, settings, order) == (base + Flags(style, settings, init)) + [flag];
      RenderingReadsBack(style, base, settings, init);
      AppendedFlagReadsBack(style, base + Flags(style, settings, init), flag, key, settings[key]);
    }
  }

  lemma {:induction false} BaseIsPlain(kind: Kind)
    ensures PlainDefault(StyleOf(kind), BaseCommand(kind))
  {
    assert !HasPrefix("postgres", "--") by { assert "postgres"[0] != "--"[0]; }
    assert !HasPrefix("valkey-server", "--") by { assert "valkey-server"[0] != "--"[0]; }
  }

  lemma {:induction false} CommandReadsBack(kind: Kind, settings: map<string, string>, order: seq<string>)
    requires PlainKeys(StyleOf(kind), settings) && IsOrder(order, settings.Keys)
    ensures ReadBack(StyleOf(kind), Command(kind, settings, order)) == settings
  {
    BaseIsPlain(kind);
    RenderingReadsBack(StyleOf(kind), BaseCommand(kind), settings, order);
    assert (map k | k in order :: settings[k]) == settings;
  }

  lemma {:induction false} DroppingTheFirst(style: Style, cmd: seq<string>)
    requires cmd != [] && !HasPrefix(cmd[0], style.dash)
    ensures ReadBack(style, cmd[1..]) == ReadBack(style, cmd)
  {
    if |cmd| > 1 {
      assert cmd[..|cmd| - 1][1..] == cmd[1..][..|cmd| - 2];
      DroppingTheFirst(style, cmd[..|cmd| - 1]);
    }
  }

  lemma {:induction false} ComparedReadsBack(kind: Kind, existing: seq<string>)
    ensures ReadBack(StyleOf(kind), Compared(kind, existing)) == ReadBack(StyleOf(kind), existing)
  {
    if kind.MySQL? && existing != [] && existing[0] == "mysqld" {
      assert existing[0][0] == 'm' && "--"[0] == '-';
      DroppingTheFirst(LONG, existing);
    }
  }

  /** Skip soundness: when a redeploy keeps a database container, the settings it was started with are
      the settings asked for now, for all iteration orders on both sides, even when the service
      changed from one database to another in between. */
  lemma {:induction false} KeptContainerHasTheSettings(
      wasKind: Kind, was: map<string, string>, wasOrder: seq<string>, imageDefault: seq<string>,
      nowKind: Kind, now: map<string, string>, nowOrder: seq<string>)
    requires IsDatabase(wasKind) && Validated(wasKind, was) && IsOrder(wasOrder, was.Keys)
    requires IsDatabase(nowKind) && Validated(nowKind, now) && IsOrder(nowOrder, now.Keys)
    requires PlainDefault(LONG, imageDefault)
    requires Keeps(nowKind, Recorded(Command(wasKind, was, wasOrder), imageDefault), Command(nowKind, now, nowOrder))
    ensures was == now
  {
    hide Command, Flags, Keeps, Validated;
    ValidatedIsPlain(wasKind, was);
    ValidatedIsPlain(nowKind, now);
    KeptReadsBackEqual(wasKind, was, wasOrder, imageDefault, nowKind, now, nowOrder);
  }

  lemma {:induction false} KeptReadsBackEqual(
      wasKind: Kind, was: map<string, string>, wasOrder: seq<string>, imageDefault: seq<string>,
      nowKind: Kind, now: map<string, string>, nowOrder: seq<string>)
    requires StyleOf(wasKind) == StyleOf(nowKind) && PlainDefault(StyleOf(nowKind), imageDefault)
    requires PlainKeys(StyleOf(wasKind), was) && IsOrder(wasOrder, was.Keys)
    requires PlainKeys(StyleOf(nowKind), now) && IsOrder(nowOrder, now.Keys)
    requires Keeps(nowKind, Recorded(Command(wasKind, was, wasOrder), imageDefault), Command(nowKind, now, nowOrder))
    ensures was == now
  {
    hide Command, Flags, Compared;
    var started := Command(wasKind, was, wasOrder);
    CommandReadsBack(wasKind, was, wasOrder);
    CommandReadsBack(nowKind, now, nowOrder);
    if started == [] {
      PlainReadsBackEmpty(StyleOf(nowKind), imageDefault);
    }
    ComparedReadsBack(nowKind, Recorded(started, imageDefault));
  }

  lemma {:induction false} EqualFlagsEqualKeys(style: Style, a: string, x: string, b: string, y: string)
    requires style.separator !in a && style.separator !in b && Flag(style, a, x) == Flag(style, b, y)
    ensures a == b
  {
    FlagReadsBack(style, a, x);
    FlagReadsBack(style, b, y);
  }

  lemma {:induction false} FlagAt(style: Style, settings: map<string, string>, order: seq<string>, i: nat)
    requires i < |order| && forall k | k in order :: k in settings
    ensures Flags(style, settings, order)[i] == Flag(style, order[i], settings[order[i]])
  {
    hide Flag;
    var n := |order| - 1;
    if i < n {
      FlagAt(style, settings, order[..n], i);
    }
  }

  lemma {:induction false} EqualFlagsEqualOrder(style: Style, settings: map<string, string>, a: seq<string>,
                                                b: seq<string>)
    requires PlainKeys(style, settings)
    requires (forall k | k in a :: k in settings) && forall k | k in b :: k in settings
    requires Flags(style, settings, a) == Flags(style, settings, b)
    ensures a == b
  {
    hide Flags, Flag;
    assert |a| == |Flags(style, settings, a)| == |b|;
    forall i | 0 <= i < |a| ensures a[i] == b[i] {
      FlagAt(style, settings, a, i);
      FlagAt(style, settings, b, i);
      EqualFlagsEqualKeys(style, a[i], settings[a[i]], b[i], settings[b[i]]);
    }
  }

  lemma {:induction false} FirstFlag(style: Style, settings: map<string, string>, order: seq<string>)
    requires order != [] && forall k | k in order :: k in settings
    ensures HasPrefix(Flags(style, settings, order)[0], style.dash)
  {
    FlagAt(style, settings, order, 0);
  }

  /** A non-empty rendering never starts with a command word that would be dropped. */
  lemma {:induction false} RenderedCommandIsNotDropped(kind: Kind, settings: map<string, string>, order: seq<string>)
    requires forall k | k in order :: k in settings
    ensures Compared(kind, Command(kind, settings, order)) == Command(kind, settings, order)
  {
    hide Flags;
    if kind.MySQL? && order != [] {
      FirstFlag(LONG, settings, order);
      assert "mysqld"[0] != "--"[0];
    }
  }

  /** Which services drop nothing and start from an empty command: they never keep a container that was
      started without settings, for it shows its image's command. */
  predicate ShowsDefault(kind: Kind) {
    kind.MariaDB? || kind.Memcached?
  }

  /** Exactly when a redeploy by the same service keeps the container: the flags are the same, and for
      MariaDB and Memcached there is one at least. */
  lemma {:induction false} SameFlagsExactlyWhen(
      kind: Kind, was: map<string, string>, wasOrder: seq<string>, imageDefault: seq<string>,
      now: map<string, string>, nowOrder: seq<string>)
    requires DecisionOf(kind).SameCommand? && IsOrder(wasOrder, was.Keys) && IsOrder(nowOrder, now.Keys)
    requires PlainDefault(StyleOf(kind), imageDefault) && imageDefault != []
    requires kind.MySQL? ==> imageDefault == ["mysqld"]
    ensures Keeps(kind, Recorded(Command(kind, was, wasOrder), imageDefault), Command(kind, now, nowOrder))
       <==> Flags(StyleOf(kind), was, wasOrder) == Flags(StyleOf(kind), now, nowOrder)
            && (ShowsDefault(kind) ==> was != map[])
  {
    hide Flags;
    var style, n := StyleOf(kind), |BaseCommand(kind)|;
    var started, wanted := Command(kind, was, wasOrder), Command(kind, now, nowOrder);
    RenderedCommandIsNotDropped(kind, was, wasOrder);
    EmptyOrder(wasOrder, was.Keys);
    assert started[n..] == Flags(style, was, wasOrder) && wanted[n..] == Flags(style, now, nowOrder);
    if started == [] && nowOrder != [] {
      FirstFlag(style, now, nowOrder);
      assert wanted == Flags(style, now, nowOrder);
    }
  }

  /** For a database, whose keys are checked, this means the same settings visited in the same order. */
  lemma {:induction false} KeptExactlyWhen(
      kind: Kind, was: map<string, string>, wasOrder: seq<string>, imageDefault: seq<string>,
      now: map<string, string>, nowOrder: seq<string>)
    requires IsDatabase(kind) && Validated(kind, was) && IsOrder(wasOrder, was.Keys)
    requires Validated(kind, now) && IsOrder(nowOrder, now.Keys)
    requires PlainDefault(LONG, imageDefault) && imageDefault != []
    requires kind.MySQL? ==> imageDefault == ["mysqld"]
    ensures Keeps(kind, Recorded(Command(kind, was, wasOrder), imageDefault), Command(kind, now, nowOrder))
       <==> was == now && wasOrder == nowOrder && (kind.MariaDB? ==> was != map[])
  {
    hide Flags, Command, Keeps, Validated;
    ValidatedIsPlain(kind, was);
    ValidatedIsPlain(kind, now);
    SameFlagsExactlyWhen(kind, was, wasOrder, imageDefault, now, nowOrder);
    if Keeps(kind, Recorded(Command(kind, was, wasOrder), imageDefault), Command(kind, now, nowOrder)) {
      KeptReadsBackEqual(kind, was, wasOrder, imageDefault, kind, now, nowOrder);
      EqualFlagsEqualOrder(LONG, was, wasOrder, nowOrder);
    }
  }
}

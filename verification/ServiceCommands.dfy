/** What a finished start means for the services, their listing, and the removal of one. */
module ServiceCommands {
  import opened Orders
  import opened Text
  import opened Docker
  import opened Frames
  import opened Fleet
  import opened Safety
  import opened Settings
  import opened Ambiguity
  import opened Config
  import opened ServiceStart

  /** Exactly one container per configured service, given at most one before. */
  lemma {:induction false} ExactlyOneEach(a: World, w: World, project: string, services: map<string, Service>,
                                          imageCommand: string -> seq<string>, name: string)
    requires ServicesValidated(services) && AllSettled(a, w, project, services, imageCommand)
    requires name in services && |Slice(a, project, name)| <= 1
    ensures |Slice(w, project, name)| == 1
  {
    var job := JobOf(project, services, name);
    var was, now := Slice(a, project, name), Slice(w, project, name);
    assert IsSettled(a, w, job, imageCommand);
    var s: Stage :| (s.Kept? || s.Started?) && JobOnTrack(a, w, job, imageCommand, s);
    if s.Kept? {
      assert s.found in now.Keys;
    } else {
      OnlyOneKey(was, now, s.gone, s.id);
    }
  }

  /** The settings can be told apart by their flags: databases check their keys, and a service that does
      not compare commands ignores its settings. */
  ghost predicate CanTellSettings(kind: Kind, settings: map<string, string>) {
    DecisionOf(kind).SameCommand? && !IsDatabase(kind) ==> Unambiguous(StyleOf(kind), settings)
  }

  /** A container that may be kept runs the settings asked for now. */
  lemma {:induction false} KeptRunsSettings(c: Container, kind: Kind, service: Service, was: map<string, string>,
                                            cmd: seq<string>, imageCommand: string -> seq<string>)
    requires RunsSettings(c, FamilyOf(kind), was, imageCommand)
    requires PlainDefault(StyleOf(kind), imageCommand(c.image)) && CanTellSettings(kind, service.settings)
    requires KindOf(service.serviceType) == Some(kind) && Settings.Validated(kind, service.settings)
    requires Rendered(kind, service.settings, cmd)
    requires KeepsContainer(kind, c, ServiceImage(kind, service.serviceType), cmd)
    ensures RunsSettings(c, FamilyOf(kind), service.settings, imageCommand)
  {
    hide Command, Keeps, Settings.Validated, KindOf, Distinct, PlainDefault, Unambiguous;
    var wasType :| IsTypeOf(wasType, FamilyOf(kind)) && IsMadeFor(c, wasType, was, imageCommand);
    var wasKind := KindOf(wasType).value;
    var wasCmd :| Rendered(wasKind, was, wasCmd) && c.cmd == Recorded(wasCmd, imageCommand(c.image));
    if DecisionOf(kind).SameCommand? {
      var wasOrder :| IsOrder(wasOrder, was.Keys) && wasCmd == Command(wasKind, was, wasOrder);
      var order :| IsOrder(order, service.settings.Keys) && cmd == Command(kind, service.settings, order);
      if IsDatabase(kind) {
        KeptContainerHasTheSettings(wasKind, was, wasOrder, imageCommand(c.image), kind, service.settings, order);
      } else {
        KeptIsUnambiguous(kind, was, wasOrder, imageCommand(c.image), service.settings, order);
      }
    } else {
      IgnoredSettings(kind, service.settings);
    }
    assert IsMadeFor(c, wasType, service.settings, imageCommand);
  }

  lemma IgnoredSettings(kind: Kind, settings: map<string, string>)
    requires !DecisionOf(kind).SameCommand?
    ensures Settings.Validated(kind, settings) && Rendered(kind, settings, []) && FamilyOf(kind) == kind
  {
  }

  /** After a successful start every container of a configured service, new or kept, was created with
      exactly the configured settings; for Valkey and Memcached if these can be told apart. */
  lemma {:induction false} ConfiguredSettingsRun(a: World, w: World, project: string, services: map<string, Service>,
                                                imageCommand: string -> seq<string>, name: string, id: nat)
    requires ServicesValidated(services) && AllSettled(a, w, project, services, imageCommand)
    requires name in services && |Slice(a, project, name)| <= 1 && id in Slice(w, project, name)
    requires var kind := JobOf(project, services, name).kind;
             && SliceRunsSettings(Slice(a, project, name), FamilyOf(kind), imageCommand)
             && CanTellSettings(kind, services[name].settings)
             && forall image :: PlainDefault(StyleOf(kind), imageCommand(image))
    ensures RunsSettings(Slice(w, project, name)[id], FamilyOf(JobOf(project, services, name).kind),
                         services[name].settings, imageCommand)
  {
    hide Slice, PlainDefault, Rendered, Recorded, KeepsContainer, KindOf, FamilyOf, RunsSettings, CanTellSettings;
    var job := JobOf(project, services, name);
    var was, now := Slice(a, project, name), Slice(w, project, name);
    assert IsSettled(a, w, job, imageCommand);
    var s: Stage :| (s.Kept? || s.Started?) && JobOnTrack(a, w, job, imageCommand, s);
    if s.Kept? {
      OnlyElement(was.Keys, s.found);
      var before :| RunsSettings(was[id], FamilyOf(job.kind), before, imageCommand);
      KeptRunsSettings(was[id], job.kind, job.service, before, s.cmd, imageCommand);
    } else {
      OnlyOneKey(was, now, s.gone, s.id);
      NewRunsSettings(was, now, job.kind, job.service, imageCommand, s);
    }
  }

  /** Success does not mean that a service runs: a kept container is not looked at, so the one container
      of a configured service runs exactly when it was created now or was running before. */
  lemma {:induction false} RunsExactlyWhen(a: World, w: World, project: string, services: map<string, Service>,
                                           imageCommand: string -> seq<string>, name: string, id: nat)
    requires ServicesValidated(services) && AllSettled(a, w, project, services, imageCommand)
    requires name in services && |Slice(a, project, name)| <= 1 && id in Slice(w, project, name)
    ensures Slice(w, project, name)[id].running
       <==> id !in Slice(a, project, name) || Slice(a, project, name)[id].running
  {
    hide Slice, Rendered, Recorded, KeepsContainer, KindOf;
    var job := JobOf(project, services, name);
    var was, now := Slice(a, project, name), Slice(w, project, name);
    assert IsSettled(a, w, job, imageCommand);
    var s: Stage :| (s.Kept? || s.Started?) && JobOnTrack(a, w, job, imageCommand, s);
    if s.Started? {
      OnlyOneKey(was, now, s.gone, s.id);
    }
  }

  predicate HasWantedImage(c: Container, job: Job) {
    c.image == ServiceImage(job.kind, job.service.serviceType)
  }

  /** Nor does it mean that the wanted image runs: only a new container, or one that had it, has it. */
  lemma {:induction false} ImageRunsExactlyWhen(a: World, w: World, project: string, services: map<string, Service>,
                                                imageCommand: string -> seq<string>, name: string, id: nat)
    requires ServicesValidated(services) && AllSettled(a, w, project, services, imageCommand)
    requires name in services && |Slice(a, project, name)| <= 1 && id in Slice(w, project, name)
    ensures HasWantedImage(Slice(w, project, name)[id], JobOf(project, services, name))
       <==> id !in Slice(a, project, name)
            || HasWantedImage(Slice(a, project, name)[id], JobOf(project, services, name))
  {
    hide Slice, Rendered, Recorded, KeepsContainer, KindOf, ServiceImage;
    var job := JobOf(project, services, name);
    var was, now := Slice(a, project, name), Slice(w, project, name);
    assert IsSettled(a, w, job, imageCommand);
    var s: Stage :| (s.Kept? || s.Started?) && JobOnTrack(a, w, job, imageCommand, s);
    if s.Started? {
      OnlyOneKey(was, now, s.gone, s.id);
    }
  }

  /** Some order of the settings makes the service keep the container. */
  ghost predicate MayBeKept(c: Container, job: Job) {
    exists cmd :: Rendered(job.kind, job.service.settings, cmd)
      && KeepsContainer(job.kind, c, ServiceImage(job.kind, job.service.serviceType), cmd)
  }

  /** Seen before the start: every way to succeed leaves the service running exactly when it has no
      stopped container that may be kept. */
  lemma {:induction false} AlwaysRunsExactlyWhen(a: World, job: Job, imageCommand: string -> seq<string>)
    requires |Slice(a, job.project, job.name)| <= 1
    requires KindOf(job.service.serviceType) == Some(job.kind) && Settings.Validated(job.kind, job.service.settings)
    ensures (forall w :: IsSettled(a, w, job, imageCommand) ==> AllRun(Slice(w, job.project, job.name)))
       <==> forall id | id in Slice(a, job.project, job.name) ::
              Slice(a, job.project, job.name)[id].running || !MayBeKept(Slice(a, job.project, job.name)[id], job)
  {
    hide Slice, Rendered, Recorded, KeepsContainer, Settings.Validated, KindOf, ServiceImage;
    var was := Slice(a, job.project, job.name);
    if id :| id in was && !was[id].running && MayBeKept(was[id], job) {
      var cmd :| Rendered(job.kind, job.service.settings, cmd)
        && KeepsContainer(job.kind, was[id], ServiceImage(job.kind, job.service.serviceType), cmd);
      assert JobOnTrack(a, a, job, imageCommand, Kept(id, cmd));
      assert IsSettled(a, a, job, imageCommand) && !AllRun(was);
    } else {
      forall w | IsSettled(a, w, job, imageCommand) ensures AllRun(Slice(w, job.project, job.name)) {
        var s: Stage :| (s.Kept? || s.Started?) && JobOnTrack(a, w, job, imageCommand, s);
        if s.Kept? {
          OnlyElement(was.Keys, s.found);
          assert MayBeKept(was[s.found], job);
        } else {
          OnlyOneKey(was, Slice(w, job.project, job.name), s.gone, s.id);
        }
      }
    }
  }

  ghost predicate AllRun(slice: map<nat, Container>) {
    forall id | id in slice :: slice[id].running
  }

  /** The failing input: a MySQL service without settings whose container a deployment has stopped and
      then failed to remove. The next deployment keeps it stopped and succeeds. */
  lemma {:induction false} StoppedServiceStaysStopped(a: World, project: string, name: string, id: nat,
                                                      imageCommand: string -> seq<string>)
    requires id in Slice(a, project, name) && !Slice(a, project, name)[id].running
    requires Slice(a, project, name)[id].cmd == ["mysqld"]
    ensures IsSettled(a, a, Job(project, name, MySQL, Service("mysql:8.4", map[])), imageCommand)
  {
    hide Slice;
    var job := Job(project, name, MySQL, Service("mysql:8.4", map[]));
    assert IsOrder([], job.service.settings.Keys);
    assert Rendered(MySQL, job.service.settings, []) by { assert [] == Command(MySQL, map[], []); }
    assert JobOnTrack(a, a, job, imageCommand, Kept(id, []));
  }

  // The services one by one.

  /** Which service a type stands for. */
  lemma KindsByType(t: string)
    ensures KindOf(t) == Some(MySQL) <==> t == "mysql:8.0" || t == "mysql:8.4"
    ensures KindOf(t) == Some(MariaDB) <==> t == "mariadb:10.6" || t == "mariadb:10.11" || t == "mariadb:11.4"
    ensures KindOf(t) == Some(Postgres) <==>
              t == "postgres:14" || t == "postgres:15" || t == "postgres:16" || t == "postgres:17"
    ensures KindOf(t) == Some(Valkey) <==> t == "valkey:7.2" || t == "valkey:8.0"
    ensures KindOf(t) == Some(Memcached) <==> t == "memcached:latest"
    ensures KindOf(t) == Some(RabbitMQ) <==> t == "rabbitmq:4"
    ensures KindOf(t) == Some(OpenSearch) <==> t == "opensearch:2.17.1"
    ensures KindOf(t) == Some(Blackfire) <==> t == "blackfire:latest"
    ensures KindOf(t) == Some(Tideways) <==> t == "tideways:latest"
  {
  }

  /** The container was created with the first words and one flag for each setting, or with the command of
      its image when that is nothing at all. */
  ghost predicate WasGiven(c: Container, first: seq<string>, dash: string, separator: string,
                           settings: map<string, string>, imageCommand: string -> seq<string>) {
    exists cmd :: OneFlagEach(cmd, first, dash, separator, settings)
                  && c.cmd == if cmd == [] then imageCommand(c.image) else cmd
  }

  /** The container that a service asks for: its image, and the command it is created with. */
  ghost predicate IsWanted(c: Container, kind: Kind, service: Service, imageCommand: string -> seq<string>) {
    var t, s := service.serviceType, service.settings;
    match kind
    case MySQL | MariaDB => c.image == t && WasGiven(c, [], "--", "=", s, imageCommand)
    case Postgres => c.image == "postgres:alpine" && WasGiven(c, ["postgres"], "--", "=", s, imageCommand)
    case Valkey => c.image == "valkey/" + t && WasGiven(c, ["valkey-server"], "--", "=", s, imageCommand)
    case Memcached => c.image == "memcached:alpine" && WasGiven(c, [], "-", " ", s, imageCommand)
    case RabbitMQ => c.image == "rabbitmq:4-management-alpine" && c.cmd == imageCommand(c.image)
    case OpenSearch => c.image == "opensearchproject/" + t && c.cmd == imageCommand(c.image)
    case Blackfire => c.image == "blackfire/blackfire:2" && c.cmd == imageCommand(c.image)
    case Tideways => c.image == "ghcr.io/tideways/daemon:latest" && c.cmd == imageCommand(c.image)
  }

  /** What a container has to be like to be kept. */
  ghost predicate IsKeepable(c: Container, kind: Kind, service: Service) {
    var t, s := service.serviceType, service.settings;
    match kind
    case MySQL => exists cmd :: OneFlagEach(cmd, [], "--", "=", s) && (c.cmd == cmd || c.cmd == ["mysqld"] + cmd)
    case MariaDB => OneFlagEach(c.cmd, [], "--", "=", s)
    case Postgres => OneFlagEach(c.cmd, ["postgres"], "--", "=", s)
    case Valkey => OneFlagEach(c.cmd, ["valkey-server"], "--", "=", s)
    case Memcached => OneFlagEach(c.cmd, [], "-", " ", s)
    case RabbitMQ => c.image == "rabbitmq:4-management-alpine"
    case OpenSearch => c.image == "opensearchproject/" + t
    case Blackfire | Tideways => true
  }

  lemma {:induction false} MadeForIsWanted(c: Container, service: Service, imageCommand: string -> seq<string>)
    requires IsMadeFor(c, service.serviceType, service.settings, imageCommand)
    ensures IsWanted(c, KindOf(service.serviceType).value, service, imageCommand)
  {
    hide OneFlagEach, Rendered, Settings.Validated, KindOf;
    var kind := KindOf(service.serviceType).value;
    var cmd :| Rendered(kind, service.settings, cmd) && c.cmd == Recorded(cmd, imageCommand(c.image));
    RenderedMeaning(kind, service.settings, cmd);
  }

  /** The decision, by the type of the service: some rendering lets the container be kept exactly when it is
      keepable. */
  lemma {:induction false} KeepableExactlyWhen(c: Container, job: Job)
    requires KindOf(job.service.serviceType) == Some(job.kind)
    ensures MayBeKept(c, job) <==> IsKeepable(c, job.kind, job.service)
  {
    hide OneFlagEach, Rendered, Keeps, KindOf;
    var k, s := job.kind, job.service.settings;
    if k.MySQL? {
      forall cmd ensures Rendered(k, s, cmd) && Keeps(k, c.cmd, cmd)
                    <==> OneFlagEach(cmd, [], "--", "=", s) && (c.cmd == cmd || c.cmd == ["mysqld"] + cmd)
      {
        RenderedMeaning(k, s, cmd);
        if Rendered(k, s, cmd) {
          KeptByMySQL(c.cmd, s, cmd);
        }
      }
    } else if k.MariaDB? || k.Postgres? || k.Valkey? || k.Memcached? {
      forall cmd ensures Keeps(k, c.cmd, cmd) <==> c.cmd == cmd {
        KeptAsItIs(k, c.cmd, cmd);
      }
      RenderedMeaning(k, s, c.cmd);
    } else {
      RenderedMeaning(k, s, []);
    }
  }

  lemma KeptAsItIs(kind: Kind, existing: seq<string>, cmd: seq<string>)
    requires !kind.MySQL?
    ensures Keeps(kind, existing, cmd) <==> existing == cmd
  {
  }

  lemma {:induction false} KeptByMySQL(existing: seq<string>, settings: map<string, string>, cmd: seq<string>)
    requires Rendered(MySQL, settings, cmd)
    ensures Keeps(MySQL, existing, cmd) <==> existing == cmd || existing == ["mysqld"] + cmd
  {
    var order :| IsOrder(order, settings.Keys) && cmd == Command(MySQL, settings, order);
    RenderedCommandIsNotDropped(MySQL, settings, order);
    hide Command;
    if existing != [] && existing[0] == "mysqld" {
      assert existing == ["mysqld"] + existing[1..];
    }
    assert (["mysqld"] + cmd)[1..] == cmd;
  }

  /** After a successful start, for every type of service: a new container is the one wanted and runs, and
      one that was kept is as it was and could be kept. */
  lemma {:induction false} StartedAsWanted(a: World, w: World, project: string, services: map<string, Service>,
                                           imageCommand: string -> seq<string>, name: string, id: nat)
    requires ServicesValidated(services) && AllSettled(a, w, project, services, imageCommand)
    requires name in services && |Slice(a, project, name)| <= 1 && id in Slice(w, project, name)
    ensures var was, now := Slice(a, project, name), Slice(w, project, name);
            var kind := JobOf(project, services, name).kind;
            if id in was then now[id] == was[id] && IsKeepable(was[id], kind, services[name])
            else now[id].running && IsWanted(now[id], kind, services[name], imageCommand)
  {
    hide Slice, Rendered, Recorded, KeepsContainer, KindOf, ServiceImage, IsWanted, IsKeepable, IsMadeFor;
    var job := JobOf(project, services, name);
    var was, now := Slice(a, project, name), Slice(w, project, name);
    assert IsSettled(a, w, job, imageCommand);
    var s: Stage :| (s.Kept? || s.Started?) && JobOnTrack(a, w, job, imageCommand, s);
    if s.Kept? {
      OnlyElement(was.Keys, s.found);
      assert MayBeKept(was[id], job);
      KeepableExactlyWhen(was[id], job);
    } else {
      OnlyOneKey(was, now, s.gone, s.id);
      NewRunsSettings(was, now, job.kind, job.service, imageCommand, s);
      MadeForIsWanted(now[id], job.service, imageCommand);
    }
  }

  /** RabbitMQ and OpenSearch: after a success the container is still there exactly when it had the image
      wanted now. */
  lemma {:induction false} KeptByImageExactlyWhen(a: World, w: World, job: Job, imageCommand: string -> seq<string>,
                                                  id: nat)
    requires job.kind.RabbitMQ? || job.kind.OpenSearch?
    requires IsSettled(a, w, job, imageCommand) && Slice(a, job.project, job.name).Keys == {id}
    ensures id in Slice(w, job.project, job.name)
       <==> HasWantedImage(Slice(a, job.project, job.name)[id], job)
  {
    hide Slice, Rendered, KindOf, ServiceImage;
    var was, now := Slice(a, job.project, job.name), Slice(w, job.project, job.name);
    var s: Stage :| (s.Kept? || s.Started?) && JobOnTrack(a, w, job, imageCommand, s);
    if s.Started? {
      OnlyOneKey(was, now, s.gone, s.id);
    }
  }

  /** Blackfire and Tideways take any container, created for whatever service: a start succeeds exactly by
      leaving it alone. */
  lemma {:induction false} AnyContainerIsKept(a: World, w: World, job: Job, imageCommand: string -> seq<string>)
    requires (job.kind.Blackfire? || job.kind.Tideways?) && KindOf(job.service.serviceType) == Some(job.kind)
    requires Slice(a, job.project, job.name) != map[]
    ensures IsSettled(a, w, job, imageCommand)
       <==> Slice(w, job.project, job.name) == Slice(a, job.project, job.name)
  {
    hide Slice, KindOf, ServiceImage;
    var was, now := Slice(a, job.project, job.name), Slice(w, job.project, job.name);
    IgnoredSettings(job.kind, job.service.settings);
    if now == was {
      var found :| found in was;
      assert JobOnTrack(a, w, job, imageCommand, Kept(found, []));
    }
  }

  /** The same for the image: a database changed to another version keeps the old one if its command may be
      kept. */
  lemma {:induction false} OldImageStays(a: World, project: string, name: string, id: nat,
                                         imageCommand: string -> seq<string>)
    requires id in Slice(a, project, name)
    requires Slice(a, project, name)[id].image == "mysql:8.0" && Slice(a, project, name)[id].cmd == ["mysqld"]
    ensures var job := Job(project, name, MySQL, Service("mysql:8.4", map[]));
            IsSettled(a, a, job, imageCommand) && !HasWantedImage(Slice(a, project, name)[id], job)
  {
    hide Slice;
    var job := Job(project, name, MySQL, Service("mysql:8.4", map[]));
    assert IsOrder([], job.service.settings.Keys);
    assert Rendered(MySQL, job.service.settings, []) by { assert [] == Command(MySQL, map[], []); }
    assert JobOnTrack(a, a, job, imageCommand, Kept(id, []));
    assert "mysql:8.0"[8] != "mysql:8.4"[8];
  }

  // Listing.

  datatype Status = NotDeployed | State(running: bool)

  datatype ServiceInfo = ServiceInfo(status: Status, existing: bool, dangling: bool)

  type ServiceList = map<string, ServiceInfo>

  predicate HasDanglingServices(list: ServiceList) {
    exists name | name in list :: list[name].dangling
  }

  predicate HasNotDeployedServices(list: ServiceList) {
    exists name | name in list :: !list[name].existing
  }

  /** The entry of a service that has containers: the state of one of them. */
  ghost predicate DescribesService(list: ServiceList, w: World, project: string, services: map<string, Service>,
                                   name: string)
    requires name in list
  {
    if Slice(w, project, name) == map[] then list[name] == ServiceInfo(NotDeployed, false, false)
    else exists id :: id in Slice(w, project, name)
                   && list[name] == ServiceInfo(State(w.containers[id].running), true, name !in services)
  }

  /** Exactly the services that are configured or have a container. */
  ghost predicate IsServiceList(list: ServiceList, w: World, project: string, services: map<string, Service>) {
    && (forall name :: name in list <==> name in services || Slice(w, project, name) != map[])
    && (forall name | name in list :: DescribesService(list, w, project, services, name))
  }

  lemma ServiceIsInSlice(w: World, project: string, id: nat)
    requires id in Services(w, project)
    ensures var name := w.containers[id].labels[ServiceLabel];
            id in Slice(w, project, name) && forall other :: id in Slice(w, project, other) ==> other == name
  {
  }

  method ProjectListServices(host: Host, project: string, services: map<string, Service>)
      returns (list: Option<ServiceList>)
    requires host.Valid()
    modifies host`faults
    ensures host.faults == old(host.faults) + if list.Some? then 0 else 1
    ensures list.Some? ==> IsServiceList(list.value, host.w, project, services)
  {
    var listed := host.ContainerList(project, ServiceLabel, None);
    if listed.None? {
      return None;
    }
    var info := DescribeContainers(host.w, project, services);
    var missing := services.Keys;
    while missing != {}
      invariant missing <= services.Keys
      invariant forall name :: name in info <==>
                  (name in services && name !in missing) || Slice(host.w, project, name) != map[]
      invariant forall name | name in info :: DescribesService(info, host.w, project, services, name)
      decreases |missing|
    {
      var name :| name in missing;
      if name !in info {
        info := info[name := ServiceInfo(NotDeployed, false, false)];
      }
      missing := missing - {name};
    }
    list := Some(info);
  }

  lemma ListingHasNames(w: World, project: string)
    ensures forall id | id in Services(w, project) :: id in w.containers && ServiceLabel in w.containers[id].labels
  {
  }

  /** One entry per service that has a container; of several containers the one listed last decides. */
  method DescribeContainers(w: World, project: string, services: map<string, Service>) returns (info: ServiceList)
    ensures forall name :: name in info <==> Slice(w, project, name) != map[]
    ensures forall name | name in info :: DescribesService(info, w, project, services, name)
  {
    hide Slice, Listed;
    info := map[];
    ListingHasNames(w, project);
    var left := Services(w, project);
    while left != {}
      invariant left <= Services(w, project)
      invariant forall name :: name in info ==> Slice(w, project, name) != map[]
      invariant forall id | id in Services(w, project) && id !in left :: w.containers[id].labels[ServiceLabel] in info
      invariant forall name | name in info :: DescribesService(info, w, project, services, name)
      decreases |left|
    {
      var id :| id in left;
      ServiceIsInSlice(w, project, id);
      var name := w.containers[id].labels[ServiceLabel];
      info := info[name := ServiceInfo(State(w.containers[id].running), true, name !in services)];
      left := left - {id};
    }
    forall name | Slice(w, project, name) != map[] ensures name in info {
      var id :| id in Slice(w, project, name);
      FoundIsService(w, project, name);
      ServiceIsInSlice(w, project, id);
    }
  }

  lemma SettledIsDeployed(a: World, w: World, project: string, services: map<string, Service>,
                     imageCommand: string -> seq<string>, name: string)
    requires ServicesValidated(services) && name in services
               && IsSettled(a, w, JobOf(project, services, name), imageCommand)
    ensures Slice(w, project, name) != map[]
  {
    hide Slice;
  }

  /** A listing right after a successful start reports no configured service as not deployed, and a
      dangling one exactly when some container's service is no longer configured. */
  lemma {:induction false} NothingMissingAfterStart(a: World, w: World, project: string, services: map<string, Service>,
                                                   imageCommand: string -> seq<string>, list: ServiceList)
    requires ServicesValidated(services) && AllSettled(a, w, project, services, imageCommand)
    requires DanglingStay(a, w, project, services) && IsServiceList(list, w, project, services)
    ensures !HasNotDeployedServices(list)
    ensures HasDanglingServices(list) <==> exists name :: name !in services && Slice(a, project, name) != map[]
  {
    hide Slice, IsSettled, JobOf, ServicesValidated;
    forall name | name in list ensures list[name].existing && (list[name].dangling <==> name !in services) {
      assert DescribesService(list, w, project, services, name);
      if name in services {
        assert IsSettled(a, w, JobOf(project, services, name), imageCommand);
        SettledIsDeployed(a, w, project, services, imageCommand, name);
      }
    }
    if name :| name !in services && Slice(a, project, name) != map[] {
      assert Slice(w, project, name) != map[];
      assert name in list;
    }
  }

  // Removing a service.

  lemma SliceIsHarmless(w: World, project: string, name: string)
    requires WellFormed(w)
    ensures Slice(w, project, name).Keys <= Services(w, project)
    ensures Harmless(w, project, Slice(w, project, name).Keys, {})
  {
  }

  lemma VolumesAreSafe(a: World, w: World, after: World, project: string)
    requires Safe(a, w, project) && after == w.(volumes := after.volumes)
    ensures Safe(a, after, project)
  {
  }

  /** Docker accepts the kill and the removal of each container, one after the other. */
  ghost predicate CanDelete(w: World, order: seq<nat>)
    decreases |order|
  {
    order == [] ||
      (order[0] in w.containers && w.containers[order[0]].running
       && CanDelete(Removed(SetRunning(w, order[0], false), order[0]), order[1..]))
  }

  /** A service can be removed exactly when all its containers run, in whatever order they are listed. So a
      container that was killed and then could not be removed makes every further attempt fail. */
  lemma {:induction false} CanDeleteExactlyWhen(w: World, project: string, name: string, order: seq<nat>)
    requires IsOrder(order, Slice(w, project, name).Keys)
    ensures CanDelete(w, order) <==> AllRun(Slice(w, project, name))
  {
    FoundIsService(w, project, name);
    CanDeleteEach(w, order);
    var slice := Slice(w, project, name);
    assert forall id | id in slice :: id in order && slice[id] == w.containers[id];
  }

  lemma {:induction false} CanDeleteEach(w: World, order: seq<nat>)
    requires Distinct(order) && forall id | id in order :: id in w.containers
    ensures CanDelete(w, order) <==> forall id | id in order :: w.containers[id].running
    decreases |order|
  {
    if order != [] {
      var after := Removed(SetRunning(w, order[0], false), order[0]);
      forall id | id in order[1..] ensures id in after.containers && after.containers[id] == w.containers[id] {
        assert id != order[0];
      }
      CanDeleteEach(after, order[1..]);
      assert order == [order[0]] + order[1..];
    }
  }

  /** Kills and removes the containers of a service one by one, up to the first error. */
  method DeleteContainers(host: Host, project: string, name: string, ids: set<nat>) returns (ok: bool)
    requires host.Valid() && ids == Slice(host.w, project, name).Keys
    modifies host
    ensures Progress(host, old(host.w), old(host.trace), project, ids, {})
    ensures host.faults >= old(host.faults)
    ensures ok <==> host.faults == old(host.faults) && AllRun(Slice(old(host.w), project, name))
    ensures OnlyService(old(host.w), host.w, project, name) && host.w.volumes == old(host.w).volumes
    ensures ok ==> Slice(host.w, project, name) == map[]
  {
    hide Progress, WellFormed, Slice, OnlyService;
    ghost var a, was := host.w, host.trace;
    ProgressStarts(host, project, ids, {});
    SameContainersOnlyService(a, a, project, name);
    var left := ids;
    while left != {}
      invariant left <= ids && Slice(host.w, project, name) == Slice(a, project, name) - (ids - left)
      invariant forall id | id in ids - left :: Slice(a, project, name)[id].running
      invariant Progress(host, a, was, project, ids, {}) && host.faults == old(host.faults)
      invariant OnlyService(a, host.w, project, name) && host.w.volumes == a.volumes
      decreases |left|
    {
      var id :| id in left;
      assert Slice(a, project, name) - (ids - left) - {id} == Slice(a, project, name) - (ids - (left - {id}));
      var done := DeleteContainer(host, id, project, name, ids, a, was);
      if !done {
        return false;
      }
      left := left - {id};
    }
    ok := true;
  }

  lemma OnlyServiceTwice(a: World, b: World, c: World, project: string, name: string)
    requires OnlyService(a, b, project, name) && OnlyService(b, c, project, name)
    ensures OnlyService(a, c, project, name)
  {
    hide Slice, Listed;
  }

  method DeleteContainer(host: Host, id: nat, project: string, name: string, ghost ids: set<nat>, ghost a: World,
                         ghost was: seq<World>)
      returns (ok: bool)
    requires Progress(host, a, was, project, ids, {}) && OnlyService(a, host.w, project, name)
    requires id in ids && id in Slice(host.w, project, name)
    modifies host
    ensures Progress(host, a, was, project, ids, {})
    ensures host.faults >= old(host.faults)
    ensures ok <==> host.faults == old(host.faults) && Slice(old(host.w), project, name)[id].running
    ensures OnlyService(a, host.w, project, name) && host.w.volumes == old(host.w).volumes
    ensures ok ==> Slice(host.w, project, name) == Slice(old(host.w), project, name) - {id}
  {
    hide WellFormed, Slice, OnlyService, Within;
    ghost var w := host.w;
    FoundIsService(w, project, name);
    RunningOnlyService(w, id, false, project, name);
    ok := host.ContainerKill(id);
    if !ok {
      return;
    }
    StoppedWithin(a, w, id, project, ids, {});
    OnlyServiceTwice(a, w, host.w, project, name);
    w := host.w;
    RemovedOnlyService(w, id, project, name);
    ok := RemoveWithin(host, id, false, a, was, project, ids, {});
    if ok {
      OnlyServiceTwice(a, w, host.w, project, name);
    }
  }

  ghost predicate IsVolumeOf(labels: Labels, project: string, service: string) {
    && ProjectLabel in labels && labels[ProjectLabel] == project
    && ServiceLabel in labels && labels[ServiceLabel] == service
  }

  lemma VolumesOfMeaning(w: World, project: string, service: string, v: string)
    requires v in w.volumes
    ensures v in VolumesOf(w, project, Some(service)) <==> IsVolumeOf(w.volumes[v], project, service)
  {
  }

  /** `ProjectDeleteService`. */
  method ProjectDeleteService(host: Host, project: string, name: string) returns (ok: bool)
    requires host.Valid()
    modifies host
    ensures Secure(host, old(host.w), old(host.trace), project)
    ensures host.faults >= old(host.faults)
    ensures ok <==> host.faults == old(host.faults) && AllRun(Slice(old(host.w), project, name))
    ensures OnlyService(old(host.w), host.w, project, name)
    ensures forall v | v in old(host.w).volumes && !IsVolumeOf(old(host.w).volumes[v], project, name) ::
              v in host.w.volumes && host.w.volumes[v] == old(host.w).volumes[v]
    ensures ok ==> Slice(host.w, project, name) == map[]
                   && forall v | v in host.w.volumes :: !IsVolumeOf(host.w.volumes[v], project, name)
  {
    hide Safe, WellFormed, Slice, OnlyService, Within, Stays;
    ghost var a, was := host.w, host.trace;
    SecureStarts(host, project);
    SameContainersOnlyService(a, a, project, name);
    var listed := host.ContainerList(project, ServiceLabel, Some(name));
    if listed.None? {
      return false;
    }
    ListingIsSlice(a, project, name);
    ok := DeleteContainers(host, project, name, listed.value);
    SliceIsHarmless(a, project, name);
    ProgressIsSecure(host, a, was, project, listed.value, {});
    if !ok {
      return;
    }
    var volumes := host.VolumeList(project, Some(name));
    if volumes.None? {
      return false;
    }
    ghost var w := host.w;
    assert VolumesOf(w, project, Some(name)) == VolumesOf(a, project, Some(name));
    ok := DeleteVolumes(host, project, name, volumes.value, a, was);
    SameContainersOnlyService(w, host.w, project, name);
    OnlyServiceTwice(a, w, host.w, project, name);
    forall v | v in host.w.volumes && ok ensures !IsVolumeOf(host.w.volumes[v], project, name) {
      VolumesOfMeaning(host.w, project, name, v);
    }
    forall v | v in a.volumes && !IsVolumeOf(a.volumes[v], project, name)
      ensures v in host.w.volumes && host.w.volumes[v] == a.volumes[v]
    {
      VolumesOfMeaning(a, project, name, v);
      assert v in a.volumes - volumes.value;
      assert v in host.w.volumes - volumes.value;
      assert (host.w.volumes - volumes.value)[v] == (a.volumes - volumes.value)[v];
    }
  }

  lemma ListingIsSlice(w: World, project: string, name: string)
    ensures Listed(w, project, ServiceLabel, Some(name)) == Slice(w, project, name).Keys
  {
  }

  method DeleteVolumes(host: Host, project: string, name: string, volumes: set<string>, ghost a: World,
                       ghost was: seq<World>)
      returns (ok: bool)
    requires Secure(host, a, was, project) && volumes == VolumesOf(host.w, project, Some(name))
    modifies host
    ensures Secure(host, a, was, project)
    ensures host.faults >= old(host.faults) && (ok <==> host.faults == old(host.faults))
    ensures host.w == old(host.w).(volumes := host.w.volumes)
    ensures host.w.volumes - volumes == old(host.w).volumes - volumes
    ensures ok ==> VolumesOf(host.w, project, Some(name)) == {}
  {
    hide Safe, WellFormed;
    ghost var before := host.w;
    var left := volumes;
    ok := true;
    while left != {}
      invariant left <= volumes && Secure(host, a, was, project) && host.faults == old(host.faults)
      invariant host.w == before.(volumes := host.w.volumes)
      invariant host.w.volumes == before.volumes - (volumes - left)
      decreases |left|
    {
      var v :| v in left;
      ghost var w := host.w;
      ok := host.VolumeRemove(v);
      VolumesAreSafe(a, w, host.w, project);
      if !ok {
        return;
      }
      left := left - {v};
    }
  }
}

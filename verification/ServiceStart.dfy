/** Starting the services of a project: one goroutine per service, any interleaving of their calls. */
module ServiceStart {
  import opened Orders
  import opened Text
  import opened Names
  import opened Docker
  import opened Frames
  import opened Fleet
  import opened Settings
  import opened Config

  /** What an expression can read about a service. */
  type Info = map<string, string>

  function Address(host: string, port: string, before: string, after: string): Info {
    map["host" := host, "port" := port, "url" := before + host + ":" + port + after]
  }

  function Login(username: string, password: string): Info {
    map["username" := username, "password" := password]
  }

  /** What a database tells besides: its login, its name, and its address as Go drivers want it. */
  function Database(host: string, port: string, username: string, password: string): Info {
    Login(username, password)
    + map["database" := "database", "go" := username + ":" + password + "@tcp(" + host + ":" + port + ")/database"]
  }

  function AttachInfo(kind: Kind, name: string): Info {
    match kind
    case MySQL | MariaDB =>
      Address(name, "3306", "mysql://root@", "/database") + Database(name, "3306", "root", "")
    case Postgres =>
      Address(name, "5432", "postgres://user:password@", "/database") + Database(name, "5432", "user", "password")
    case Valkey => Address(name, "6379", "redis://", "")
    case Memcached => Address(name, "11211", "memcached://", "")
    case RabbitMQ => Address(name, "5672", "amqp://", "") + Login("guest", "guest")
    case OpenSearch => Address(name, "9200", "http://", "")
    case Blackfire => map["url" := "tcp://" + name + ":8307"]
    case Tideways => map["url" := "tcp://" + name + ":9135"]
  }

  /** What a service tells fits together: its host and port are those in its addresses, and so are a
      database's login and name. */
  lemma InfoFits(kind: Kind, name: string)
    ensures kind.MySQL? || kind.MariaDB? ==>
              IsAddress(AttachInfo(kind, name), name, "3306", "mysql://root@", "/database")
              && IsDatabaseInfo(AttachInfo(kind, name), "root", "", "database")
    ensures kind.Postgres? ==>
              IsAddress(AttachInfo(kind, name), name, "5432", "postgres://user:password@", "/database")
              && IsDatabaseInfo(AttachInfo(kind, name), "user", "password", "database")
    ensures kind.Valkey? ==> IsAddress(AttachInfo(kind, name), name, "6379", "redis://", "")
    ensures kind.Memcached? ==> IsAddress(AttachInfo(kind, name), name, "11211", "memcached://", "")
    ensures kind.RabbitMQ? ==>
              IsAddress(AttachInfo(kind, name), name, "5672", "amqp://", "")
              && IsLogin(AttachInfo(kind, name), "guest", "guest")
    ensures kind.OpenSearch? ==> IsAddress(AttachInfo(kind, name), name, "9200", "http://", "")
    ensures kind.Blackfire? ==> AttachInfo(kind, name) == map["url" := "tcp://" + name + ":8307"]
    ensures kind.Tideways? ==> AttachInfo(kind, name) == map["url" := "tcp://" + name + ":9135"]
  {
    hide Address, Login, Database, IsAddress, IsLogin, IsDatabaseInfo;
    match kind {
      case MySQL | MariaDB => DatabaseInfoFits(name, "3306", "mysql://root@", "root", "");
      case Postgres => DatabaseInfoFits(name, "5432", "postgres://user:password@", "user", "password");
      case Valkey => AddressFits(name, "6379", "redis://", "");
      case Memcached => AddressFits(name, "11211", "memcached://", "");
      case RabbitMQ => LoginFits(name, "5672", "amqp://", "guest", "guest");
      case OpenSearch => AddressFits(name, "9200", "http://", "");
      case _ =>
    }
  }

  lemma KeysDiffer()
    ensures "host" != "port" && "host" != "url" && "port" != "url" && "username" != "password" && "database" != "go"
    ensures forall k | k in ["username", "password", "database", "go"] :: k != "host" && k != "port" && k != "url"
    ensures "username" != "database" && "username" != "go" && "password" != "database" && "password" != "go"
  {
    assert "username"[0] != "host"[0] && "username"[0] != "port"[0] && "password"[1] != "port"[1];
  }

  lemma AddressFits(host: string, port: string, before: string, after: string)
    ensures IsAddress(Address(host, port, before, after), host, port, before, after)
  {
    KeysDiffer();
  }

  lemma LoginFits(host: string, port: string, before: string, username: string, password: string)
    ensures var info := Address(host, port, before, "") + Login(username, password);
            IsAddress(info, host, port, before, "") && IsLogin(info, username, password)
  {
    KeysDiffer();
  }

  lemma DatabaseInfoFits(host: string, port: string, before: string, username: string, password: string)
    ensures var info := Address(host, port, before, "/database") + Database(host, port, username, password);
            IsAddress(info, host, port, before, "/database") && IsDatabaseInfo(info, username, password, "database")
  {
    KeysDiffer();
    assert ")/database" == ")/" + "database";
  }

  ghost predicate IsAddress(info: Info, host: string, port: string, before: string, after: string) {
    && "host" in info && info["host"] == host && "port" in info && info["port"] == port
    && "url" in info && info["url"] == before + host + ":" + port + after
  }

  ghost predicate IsLogin(info: Info, username: string, password: string) {
    "username" in info && info["username"] == username && "password" in info && info["password"] == password
  }

  ghost predicate IsDatabaseInfo(info: Info, username: string, password: string, database: string) {
    && IsLogin(info, username, password) && "database" in info && info["database"] == database
    && "host" in info && "port" in info && "go" in info
    && info["go"] == username + ":" + password + "@tcp(" + info["host"] + ":" + info["port"] + ")/" + database
  }

  /** `newService` for every configured service: the type is known and the settings are accepted. */
  predicate ServicesValidated(services: map<string, Service>) {
    forall name | name in services ::
      KindOf(services[name].serviceType).Some?
      && Settings.Validated(KindOf(services[name].serviceType).value, services[name].settings)
  }

  function Infos(services: map<string, Service>): map<string, Info>
    requires ServicesValidated(services)
  {
    map name | name in services :: AttachInfo(KindOf(services[name].serviceType).value, name)
  }

  function ServiceLabels(project: string, name: string): Labels {
    BaseLabels(project)[ServiceLabel := name][ComposeService := name]
  }

  predicate HasVolume(kind: Kind) {
    IsDatabase(kind) || kind.RabbitMQ? || kind.OpenSearch?
  }

  function ServiceMounts(project: string, name: string, kind: Kind): map<string, Labels> {
    if HasVolume(kind) then map[Name(project, ServiceVolume(name)) := VolumeLabels(project)[ServiceLabel := name]]
    else map[]
  }

  function ServiceBlueprint(project: string, name: string, kind: Kind, image: string, cmd: seq<string>,
                            env: set<string>): Blueprint {
    Blueprint(Name(project, ServiceContainer(name)), ServiceLabels(project, name), image, cmd, env,
              ServiceMounts(project, name, kind))
  }

  /** Is the existing container kept? Some services compare its command, some its image, and some take
      any container. */
  predicate KeepsContainer(kind: Kind, existing: Container, image: string, cmd: seq<string>) {
    match DecisionOf(kind)
    case SameCommand => Keeps(kind, existing.cmd, cmd)
    case SameImage => existing.image == image
    case Present => true
  }

  /** The containers of one service. */
  function Slice(w: World, project: string, name: string): map<nat, Container> {
    map id | id in w.containers && Carries(w.containers[id], project, ServiceLabel, Some(name)) :: w.containers[id]
  }

  /** The next call of a service's goroutine. `gone` is the container it has removed, `cmd` the command
      it has rendered. */
  datatype Stage =
    | Begun
    | Inspect(found: nat)
    | Stop(found: nat, cmd: seq<string>)
    | Remove(found: nat, cmd: seq<string>)
    | Pull(gone: Option<nat>, cmd: seq<string>)
    | Create(gone: Option<nat>, cmd: seq<string>)
    | Start(gone: Option<nat>, cmd: seq<string>, id: nat)
    | Health(gone: Option<nat>, cmd: seq<string>, id: nat, timeOut: nat)
    | Kept(found: nat, cmd: seq<string>)
    | Started(gone: Option<nat>, cmd: seq<string>, id: nat)
    | Failed

  const HEALTH_TRIES := 300

  function Rank(s: Stage): nat {
    match s
    case Begun => HEALTH_TRIES + 8
    case Inspect(_) => HEALTH_TRIES + 7
    case Stop(_, _) => HEALTH_TRIES + 6
    case Remove(_, _) => HEALTH_TRIES + 5
    case Pull(_, _) => HEALTH_TRIES + 4
    case Create(_, _) => HEALTH_TRIES + 3
    case Start(_, _, _) => HEALTH_TRIES + 2
    case Health(_, _, _, timeOut) => 1 + timeOut
    case _ => 0
  }

  /** The old container of the service has been removed, if there was one. */
  ghost predicate Cleared(was: map<nat, Container>, now: map<nat, Container>, gone: Option<nat>) {
    match gone
    case None => was == map[] && now == map[]
    case Some(id) => id in was && now == was - {id}
  }

  /** A new container with the rendered command was created after that. */
  ghost predicate Replaced(was: map<nat, Container>, now: map<nat, Container>, gone: Option<nat>, id: nat,
                           image: string, recorded: seq<string>) {
    && Cleared(was, now - {id}, gone) && id !in was && id in now
    && now[id].image == image && now[id].cmd == recorded
  }

  /** The command is one the settings may be rendered to, and the container found, if there is one, is not
      kept for it. */
  ghost predicate Recreates(was: map<nat, Container>, found: Option<nat>, kind: Kind, service: Service,
                            cmd: seq<string>) {
    && Rendered(kind, service.settings, cmd)
    && match found
       case None => true
       case Some(id) => id in was && !KeepsContainer(kind, was[id], ServiceImage(kind, service.serviceType), cmd)
  }

  /** One service from the point of view of one goroutine: how its containers have changed since the
      listing, from `was` to `now`. */
  ghost predicate OnTrack(was: map<nat, Container>, now: map<nat, Container>, kind: Kind, service: Service,
                          imageCommand: string -> seq<string>, s: Stage) {
    var image := ServiceImage(kind, service.serviceType);
    match s
    case Begun => now == was
    case Inspect(found) => now == was && found in was
    case Stop(found, cmd) => now == was && found in was && Recreates(was, Some(found), kind, service, cmd)
    case Remove(found, cmd) =>
      found in was && now == was[found := was[found].(running := false)]
      && Recreates(was, Some(found), kind, service, cmd)
    case Pull(gone, cmd) => Cleared(was, now, gone) && Recreates(was, gone, kind, service, cmd)
    case Create(gone, cmd) => Cleared(was, now, gone) && Recreates(was, gone, kind, service, cmd)
    case Start(gone, cmd, id) =>
      Replaced(was, now, gone, id, image, Recorded(cmd, imageCommand(image)))
      && Recreates(was, gone, kind, service, cmd)
    case Health(gone, cmd, id, _) =>
      Replaced(was, now, gone, id, image, Recorded(cmd, imageCommand(image)))
      && Recreates(was, gone, kind, service, cmd) && now[id].running
    case Kept(found, cmd) =>
      now == was && found in was && Rendered(kind, service.settings, cmd)
      && KeepsContainer(kind, was[found], image, cmd)
    case Started(gone, cmd, id) =>
      Replaced(was, now, gone, id, image, Recorded(cmd, imageCommand(image)))
      && Recreates(was, gone, kind, service, cmd) && now[id].running
    case Failed => NoMoreThanOne(was, now) && StaysHonest(was, now, FamilyOf(kind), imageCommand)
  }

  /** The container was created for a service of this type with these settings. */
  ghost predicate IsMadeFor(c: Container, serviceType: string, settings: map<string, string>,
                            imageCommand: string -> seq<string>) {
    match KindOf(serviceType)
    case None => false
    case Some(kind) =>
      && Settings.Validated(kind, settings) && c.image == ServiceImage(kind, serviceType)
      && exists cmd :: Rendered(kind, settings, cmd) && c.cmd == Recorded(cmd, imageCommand(c.image))
  }

  ghost predicate IsTypeOf(serviceType: string, family: Kind) {
    KindOf(serviceType).Some? && FamilyOf(KindOf(serviceType).value) == family
  }

  /** The container was created with these settings, for some service of the family. */
  ghost predicate RunsSettings(c: Container, family: Kind, settings: map<string, string>,
                               imageCommand: string -> seq<string>) {
    exists serviceType :: IsTypeOf(serviceType, family) && IsMadeFor(c, serviceType, settings, imageCommand)
  }

  ghost predicate SliceRunsSettings(slice: map<nat, Container>, family: Kind, imageCommand: string -> seq<string>) {
    forall id | id in slice :: exists settings :: RunsSettings(slice[id], family, settings, imageCommand)
  }

  /** A service all of whose containers were created from settings of the family has only such
      containers again. */
  ghost predicate StaysHonest(was: map<nat, Container>, now: map<nat, Container>, family: Kind,
                              imageCommand: string -> seq<string>) {
    SliceRunsSettings(was, family, imageCommand) ==> SliceRunsSettings(now, family, imageCommand)
  }

  /** Starting and stopping changes nothing about that. */
  lemma SameSettings(c: Container, d: Container, family: Kind, imageCommand: string -> seq<string>)
    requires SameButRunning(c, d)
    ensures (exists s :: RunsSettings(c, family, s, imageCommand)) ==>
              exists s :: RunsSettings(d, family, s, imageCommand)
  {
    hide Rendered, KindOf, FamilyOf;
    if s :| RunsSettings(c, family, s, imageCommand) {
      var serviceType :| IsTypeOf(serviceType, family) && IsMadeFor(c, serviceType, s, imageCommand);
      assert IsMadeFor(d, serviceType, s, imageCommand);
      assert RunsSettings(d, family, s, imageCommand);
    }
  }

  /** Whatever its stage, a goroutine keeps its service honest. */
  lemma TracksHonest(was: map<nat, Container>, now: map<nat, Container>, kind: Kind, service: Service,
                     imageCommand: string -> seq<string>, s: Stage)
    requires OnTrack(was, now, kind, service, imageCommand, s)
    requires KindOf(service.serviceType) == Some(kind) && Settings.Validated(kind, service.settings)
    ensures StaysHonest(was, now, FamilyOf(kind), imageCommand)
  {
    hide Rendered, KeepsContainer, Recorded, KindOf, FamilyOf, Settings.Validated, ServiceImage, RunsSettings;
    var family := FamilyOf(kind);
    if SliceRunsSettings(was, family, imageCommand) && !s.Failed? {
      forall id | id in now ensures exists settings :: RunsSettings(now[id], family, settings, imageCommand) {
        if id in was {
          assert s.Start? || s.Health? || s.Started? ==> id in now - {s.id} && (now - {s.id})[id] == now[id];
          assert SameButRunning(was[id], now[id]);
          SameSettings(was[id], now[id], family, imageCommand);
        } else {
          assert s.Start? || s.Health? || s.Started?;
          assert id !in now - {s.id};
          NewRunsSettings(was, now, kind, service, imageCommand, s);
        }
      }
    }
  }

  /** A new container was created for its service. */
  lemma NewRunsSettings(was: map<nat, Container>, now: map<nat, Container>, kind: Kind, service: Service,
                        imageCommand: string -> seq<string>, s: Stage)
    requires OnTrack(was, now, kind, service, imageCommand, s) && (s.Start? || s.Health? || s.Started?)
    requires KindOf(service.serviceType) == Some(kind) && Settings.Validated(kind, service.settings)
    ensures s.id in now && IsMadeFor(now[s.id], service.serviceType, service.settings, imageCommand)
    ensures RunsSettings(now[s.id], FamilyOf(kind), service.settings, imageCommand)
  {
    hide Rendered, Recorded, KindOf, FamilyOf, Settings.Validated, ServiceImage, Cleared;
    assert IsMadeFor(now[s.id], service.serviceType, service.settings, imageCommand);
    assert IsTypeOf(service.serviceType, FamilyOf(kind));
  }

  /** No goroutine gives a service a second container. */
  ghost predicate NoMoreThanOne(was: map<nat, Container>, now: map<nat, Container>) {
    |was| <= 1 ==> |now| <= 1
  }

  lemma OnlyOneKey(was: map<nat, Container>, now: map<nat, Container>, gone: Option<nat>, id: nat)
    requires Cleared(was, now - {id}, gone) && id in now && |was| <= 1
    ensures now.Keys == {id} && |now| == 1
  {
    if gone.Some? {
      OnlyElement(was.Keys, gone.value);
      assert (now - {id}).Keys == {};
    }
    assert now.Keys == {id};
  }

  /** Whatever its stage, a service that had at most one container has at most one. */
  lemma TracksOne(was: map<nat, Container>, now: map<nat, Container>, kind: Kind, service: Service,
                  imageCommand: string -> seq<string>, s: Stage)
    requires OnTrack(was, now, kind, service, imageCommand, s)
    ensures NoMoreThanOne(was, now)
  {
    if |was| <= 1 {
      if s.Remove? {
        assert now.Keys == was.Keys;
      } else if (s.Pull? || s.Create?) && s.gone.Some? {
        assert |was.Keys - {s.gone.value}| < |was.Keys|;
        assert now.Keys == was.Keys - {s.gone.value};
      } else if s.Start? || s.Health? || s.Started? {
        OnlyOneKey(was, now, s.gone, s.id);
      }
    }
  }

  /** A call for one service: the containers of every other service and every other role stay. */
  ghost predicate OnlyService(a: World, b: World, project: string, name: string) {
    && (forall other | other != name :: Slice(b, project, other) == Slice(a, project, other))
    && RolesStay(a, b, project)
  }

  ghost predicate RolesStay(a: World, b: World, project: string) {
    Apps(b, project) == Apps(a, project) && Workers(b, project) == Workers(a, project)
      && Cronjobs(b, project) == Cronjobs(a, project)
  }

  lemma SameContainersOnlyService(a: World, b: World, project: string, name: string)
    requires b.containers == a.containers
    ensures OnlyService(a, b, project, name) && Slice(b, project, name) == Slice(a, project, name)
  {
  }

  lemma RunningOnlyService(w: World, id: nat, running: bool, project: string, name: string)
    requires id in Slice(w, project, name)
    ensures var after := SetRunning(w, id, running);
            && OnlyService(w, after, project, name)
            && Slice(after, project, name) == Slice(w, project, name)[id := w.containers[id].(running := running)]
  {
    RunningRoles(w, id, running, project);
    forall other | other != name ensures Slice(SetRunning(w, id, running), project, other) == Slice(w, project, other) {
      assert id !in Slice(w, project, other);
    }
  }

  lemma RemovedOnlyService(w: World, id: nat, project: string, name: string)
    requires WellFormed(w) && id in Slice(w, project, name)
    ensures OnlyService(w, Removed(w, id), project, name)
    ensures Slice(Removed(w, id), project, name) == Slice(w, project, name) - {id}
  {
    RemovedRoles(w, id, project);
    assert id !in Apps(w, project) && id !in Workers(w, project) && id !in Cronjobs(w, project);
    forall other | other != name ensures Slice(Removed(w, id), project, other) == Slice(w, project, other) {
      assert id !in Slice(w, project, other);
    }
  }

  lemma ServiceLabelsFit(project: string, name: string)
    ensures var labels := ServiceLabels(project, name);
            && OneRole(labels) && SideLabels(labels, project) && OfProject(labels, project)
            && ServiceLabel in labels && labels[ServiceLabel] == name
            && AppLabel !in labels && WorkerLabel !in labels && CronjobLabel !in labels
  {
  }

  lemma CreatedOnlyService(w: World, b: Blueprint, cmd: seq<string>, project: string, name: string)
    requires WellFormed(w) && b.labels == ServiceLabels(project, name)
    ensures var after := Created(w, b, cmd);
            && OnlyService(w, after, project, name) && w.nextId !in w.containers
            && Slice(after, project, name) == Slice(w, project, name)[w.nextId := after.containers[w.nextId]]
  {
    ServiceLabelsFit(project, name);
    hide ServiceLabels;
    CreatedRoles(w, b, cmd, project);
    assert w.nextId !in w.containers;
    forall other | other != name ensures Slice(Created(w, b, cmd), project, other) == Slice(w, project, other) {
      assert !Carries(Created(w, b, cmd).containers[w.nextId], project, ServiceLabel, Some(other));
    }
  }

  /** The goroutine of one service: what it works on. */
  datatype Job = Job(project: string, name: string, kind: Kind, service: Service)

  ghost predicate JobOnTrack(a: World, w: World, job: Job, imageCommand: string -> seq<string>, s: Stage) {
    && OnTrack(Slice(a, job.project, job.name), Slice(w, job.project, job.name), job.kind, job.service, imageCommand, s)
    && (s.Start? || s.Health? ==> s.id !in a.containers)
    && (s.Create? ==> HasTag(w.images, ServiceImage(job.kind, job.service.serviceType)))
    && KindOf(job.service.serviceType) == Some(job.kind) && Settings.Validated(job.kind, job.service.settings)
  }

  /** A call took the goroutine from one stage to the next. */
  ghost predicate Advances(a: World, before: World, after: World, job: Job, imageCommand: string -> seq<string>,
                           s: Stage, next: Stage) {
    && OnlyService(before, after, job.project, job.name)
    && GrowBy(before.images, after.images, {ServiceImage(job.kind, job.service.serviceType)})
    && JobOnTrack(a, after, job, imageCommand, next)
    && Rank(next) < Rank(s)
  }

  lemma FailureAdvances(a: World, w: World, job: Job, imageCommand: string -> seq<string>, s: Stage)
    requires JobOnTrack(a, w, job, imageCommand, s) && Rank(s) > 0
    ensures Advances(a, w, w, job, imageCommand, s, Failed)
  {
    hide Slice, NoMoreThanOne, StaysHonest, GrowBy, KindOf, FamilyOf, ServiceImage;
    GrowByNothing(w.images, {ServiceImage(job.kind, job.service.serviceType)});
    TracksOne(Slice(a, job.project, job.name), Slice(w, job.project, job.name), job.kind, job.service, imageCommand, s);
    TracksHonest(Slice(a, job.project, job.name), Slice(w, job.project, job.name), job.kind, job.service, imageCommand,
                 s);
    SameContainersOnlyService(w, w, job.project, job.name);
  }

  /** Takes the container of the service out of the listing, whichever comes first. */
  method BeginStage(host: Host, job: Job, listing: map<nat, Container>, ghost a: World) returns (next: Stage)
    requires listing == Listing(a, job.project) && JobOnTrack(a, host.w, job, host.imageCommand, Begun)
    ensures Advances(a, host.w, host.w, job, host.imageCommand, Begun, next) && !next.Failed?
  {
    SameContainersOnlyService(host.w, host.w, job.project, job.name);
    var matching := set id | id in listing && listing[id].labels[ServiceLabel] == job.name;
    assert matching == Slice(a, job.project, job.name).Keys;
    if matching == {} {
      var cmd := RenderCommand(job.kind, job.service.settings);
      next := Pull(None, cmd);
    } else {
      var found :| found in matching;
      next := Inspect(found);
    }
  }

  /** The service containers of the project. */
  function Listing(w: World, project: string): (listing: map<nat, Container>)
    ensures forall id | id in listing :: ServiceLabel in listing[id].labels
  {
    map id | id in Services(w, project) :: w.containers[id]
  }

  method InspectStage(host: Host, job: Job, s: Stage, ghost a: World) returns (next: Stage)
    requires host.Valid() && s.Inspect? && JobOnTrack(a, host.w, job, host.imageCommand, s)
    modifies host`faults
    ensures Advances(a, host.w, host.w, job, host.imageCommand, s, next)
    ensures host.faults >= old(host.faults) && (!next.Failed? <==> host.faults == old(host.faults))
  {
    hide NoMoreThanOne;
    FailureAdvances(a, host.w, job, host.imageCommand, s);
    SameContainersOnlyService(host.w, host.w, job.project, job.name);
    var inspected := host.ContainerInspect(s.found);
    if inspected.None? {
      return Failed;
    }
    assert inspected.value == Slice(host.w, job.project, job.name)[s.found];
    var cmd := RenderCommand(job.kind, job.service.settings);
    var image := ServiceImage(job.kind, job.service.serviceType);
    next := if KeepsContainer(job.kind, inspected.value, image, cmd) then Kept(s.found, cmd) else Stop(s.found, cmd);
  }

  method StopStage(host: Host, job: Job, s: Stage, ghost a: World, ghost was: seq<World>) returns (next: Stage)
    requires Progress(host, a, was, job.project, Services(a, job.project), {})
    requires s.Stop? && JobOnTrack(a, host.w, job, host.imageCommand, s)
    modifies host
    ensures Progress(host, a, was, job.project, Services(a, job.project), {})
    ensures Advances(a, old(host.w), host.w, job, host.imageCommand, s, next)
    ensures host.faults >= old(host.faults) && (!next.Failed? <==> host.faults == old(host.faults))
  {
    hide Progress, WellFormed, Rendered, OnlyService, NoMoreThanOne;
    FailureAdvances(a, host.w, job, host.imageCommand, s);
    SameContainersOnlyService(host.w, host.w, job.project, job.name);
    assert s.found in Slice(a, job.project, job.name) && s.found in Services(a, job.project);
    RunningOnlyService(host.w, s.found, false, job.project, job.name);
    var ok := StopWithin(host, s.found, a, was, job.project, Services(a, job.project), {});
    next := if ok then Remove(s.found, s.cmd) else Failed;
  }

  lemma FoundIsService(w: World, project: string, name: string)
    ensures forall id | id in Slice(w, project, name) ::
              id in w.containers && id in Services(w, project) && Slice(w, project, name)[id] == w.containers[id]
  {
  }

  lemma RemovedClears(was: map<nat, Container>, found: nat, c: Container)
    requires found in was
    ensures Cleared(was, was[found := c] - {found}, Some(found))
  {
    assert was[found := c] - {found} == was - {found};
  }

  method RemoveStage(host: Host, job: Job, s: Stage, ghost a: World, ghost was: seq<World>) returns (next: Stage)
    requires Progress(host, a, was, job.project, Services(a, job.project), {})
    requires s.Remove? && JobOnTrack(a, host.w, job, host.imageCommand, s)
    modifies host
    ensures Progress(host, a, was, job.project, Services(a, job.project), {})
    ensures Advances(a, old(host.w), host.w, job, host.imageCommand, s, next)
    ensures host.faults >= old(host.faults) && (!next.Failed? <==> host.faults == old(host.faults))
  {
    hide Progress, WellFormed, Rendered, OnlyService, NoMoreThanOne, Slice, Listed, Cleared;
    FailureAdvances(a, host.w, job, host.imageCommand, s);
    ProgressIsWellFormed(host, a, was, job.project, Services(a, job.project), {});
    SameContainersOnlyService(host.w, host.w, job.project, job.name);
    FoundIsService(a, job.project, job.name);
    ghost var slice := Slice(a, job.project, job.name);
    RemovedClears(slice, s.found, slice[s.found].(running := false));
    RemovedOnlyService(host.w, s.found, job.project, job.name);
    FoundIsService(host.w, job.project, job.name);
    assert s.found in Slice(host.w, job.project, job.name);
    var ok := RemoveWithin(host, s.found, false, a, was, job.project, Services(a, job.project), {});
    next := if ok then Pull(Some(s.found), s.cmd) else Failed;
  }

  method PullStage(host: Host, job: Job, s: Stage, ghost a: World, ghost was: seq<World>) returns (next: Stage)
    requires Progress(host, a, was, job.project, Services(a, job.project), {})
    requires s.Pull? && JobOnTrack(a, host.w, job, host.imageCommand, s)
    modifies host
    ensures Progress(host, a, was, job.project, Services(a, job.project), {})
    ensures Advances(a, old(host.w), host.w, job, host.imageCommand, s, next)
    ensures host.faults >= old(host.faults) && (!next.Failed? <==> host.faults == old(host.faults))
  {
    hide Progress, WellFormed, Rendered, OnlyService, NoMoreThanOne;
    FailureAdvances(a, host.w, job, host.imageCommand, s);
    ghost var w := host.w;
    var image := ServiceImage(job.kind, job.service.serviceType);
    var ok := PullWithin(host, image, a, was, job.project, Services(a, job.project), {});
    SameContainersOnlyService(w, host.w, job.project, job.name);
    next := if ok then Create(s.gone, s.cmd) else Failed;
  }

  method CreateStage(host: Host, job: Job, s: Stage, ghost a: World, ghost was: seq<World>) returns (next: Stage)
    requires Progress(host, a, was, job.project, Services(a, job.project), {})
    requires s.Create? && JobOnTrack(a, host.w, job, host.imageCommand, s)
    modifies host
    ensures Progress(host, a, was, job.project, Services(a, job.project), {})
    ensures Advances(a, old(host.w), host.w, job, host.imageCommand, s, next)
    ensures host.faults >= old(host.faults) && (!next.Failed? <==> host.faults == old(host.faults))
    ensures next.Start? && HoldsData(job.kind) ==>
              "tanjun_" + job.project + "_" + job.name + "_data" in host.w.volumes
    ensures !HoldsData(job.kind) ==> host.w.volumes == old(host.w).volumes
    ensures forall v | v in old(host.w).volumes :: v in host.w.volumes
  {
    hide Progress, WellFormed, OnTrack, JobOnTrack, Advances, SideLabels, OneRole, ServiceLabels, BaseLabels, Name,
         Slice;
    ghost var w := host.w;
    ProgressIsWellFormed(host, a, was, job.project, Services(a, job.project), {});
    FailureAdvances(a, w, job, host.imageCommand, s);
    var env: set<string> := *;
    var b := ServiceBlueprint(job.project, job.name, job.kind, ServiceImage(job.kind, job.service.serviceType), s.cmd,
                              env);
    ServiceLabelsFit(job.project, job.name);
    ImageIsThere(a, w, job, host.imageCommand, s);
    var id := CreateWithin(host, b, a, was, job.project, Services(a, job.project), {});
    if id.None? {
      return Failed;
    }
    DataVolume(job.project, job.name, job.kind);
    CreationAdvances(a, w, b, job, host.imageCommand, s);
    next := Start(s.gone, s.cmd, id.value);
  }

  lemma ImageIsThere(a: World, w: World, job: Job, imageCommand: string -> seq<string>, s: Stage)
    requires s.Create? && JobOnTrack(a, w, job, imageCommand, s)
    ensures HasTag(w.images, ServiceImage(job.kind, job.service.serviceType))
  {
  }

  /** The services that keep data. */
  ghost predicate HoldsData(kind: Kind) {
    match kind
    case MySQL | MariaDB | Postgres | RabbitMQ | OpenSearch => true
    case Valkey | Memcached | Blackfire | Tideways => false
  }

  lemma DataVolume(project: string, name: string, kind: Kind)
    ensures ServiceMounts(project, name, kind).Keys
         == if HoldsData(kind) then {"tanjun_" + project + "_" + name + "_data"} else {}
  {
    assert "tanjun_" + project + "_" + (name + "_data") == "tanjun_" + project + "_" + name + "_data";
  }

  lemma CreationAdvances(a: World, w: World, b: Blueprint, job: Job, imageCommand: string -> seq<string>, s: Stage)
    requires WellFormed(w) && a.nextId <= w.nextId && WellFormed(a)
    requires s.Create? && JobOnTrack(a, w, job, imageCommand, s)
    requires b.labels == ServiceLabels(job.project, job.name)
               && b.image == ServiceImage(job.kind, job.service.serviceType)
    ensures var cmd := Recorded(s.cmd, imageCommand(b.image));
            Advances(a, w, Created(w, b, cmd), job, imageCommand, s, Start(s.gone, s.cmd, w.nextId))
  {
    hide OnlyService, Cleared, Replaced, Recorded, Rendered, ServiceLabels;
    var was, now := Slice(a, job.project, job.name), Slice(w, job.project, job.name);
    var cmd := Recorded(s.cmd, imageCommand(b.image));
    CreatedOnlyService(w, b, cmd, job.project, job.name);
    FoundIsService(a, job.project, job.name);
    FoundIsService(w, job.project, job.name);
    CreatedReplaces(was, now, s.gone, w.nextId, Created(w, b, cmd).containers[w.nextId]);
  }

  lemma CreatedReplaces(was: map<nat, Container>, now: map<nat, Container>, gone: Option<nat>, id: nat, c: Container)
    requires Cleared(was, now, gone) && id !in was && id !in now
    ensures Replaced(was, now[id := c], gone, id, c.image, c.cmd)
  {
    assert now[id := c] - {id} == now;
  }

  method StartStage(host: Host, job: Job, s: Stage, ghost a: World, ghost was: seq<World>) returns (next: Stage)
    requires Progress(host, a, was, job.project, Services(a, job.project), {})
    requires s.Start? && JobOnTrack(a, host.w, job, host.imageCommand, s)
    modifies host
    ensures Progress(host, a, was, job.project, Services(a, job.project), {})
    ensures Advances(a, old(host.w), host.w, job, host.imageCommand, s, next)
    ensures host.faults >= old(host.faults) && (!next.Failed? <==> host.faults == old(host.faults))
  {
    hide Progress, WellFormed, OnTrack, Advances, Slice;
    ghost var w := host.w;
    FailureAdvances(a, w, job, host.imageCommand, s);
    CreatedIsThere(a, w, job, host.imageCommand, s);
    var ok := StartWithin(host, s.id, a, was, job.project, Services(a, job.project), {});
    if !ok {
      return Failed;
    }
    StartAdvances(a, w, job, host.imageCommand, s);
    next := Health(s.gone, s.cmd, s.id, HEALTH_TRIES);
  }

  lemma CreatedIsThere(a: World, w: World, job: Job, imageCommand: string -> seq<string>, s: Stage)
    requires (s.Start? || s.Health?) && JobOnTrack(a, w, job, imageCommand, s)
    ensures s.id in w.containers
  {
    FoundIsService(w, job.project, job.name);
  }

  lemma StartAdvances(a: World, w: World, job: Job, imageCommand: string -> seq<string>, s: Stage)
    requires s.Start? && JobOnTrack(a, w, job, imageCommand, s) && s.id in w.containers
    ensures Advances(a, w, SetRunning(w, s.id, true), job, imageCommand, s, Health(s.gone, s.cmd, s.id, HEALTH_TRIES))
  {
    hide OnlyService, Cleared, Recorded, Rendered, Slice;
    var now := Slice(w, job.project, job.name);
    FoundIsService(w, job.project, job.name);
    RunningOnlyService(w, s.id, true, job.project, job.name);
    assert now[s.id := w.containers[s.id].(running := true)] - {s.id} == now - {s.id};
  }

  /** What an inspection reports about the health of a container; NoCheck when there is no health check. */
  datatype Health = NoCheck | Starting | IsHealthy | Unhealthy

  /** A container without a health check counts as healthy. */
  predicate CountsAsHealthy(h: Health) {
    h.NoCheck? || h.IsHealthy?
  }

  method InspectHealth(host: Host, id: nat) returns (health: Option<Health>)
    requires host.Valid() && id in host.w.containers
    modifies host`faults
    ensures host.faults == old(host.faults) + if health.Some? then 0 else 1
  {
    var inspected := host.ContainerInspect(id);
    if inspected.None? {
      return None;
    }
    var reported: Health := *;
    health := Some(reported);
  }

  /** One turn of the health loop: done with the first report that counts as healthy, given up when the
      tries are used up. */
  method HealthStage(host: Host, job: Job, s: Stage, ghost a: World) returns (next: Stage, health: Option<Health>)
    requires host.Valid() && s.Health? && JobOnTrack(a, host.w, job, host.imageCommand, s)
    modifies host`faults
    ensures Advances(a, host.w, host.w, job, host.imageCommand, s, next)
    ensures host.faults >= old(host.faults) && (!next.Failed? <==> host.faults == old(host.faults))
    ensures next.Started? <==> health == Some(NoCheck) || health == Some(IsHealthy)
    ensures next.Failed? <==>
              health.None? || ((health.value.Starting? || health.value.Unhealthy?) && s.timeOut <= 1)
    ensures next.Health? ==> next == s.(timeOut := s.timeOut - 1)
  {
    hide NoMoreThanOne, StaysHonest, GrowBy, Slice;
    FailureAdvances(a, host.w, job, host.imageCommand, s);
    SameContainersOnlyService(host.w, host.w, job.project, job.name);
    CreatedIsThere(a, host.w, job, host.imageCommand, s);
    health := InspectHealth(host, s.id);
    if health.None? {
      return Failed, health;
    }
    if CountsAsHealthy(health.value) {
      return Started(s.gone, s.cmd, s.id), health;
    }
    if s.timeOut <= 1 {
      host.Fail();
      return Failed, health;
    }
    next := Health(s.gone, s.cmd, s.id, s.timeOut - 1);
  }

  /** The references the services are created from. */
  function ServiceImages(services: map<string, Service>): set<string> {
    set name | name in services && KindOf(services[name].serviceType).Some? ::
      ServiceImage(KindOf(services[name].serviceType).value, services[name].serviceType)
  }

  function JobOf(project: string, services: map<string, Service>, name: string): Job
    requires ServicesValidated(services) && name in services
  {
    Job(project, name, KindOf(services[name].serviceType).value, services[name])
  }

  ghost predicate AllOnTrack(a: World, w: World, project: string, services: map<string, Service>,
                             imageCommand: string -> seq<string>, stages: map<string, Stage>)
    requires ServicesValidated(services)
  {
    && stages.Keys == services.Keys
    && forall name | name in services :: JobOnTrack(a, w, JobOf(project, services, name), imageCommand, stages[name])
  }

  /** The containers of services that are no longer configured. */
  ghost predicate DanglingStay(a: World, w: World, project: string, services: map<string, Service>) {
    forall name | name !in services :: Slice(w, project, name) == Slice(a, project, name)
  }

  /** Every configured service that only had containers of its family, created from settings, still does. */
  ghost predicate SlicesStayHonest(a: World, w: World, project: string, services: map<string, Service>,
                                   imageCommand: string -> seq<string>) {
    forall name, kind | name in services && KindOf(services[name].serviceType) == Some(kind) ::
      StaysHonest(Slice(a, project, name), Slice(w, project, name), FamilyOf(kind), imageCommand)
  }

  /** The calls that are left, at most. */
  function Remaining(stages: map<string, Stage>): set<(string, nat)> {
    set name, k | name in stages && 0 <= k < Rank(stages[name]) :: (name, k)
  }

  function Active(stages: map<string, Stage>): set<string> {
    set name | name in stages && Rank(stages[name]) > 0
  }

  lemma RemainingShrinks(stages: map<string, Stage>, name: string, next: Stage)
    requires name in stages && Rank(next) < Rank(stages[name])
    ensures Remaining(stages[name := next]) < Remaining(stages)
  {
    assert (name, Rank(next)) in Remaining(stages) - Remaining(stages[name := next]);
  }

  /** A call for one service leaves all the others on track. */
  lemma OneAdvances(a: World, before: World, after: World, project: string, services: map<string, Service>,
                    imageCommand: string -> seq<string>, stages: map<string, Stage>, name: string, next: Stage)
    requires ServicesValidated(services) && AllOnTrack(a, before, project, services, imageCommand, stages)
    requires DanglingStay(a, before, project, services) && RolesStay(a, before, project)
    requires name in stages
    requires Advances(a, before, after, JobOf(project, services, name), imageCommand, stages[name], next)
    ensures AllOnTrack(a, after, project, services, imageCommand, stages[name := next])
    ensures DanglingStay(a, after, project, services) && RolesStay(a, after, project)
    ensures GrowBy(a.images, before.images, ServiceImages(services)) ==>
              GrowBy(a.images, after.images, ServiceImages(services))
    ensures Remaining(stages[name := next]) < Remaining(stages)
  {
    hide Slice, OnTrack, Remaining, Rank, Listed, GrowBy, KindOf;
    RemainingShrinks(stages, name, next);
    var image := ServiceImage(KindOf(services[name].serviceType).value, services[name].serviceType);
    ByImages(before.images, after.images, {image});
    assert image in ServiceImages(services);
    if GrowBy(a.images, before.images, ServiceImages(services)) {
      GrowByTransitive(a.images, before.images, after.images, ServiceImages(services), {image},
                       ServiceImages(services));
    }
    forall other | other in services
      ensures JobOnTrack(a, after, JobOf(project, services, other), imageCommand, stages[name := next][other])
    {
      if other != name {
        assert Slice(after, project, other) == Slice(before, project, other);
        TrackStays(a, before, after, JobOf(project, services, other), imageCommand, stages[other]);
      }
    }
  }

  lemma TrackStays(a: World, w: World, v: World, job: Job, imageCommand: string -> seq<string>, s: Stage)
    requires JobOnTrack(a, w, job, imageCommand, s) && ImagesGrow(w.images, v.images)
    requires Slice(v, job.project, job.name) == Slice(w, job.project, job.name)
    ensures JobOnTrack(a, v, job, imageCommand, s)
  {
    hide Slice, OnTrack, KindOf, ServiceImage, HasTag, ImagesGrow;
    if s.Create? {
      TagStays(w.images, v.images, ServiceImage(job.kind, job.service.serviceType));
    }
  }

  lemma ByImages(a: Images, b: Images, refs: set<string>)
    requires GrowBy(a, b, refs)
    ensures ImagesGrow(a, b)
  {
  }

  method Advance(host: Host, job: Job, s: Stage, listing: map<nat, Container>, ghost a: World, ghost was: seq<World>)
      returns (next: Stage)
    requires Progress(host, a, was, job.project, Services(a, job.project), {}) && listing == Listing(a, job.project)
    requires Rank(s) > 0 && JobOnTrack(a, host.w, job, host.imageCommand, s)
    modifies host
    ensures Progress(host, a, was, job.project, Services(a, job.project), {})
    ensures Advances(a, old(host.w), host.w, job, host.imageCommand, s, next)
    ensures host.faults >= old(host.faults) && (!next.Failed? <==> host.faults == old(host.faults))
  {
    hide Advances, JobOnTrack, Within, Stays, WellFormed, Listing;
    match s {
      case Begun => next := BeginStage(host, job, listing, a);
      case Inspect(_) => next := InspectStage(host, job, s, a);
      case Stop(_, _) => next := StopStage(host, job, s, a, was);
      case Remove(_, _) => next := RemoveStage(host, job, s, a, was);
      case Pull(_, _) => next := PullStage(host, job, s, a, was);
      case Create(_, _) => next := CreateStage(host, job, s, a, was);
      case Start(_, _, _) => next := StartStage(host, job, s, a, was);
      case Health(_, _, _, _) =>
        var health;
        next, health := HealthStage(host, job, s, a);
    }
  }

  /** What a successful goroutine leaves behind. */
  ghost predicate IsSettled(a: World, w: World, job: Job, imageCommand: string -> seq<string>) {
    exists s: Stage :: (s.Kept? || s.Started?) && JobOnTrack(a, w, job, imageCommand, s)
  }

  ghost predicate AllSettled(a: World, w: World, project: string, services: map<string, Service>,
                        imageCommand: string -> seq<string>)
    requires ServicesValidated(services)
  {
    forall name | name in services :: IsSettled(a, w, JobOf(project, services, name), imageCommand)
  }

  /** `startServices`. */
  method StartServices(host: Host, project: string, services: map<string, Service>)
      returns (ok: bool, info: map<string, Info>)
    requires host.Valid()
    modifies host
    ensures Progress(host, old(host.w), old(host.trace), project, Services(old(host.w), project), {})
    ensures host.faults >= old(host.faults) && (ok ==> host.faults == old(host.faults))
    ensures host.faults == old(host.faults) ==> ok || !ServicesValidated(services)
    ensures RolesStay(old(host.w), host.w, project)
    ensures DanglingStay(old(host.w), host.w, project, services)
    ensures !ServicesValidated(services) ==> !ok && host.w == old(host.w)
    ensures forall name :: NoMoreThanOne(Slice(old(host.w), project, name), Slice(host.w, project, name))
    ensures SlicesStayHonest(old(host.w), host.w, project, services, host.imageCommand)
    ensures GrowBy(old(host.w).images, host.w.images, ServiceImages(services))
    ensures ok ==> info == Infos(services)
    ensures ok ==> AllSettled(old(host.w), host.w, project, services, host.imageCommand)
  {
    hide Progress, DanglingStay, RolesStay, Listing, AllSettled, GrowBy, ServiceImages, SliceRunsSettings;
    ghost var a, was := host.w, host.trace;
    GrowByNothing(a.images, ServiceImages(services));
    ProgressStarts(host, project, Services(a, project), {});
    StartsOnTrack(a, project, services, host.imageCommand);
    info := map[];
    if !ServicesValidated(services) {
      return false, info;
    }
    var listed := host.ContainerList(project, ServiceLabel, None);
    if listed.None? {
      return false, info;
    }
    ok, info := RunAll(host, project, services, Listing(host.w, project), a, was);
  }

  /** All goroutines run to their end, whatever happens to the others. */
  method RunAll(host: Host, project: string, services: map<string, Service>, listing: map<nat, Container>,
                ghost a: World, ghost was: seq<World>)
      returns (ok: bool, info: map<string, Info>)
    requires Progress(host, a, was, project, Services(a, project), {}) && ServicesValidated(services)
    requires a == host.w && listing == Listing(a, project)
    modifies host
    ensures Progress(host, a, was, project, Services(a, project), {})
    ensures host.faults >= old(host.faults) && (ok <==> host.faults == old(host.faults))
    ensures RolesStay(a, host.w, project) && DanglingStay(a, host.w, project, services)
    ensures forall name :: NoMoreThanOne(Slice(a, project, name), Slice(host.w, project, name))
    ensures SlicesStayHonest(a, host.w, project, services, host.imageCommand)
    ensures GrowBy(a.images, host.w.images, ServiceImages(services))
    ensures info == Infos(services)
    ensures ok ==> AllSettled(a, host.w, project, services, host.imageCommand)
  {
    hide Progress, AllOnTrack, DanglingStay, RolesStay, OnTrack, JobOnTrack, Remaining, Listing, IsSettled, JobOf,
         AllSettled, AttachedSoFar, Infos, OnlyService, Active, Slice, Listed, KindOf, AttachInfo, NoMoreThanOne,
         GrowBy, ServiceImages, StaysHonest;
    StartsOnTrack(a, project, services, host.imageCommand);
    info := map[];
    var stages := map name | name in services :: Begun;
    NoneAttached(services);
    GrowByNothing(a.images, ServiceImages(services));
    ok := true;
    while Active(stages) != {}
      invariant Progress(host, a, was, project, Services(a, project), {})
      invariant host.faults >= old(host.faults) && (ok <==> host.faults == old(host.faults))
      invariant AllOnTrack(a, host.w, project, services, host.imageCommand, stages)
      invariant DanglingStay(a, host.w, project, services) && RolesStay(a, host.w, project)
      invariant AttachedSoFar(services, stages, info)
      invariant GrowBy(a.images, host.w.images, ServiceImages(services))
      invariant ok ==> forall name | name in stages :: !stages[name].Failed?
      decreases Remaining(stages)
    {
      var name :| name in Active(stages);
      JobIsOnTrack(a, host.w, project, services, host.imageCommand, stages, name);
      var job := JobOf(project, services, name);
      var s := stages[name];
      ghost var attached := info;
      if s.Begun? {
        info := info[name := AttachInfo(job.kind, name)];
      }
      ghost var before := host.w;
      var next := Advance(host, job, s, listing, a, was);
      OneAdvances(a, before, host.w, project, services, host.imageCommand, stages, name, next);
      OneAttached(services, stages, attached, name, job.kind, next);
      ok := ok && !next.Failed?;
      stages := stages[name := next];
    }
    AllAttached(services, stages, info);
    AllTrackOne(a, host.w, project, services, host.imageCommand, stages);
    if ok {
      AllEnded(a, host.w, project, services, host.imageCommand, stages);
    }
  }

  /** Every goroutine that has begun has attached its information. */
  ghost predicate AttachedSoFar(services: map<string, Service>, stages: map<string, Stage>, info: map<string, Info>)
    requires ServicesValidated(services)
  {
    && stages.Keys == services.Keys && info.Keys <= services.Keys
    && (forall name | name in stages :: name in info || stages[name].Begun?)
    && forall name | name in info :: info[name] == AttachInfo(KindOf(services[name].serviceType).value, name)
  }

  lemma StartsOnTrack(a: World, project: string, services: map<string, Service>, imageCommand: string -> seq<string>)
    ensures DanglingStay(a, a, project, services) && RolesStay(a, a, project)
    ensures SlicesStayHonest(a, a, project, services, imageCommand)
    ensures ServicesValidated(services) ==>
              AllOnTrack(a, a, project, services, imageCommand, map name | name in services :: Begun)
  {
  }

  lemma NoneAttached(services: map<string, Service>)
    requires ServicesValidated(services)
    ensures AttachedSoFar(services, map name | name in services :: Begun, map[])
  {
  }

  lemma OneAttached(services: map<string, Service>, stages: map<string, Stage>, info: map<string, Info>,
                    name: string, kind: Kind, next: Stage)
    requires ServicesValidated(services) && AttachedSoFar(services, stages, info)
    requires name in stages && Rank(next) < Rank(stages[name])
    requires name in services && KindOf(services[name].serviceType) == Some(kind)
    ensures AttachedSoFar(services, stages[name := next],
                          if stages[name].Begun? then info[name := AttachInfo(kind, name)] else info)
  {
  }

  lemma AllAttached(services: map<string, Service>, stages: map<string, Stage>, info: map<string, Info>)
    requires ServicesValidated(services) && AttachedSoFar(services, stages, info) && Active(stages) == {}
    ensures info == Infos(services)
  {
    forall name | name in services ensures name in info {
      assert name !in Active(stages);
    }
  }

  lemma JobIsOnTrack(a: World, w: World, project: string, services: map<string, Service>,
                     imageCommand: string -> seq<string>, stages: map<string, Stage>, name: string)
    requires ServicesValidated(services) && AllOnTrack(a, w, project, services, imageCommand, stages)
    requires name in services || name in Active(stages)
    ensures name in services && name in stages && Rank(stages[name]) >= 0
    ensures name in Active(stages) ==> Rank(stages[name]) > 0
    ensures var job := JobOf(project, services, name);
            && job.project == project && job.name == name && KindOf(services[name].serviceType) == Some(job.kind)
            && JobOnTrack(a, w, job, imageCommand, stages[name])
  {
  }

  lemma AllTrackOne(a: World, w: World, project: string, services: map<string, Service>,
                    imageCommand: string -> seq<string>, stages: map<string, Stage>)
    requires ServicesValidated(services) && AllOnTrack(a, w, project, services, imageCommand, stages)
    requires DanglingStay(a, w, project, services)
    ensures forall name :: NoMoreThanOne(Slice(a, project, name), Slice(w, project, name))
    ensures SlicesStayHonest(a, w, project, services, imageCommand)
  {
    hide Slice, OnTrack, SliceRunsSettings, KindOf, FamilyOf;
    forall name
      ensures NoMoreThanOne(Slice(a, project, name), Slice(w, project, name))
      ensures name in services ==>
                StaysHonest(Slice(a, project, name), Slice(w, project, name),
                            FamilyOf(JobOf(project, services, name).kind), imageCommand)
    {
      if name in services {
        var job := JobOf(project, services, name);
        JobIsOnTrack(a, w, project, services, imageCommand, stages, name);
        TracksOne(Slice(a, project, name), Slice(w, project, name), job.kind, job.service, imageCommand,
                     stages[name]);
        TracksHonest(Slice(a, project, name), Slice(w, project, name), job.kind, job.service, imageCommand,
                     stages[name]);
      }
    }
  }

  lemma AllEnded(a: World, w: World, project: string, services: map<string, Service>,
                 imageCommand: string -> seq<string>, stages: map<string, Stage>)
    requires ServicesValidated(services) && AllOnTrack(a, w, project, services, imageCommand, stages)
    requires Active(stages) == {} && forall name | name in stages :: !stages[name].Failed?
    ensures AllSettled(a, w, project, services, imageCommand)
  {
    forall name | name in services ensures IsSettled(a, w, JobOf(project, services, name), imageCommand) {
      JobIsOnTrack(a, w, project, services, imageCommand, stages, name);
      assert name !in Active(stages);
    }
  }
}

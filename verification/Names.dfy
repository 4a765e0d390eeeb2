/** Project names and every container or volume name derived from them. */
module Names {
  import opened Text

  const MAX_LABEL_LENGTH := 63

  predicate LowerAlnum(c: char) {
    'a' <= c <= 'z' || '0' <= c <= '9'
  }

  /** The pattern `^[a-z0-9]([a-z0-9-]{0,61}[a-z0-9])?$` that project names have to match. */
  predicate ValidProjectName(name: string) {
    && 1 <= |name| <= MAX_LABEL_LENGTH
    && LowerAlnum(name[0]) && LowerAlnum(name[|name| - 1])
    && forall i | 0 <= i < |name| :: LowerAlnum(name[i]) || name[i] == '-'
  }

  ghost predicate LetterOrDigit(c: char) {
    c in "abcdefghijklmnopqrstuvwxyz" || c in "0123456789"
  }

  /** The pattern, read part by part: a letter or digit, and perhaps up to 61 of these or hyphens and another
      letter or digit. */
  ghost predicate MatchesPattern(name: string) {
    && name != "" && LetterOrDigit(name[0])
    && (|name| == 1 || exists middle: string, last: char :: MatchesRest(name[1..], middle, last))
  }

  ghost predicate MatchesRest(rest: string, middle: string, last: char) {
    && rest == middle + [last] && |middle| <= 61 && LetterOrDigit(last)
    && forall c | c in middle :: LetterOrDigit(c) || c == '-'
  }

  lemma {:induction false} AcceptedExactlyWhen(name: string)
    ensures ValidProjectName(name) <==> MatchesPattern(name)
  {
    hide LetterOrDigit, LowerAlnum;
    forall c: char ensures LowerAlnum(c) <==> LetterOrDigit(c) {
      AlnumIsListed(c);
    }
    if ValidProjectName(name) && |name| > 1 {
      assert MatchesRest(name[1..], name[1..|name| - 1], name[|name| - 1]);
    }
    if MatchesPattern(name) && |name| > 1 {
      var middle: string, last: char :| MatchesRest(name[1..], middle, last);
      assert name == [name[0]] + middle + [last];
      forall i | 0 < i < |name| - 1 ensures name[i] in middle {
        assert name[i] == middle[i - 1];
      }
    }
  }

  lemma AlnumIsListed(c: char)
    ensures LowerAlnum(c) <==> LetterOrDigit(c)
  {
    var letters, digits := "abcdefghijklmnopqrstuvwxyz", "0123456789";
    assert forall i | 0 <= i < 26 :: letters[i] as int == 'a' as int + i;
    assert forall i | 0 <= i < 10 :: digits[i] as int == '0' as int + i;
    if 'a' <= c <= 'z' {
      assert letters[c as int - 'a' as int] == c;
    } else if '0' <= c <= '9' {
      assert digits[c as int - '0' as int] == c;
    }
  }

  /** `ContainerPrefix`. */
  function Prefix(project: string): string {
    "tanjun_" + project
  }

  /** Everything on the host that carries a name made from the project name. Random suffixes,
      replica indices, and the names of workers, mounts and services are arbitrary. */
  datatype Resource =
    | AppContainer(random: nat)
    | WorkerContainer(worker: string, replica: nat, random: nat)
    | HookContainer(random: nat)
    | ServiceContainer(service: string)
    | SchedulerContainer(random: nat)
    | AppVolume(mount: string)
    | ChownContainer(mount: string)
    | ServiceVolume(service: string)
    | SchedulerVolume

  /** What follows the prefix and its separator. */
  function Tail(r: Resource): string {
    match r
    case AppContainer(n) => "app_" + Decimal(n)
    case WorkerContainer(w, i, n) => w + "_" + Decimal(i) + "_" + Decimal(n)
    case HookContainer(n) => Decimal(n) + "_hook"
    case ServiceContainer(s) => s
    case SchedulerContainer(n) => Decimal(n)
    case AppVolume(m) => "app_" + m
    case ChownContainer(m) => "app_" + m + "_chown"
    case ServiceVolume(s) => s + "_data"
    case SchedulerVolume => "scheduler_data"
  }

  function Name(project: string, r: Resource): string {
    if r.SchedulerContainer? then Prefix(project) + "-scheduler-" + Tail(r)
    else Prefix(project) + "_" + Tail(r)
  }

  /** Reads the project back out of a name: the text up to the first underscore after the
      `tanjun_` prefix or, when there is none, the text before `-scheduler-` and its number. */
  function ProjectOf(name: string): Option<string> {
    if !HasPrefix(name, "tanjun_") then None
    else
      var rest := name[|"tanjun_"|..];
      match SplitFirst(rest, '_')
      case Some((project, _)) => Some(project)
      case None =>
        var stem := DropTrailingDigits(rest);
        if |stem| < |"-scheduler-"| then None else Some(stem[..|stem| - |"-scheduler-"|])
  }

  lemma {:induction false} UnderscoreSuffix(project: string, tail: string)
    requires ValidProjectName(project)
    ensures ProjectOf(Prefix(project) + "_" + tail) == Some(project)
  {
    var name := Prefix(project) + "_" + tail;
    assert HasPrefix(name, "tanjun_");
    assert name[|"tanjun_"|..] == project + ['_'] + tail;
    SplitJoined(project, tail, '_');
  }

  lemma {:induction false} SchedulerSuffix(project: string, digits: string)
    requires ValidProjectName(project) && AllDigits(digits)
    ensures ProjectOf(Prefix(project) + "-scheduler-" + digits) == Some(project)
  {
    var name := Prefix(project) + "-scheduler-" + digits;
    var stem := project + "-scheduler-";
    assert HasPrefix(name, "tanjun_");
    assert name[|"tanjun_"|..] == stem + digits;
    assert '_' !in stem + digits;
    DropTrailingDigitsStops(stem, digits);
    assert stem[..|stem| - |"-scheduler-"|] == project;
  }

  /** The project can be recovered from any of its names. */
  lemma {:induction false} NameRoundTrip(project: string, r: Resource)
    requires ValidProjectName(project)
    ensures ProjectOf(Name(project, r)) == Some(project)
  {
    if r.SchedulerContainer? {
      SchedulerSuffix(project, Decimal(r.random));
    } else {
      UnderscoreSuffix(project, Tail(r));
    }
  }

  /** Name separation: two accepted project names never produce the same container or volume
      name, whatever the kinds of the two names and the free parts in them. */
  lemma {:induction false} NamesSeparateProjects(p: string, q: string, r: Resource, s: Resource)
    requires ValidProjectName(p) && ValidProjectName(q)
    requires Name(p, r) == Name(q, s)
    ensures p == q
  {
    NameRoundTrip(p, r);
    NameRoundTrip(q, s);
  }

  /** Two containers or volumes of one kind only get one name for the same worker, mount, service, replica and
      random number, so a new random number keeps the name of a new container free. */
  lemma {:induction false} NamesTellApart(p: string, r: Resource, s: Resource)
    requires Name(p, r) == Name(p, s)
    ensures r.AppContainer? && s.AppContainer? ==> r == s
    ensures r.WorkerContainer? && s.WorkerContainer? ==> r == s
    ensures r.HookContainer? && s.HookContainer? ==> r == s
    ensures r.SchedulerContainer? && s.SchedulerContainer? ==> r == s
    ensures (r.ServiceContainer? && s.ServiceContainer?) || (r.ServiceVolume? && s.ServiceVolume?) ==> r == s
    ensures (r.AppVolume? && s.AppVolume?) || (r.ChownContainer? && s.ChownContainer?) ==> r == s
  {
    hide Name;
    if r.AppContainer? && s.AppContainer? {
      AppNamesTellApart(p, r, s);
    } else if r.WorkerContainer? && s.WorkerContainer? {
      WorkerNamesTellApart(p, r, s);
    } else if r.HookContainer? && s.HookContainer? {
      HookNamesTellApart(p, r, s);
    } else if r.SchedulerContainer? && s.SchedulerContainer? {
      SchedulerNamesTellApart(p, r, s);
    } else {
      FreeNamesTellApart(p, r, s);
    }
  }

  lemma {:induction false} FreeNamesTellApart(p: string, r: Resource, s: Resource)
    requires Name(p, r) == Name(p, s)
    ensures (r.ServiceContainer? && s.ServiceContainer?) || (r.ServiceVolume? && s.ServiceVolume?) ==> r == s
    ensures (r.AppVolume? && s.AppVolume?) || (r.ChownContainer? && s.ChownContainer?) ==> r == s
  {
    hide Decimal, Prefix;
    var n := |Prefix(p) + "_"|;
    match (r, s) {
      case (ServiceContainer(a), ServiceContainer(b)) =>
        assert Name(p, r)[n..] == a && Name(p, s)[n..] == b;
      case (ServiceVolume(a), ServiceVolume(b)) =>
        assert Name(p, r)[n..] == a + "_data" && Name(p, s)[n..] == b + "_data";
        assert (a + "_data")[..|a|] == a && (b + "_data")[..|b|] == b;
      case (AppVolume(a), AppVolume(b)) =>
        assert Name(p, r)[n..] == "app_" + a && Name(p, s)[n..] == "app_" + b;
        assert ("app_" + a)[4..] == a && ("app_" + b)[4..] == b;
      case (ChownContainer(a), ChownContainer(b)) =>
        assert Name(p, r)[n..] == "app_" + a + "_chown" && Name(p, s)[n..] == "app_" + b + "_chown";
        assert ("app_" + a + "_chown")[4..4 + |a|] == a && ("app_" + b + "_chown")[4..4 + |b|] == b;
      case _ =>
    }
  }

  lemma {:induction false} AppNamesTellApart(p: string, r: Resource, s: Resource)
    requires Name(p, r) == Name(p, s) && r.AppContainer? && s.AppContainer?
    ensures r == s
  {
    hide Decimal;
    var stem := Prefix(p) + "_" + "app_";
    assert Name(p, r) == stem + Decimal(r.random) && Name(p, s) == stem + Decimal(s.random);
    NumberedTellsApart(stem, r.random, stem, s.random);
  }

  lemma {:induction false} SchedulerNamesTellApart(p: string, r: Resource, s: Resource)
    requires Name(p, r) == Name(p, s) && r.SchedulerContainer? && s.SchedulerContainer?
    ensures r == s
  {
    hide Decimal;
    var stem := Prefix(p) + "-scheduler-";
    NumberedTellsApart(stem, r.random, stem, s.random);
  }

  lemma {:induction false} WorkerNamesTellApart(p: string, r: Resource, s: Resource)
    requires Name(p, r) == Name(p, s) && r.WorkerContainer? && s.WorkerContainer?
    ensures r == s
  {
    hide Decimal;
    var a, b := Prefix(p) + "_" + r.worker + "_", Prefix(p) + "_" + s.worker + "_";
    var c, d := a + Decimal(r.replica), b + Decimal(s.replica);
    assert Name(p, r) == (c + "_") + Decimal(r.random) && Name(p, s) == (d + "_") + Decimal(s.random);
    NumberedTellsApart(c + "_", r.random, d + "_", s.random);
    assert c == (c + "_")[..|c|] && d == (d + "_")[..|d|];
    NumberedTellsApart(a, r.replica, b, s.replica);
    assert r.worker == a[|Prefix(p)| + 1..|a| - 1] && s.worker == b[|Prefix(p)| + 1..|b| - 1];
  }

  lemma {:induction false} HookNamesTellApart(p: string, r: Resource, s: Resource)
    requires Name(p, r) == Name(p, s) && r.HookContainer? && s.HookContainer?
    ensures r == s
  {
    hide Decimal;
    var stem := Prefix(p) + "_";
    assert Name(p, r) == stem + Decimal(r.random) + "_hook" && Name(p, s) == stem + Decimal(s.random) + "_hook";
    var n := |Name(p, r)| - |"_hook"|;
    assert Name(p, r)[..n] == stem + Decimal(r.random) && Name(p, s)[..n] == stem + Decimal(s.random);
    NumberedTellsApart(stem, r.random, stem, s.random);
  }

  /** Inside one project names may meet: a service called like an application container. */
  lemma NamesMayMeetInsideAProject(p: string, n: nat)
    ensures Name(p, AppContainer(n)) == Name(p, ServiceContainer("app_" + Decimal(n)))
  {
  }
}

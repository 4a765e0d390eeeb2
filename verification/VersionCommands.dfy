/** The version commands against the host: list, drain, and choosing what to deploy. */
module VersionCommands {
  import opened Orders
  import opened Text
  import opened Docker
  import opened Versions

  datatype Outcome<+T> = Ok(value: T) | Failed | Crashed

  /** Some application container of the project runs this version. */
  ghost predicate CurrentOf(w: World, project: string, current: string) {
    exists id :: id in Apps(w, project) && VersionPart(w.containers[id].image) == Some(current)
  }

  /** Reads the version off the first application container Docker lists. */
  method CurrentlyActive(host: Host, project: string) returns (r: Outcome<string>)
    requires host.Valid()
    modifies host`faults
    ensures r.Ok? ==> CurrentOf(host.w, project, r.value) && host.faults == old(host.faults)
    ensures r.Failed? ==> host.faults > old(host.faults) || Apps(host.w, project) == {}
    ensures r.Crashed? ==> exists id :: id in Apps(host.w, project) && ':' !in host.w.containers[id].image
    ensures host.faults >= old(host.faults)
  {
    var listed := host.ContainerList(project, AppLabel, Some("true"));
    if listed.None? || listed.value == {} {
      return Failed;
    }
    var first :| first in listed.value;
    match VersionPart(host.w.containers[first].image) {
      case None => r := Crashed;
      case Some(version) => r := Ok(version);
    }
  }

  ghost predicate Describes(images: Images, repo: string, order: seq<nat>, current: string, versions: seq<Version>) {
    |versions| == |order| && forall i | 0 <= i < |order| ::
      && order[i] in images && Matching(images[order[i]].tags, repo) != []
      && versions[i] == Describe(images[order[i]], repo, current)
  }

  method AliasNames(tags: seq<string>, repo: string) returns (aliases: seq<string>)
    requires tags != []
    ensures aliases == TagNames(tags, repo)[1..]
  {
    hide TagNames, TagName;
    aliases := [];
    for index := 0 to |tags|
      invariant index == 0 ==> aliases == []
      invariant index > 0 ==> AreAliases(aliases, tags[..index], repo)
    {
      AliasesGrow(aliases, tags, repo, index);
      if index > 0 {
        aliases := aliases + [TagName(tags[index], repo)];
      }
    }
    assert tags[..|tags|] == tags;
  }

  ghost predicate AreAliases(aliases: seq<string>, tags: seq<string>, repo: string) {
    TagNames(tags, repo) != [] && aliases == TagNames(tags, repo)[1..]
  }

  lemma AliasesGrow(aliases: seq<string>, tags: seq<string>, repo: string, index: nat)
    requires index < |tags| && (if index == 0 then aliases == [] else AreAliases(aliases, tags[..index], repo))
    ensures AreAliases(if index == 0 then [] else aliases + [TagName(tags[index], repo)], tags[..index + 1], repo)
  {
    TagNamesGrow(tags, repo, index);
  }

  lemma {:induction false} TagNamesGrow(tags: seq<string>, repo: string, index: nat)
    requires index < |tags|
    ensures TagNames(tags[..index + 1], repo) == TagNames(tags[..index], repo) + [TagName(tags[index], repo)]
  {
    hide TagName;
    if index > 0 {
      assert tags[..index + 1][1..] == tags[1..][..index] && tags[..index][1..] == tags[1..][..index - 1];
      TagNamesGrow(tags[1..], repo, index - 1);
    } else {
      assert tags[..1][1..] == [];
    }
  }

  /** Inserting a version in front of all older ones keeps the list described and sorted. */
  lemma InsertedInPlace(images: Images, repo: string, current: string, order: seq<nat>, sorted: seq<Version>,
                        id: nat, version: Version, at: nat)
    requires Describes(images, repo, order, current, sorted) && Describes(images, repo, [id], current, [version])
    requires NewestFirst(images, order) && at <= |order|
    requires at > 0 ==> sorted[at - 1].createdAt >= version.createdAt
    requires forall k | at <= k < |sorted| :: sorted[k].createdAt < version.createdAt
    ensures Describes(images, repo, order[..at] + [id] + order[at..], current, sorted[..at] + [version] + sorted[at..])
    ensures NewestFirst(images, order[..at] + [id] + order[at..])
  {
    hide Describe, Matching;
    var longer := order[..at] + [id] + order[at..];
    forall k | 0 <= k < |longer|
      ensures longer[k] == if k < at then order[k] else if k == at then id else order[k - 1]
    {
    }
    CreationTimes(images, repo, order, current, sorted);
    CreationTimes(images, repo, [id], current, [version]);
    assert images[id].created == version.createdAt;
  }

  lemma CreationTimes(images: Images, repo: string, order: seq<nat>, current: string, versions: seq<Version>)
    requires Describes(images, repo, order, current, versions)
    ensures forall k | 0 <= k < |order| :: order[k] in images && images[order[k]].created == versions[k].createdAt
    ensures order != [] ==> images[order[0]].created == versions[0].createdAt
  {
  }

  /** The place behind everything that is not older. */
  method PlaceFor(sorted: seq<Version>, createdAt: int) returns (at: nat)
    ensures at <= |sorted| && (at > 0 ==> sorted[at - 1].createdAt >= createdAt)
    ensures forall k | at <= k < |sorted| :: sorted[k].createdAt < createdAt
  {
    at := |sorted|;
    while at > 0 && sorted[at - 1].createdAt < createdAt
      invariant at <= |sorted|
      invariant forall k | at <= k < |sorted| :: sorted[k].createdAt < createdAt
    {
      at := at - 1;
    }
  }

  /** Puts a list of versions in order of creation, newest first. */
  method SortNewestFirst(ghost images: Images, ghost repo: string, ghost current: string, ghost ids: seq<nat>,
                         versions: seq<Version>)
      returns (sorted: seq<Version>, ghost order: seq<nat>)
    requires Describes(images, repo, ids, current, versions)
    ensures multiset(sorted) == multiset(versions)
    ensures forall i, j | 0 <= i < j < |sorted| :: sorted[i].createdAt >= sorted[j].createdAt
    ensures Describes(images, repo, order, current, sorted)
    ensures multiset(order) == multiset(ids) && NewestFirst(images, order)
  {
    hide NewestFirst, Describe, Matching;
    sorted, order := [], [];
    NothingToSort(images);
    for i := 0 to |versions|
      invariant Describes(images, repo, order, current, sorted)
      invariant multiset(order) == multiset(ids[..i]) && NewestFirst(images, order)
      invariant multiset(sorted) == multiset(versions[..i])
    {
      assert versions[..i + 1] == versions[..i] + [versions[i]];
      var at := PlaceFor(sorted, versions[i].createdAt);
      assert ids[..i + 1] == ids[..i] + [ids[i]];
      Inserted(order, at, ids[i]);
      Inserted(sorted, at, versions[i]);
      InsertedInPlace(images, repo, current, order, sorted, ids[i], versions[i], at);
      sorted := sorted[..at] + [versions[i]] + sorted[at..];
      order := order[..at] + [ids[i]] + order[at..];
    }
    assert ids[..|ids|] == ids && versions[..|versions|] == versions;
    SortedByTime(images, repo, current, order, sorted);
  }

  lemma SortedByTime(images: Images, repo: string, current: string, order: seq<nat>, sorted: seq<Version>)
    requires Describes(images, repo, order, current, sorted) && NewestFirst(images, order)
    ensures forall i, j | 0 <= i < j < |sorted| :: sorted[i].createdAt >= sorted[j].createdAt
  {
    hide Matching;
    CreationTimes(images, repo, order, current, sorted);
  }

  lemma NothingToSort(images: Images)
    ensures NewestFirst(images, [])
  {
  }

  lemma Inserted<T>(s: seq<T>, at: nat, x: T)
    requires at <= |s|
    ensures multiset(s[..at] + [x] + s[at..]) == multiset(s) + multiset{x}
  {
    assert s == s[..at] + s[at..];
  }

  lemma {:induction false} SameMultisetSameOrder(a: seq<nat>, b: seq<nat>, ids: set<nat>)
    requires IsOrder(a, ids) && multiset(a) == multiset(b)
    ensures IsOrder(b, ids)
  {
    forall k | k in ids ensures k in b {
      assert k in multiset(a);
    }
    forall k | k in b ensures k in ids {
      assert k in multiset(b);
    }
    forall i, j | 0 <= i < j < |b| ensures b[i] != b[j] {
      OnceIn(a, b[i]);
      if b[i] == b[j] {
        TwiceIn(b, i, j);
      }
    }
  }

  lemma {:induction false} OnceIn(a: seq<nat>, x: nat)
    requires Distinct(a)
    ensures multiset(a)[x] <= 1
  {
    if a != [] {
      assert a == [a[0]] + a[1..];
      OnceIn(a[1..], x);
    }
  }

  lemma TwiceIn(b: seq<nat>, i: nat, j: nat)
    requires i < j < |b| && b[i] == b[j]
    ensures multiset(b)[b[i]] >= 2
  {
    assert b == b[..j] + b[j..];
    assert b[i] in b[..j] && b[j] in b[j..];
  }

  method DescribeImage(img: Image, repo: string, current: string) returns (version: Version)
    requires Matching(img.tags, repo) != []
    ensures version == Describe(img, repo, current)
  {
    var tags := Matching(img.tags, repo);
    var aliases := AliasNames(tags, repo);
    var imageName := TagName(tags[0], repo);
    var activeVersion := imageName == current || current in aliases;
    assert TagNames(tags, repo) == [imageName] + aliases;
    version := Version(imageName, aliases, img.created, activeVersion);
  }

  method DescribeAll(images: Images, ids: seq<nat>, repo: string, current: string) returns (versions: seq<Version>)
    requires IsOrder(ids, MatchingIds(images, repo))
    ensures Describes(images, repo, ids, current, versions)
  {
    versions := [];
    for i := 0 to |ids|
      invariant |versions| == i
      invariant forall j | 0 <= j < i :: ids[j] in images && Matching(images[ids[j]].tags, repo) != []
                                      && versions[j] == Describe(images[ids[j]], repo, current)
    {
      assert ids[i] in ids;
      var version := DescribeImage(images[ids[i]], repo, current);
      versions := versions + [version];
    }
  }

  method VersionList(host: Host, project: string, repo: string)
      returns (r: Outcome<seq<Version>>, ghost order: seq<nat>, ghost current: string)
    requires host.Valid()
    modifies host`faults
    ensures host.faults >= old(host.faults)
    ensures r.Ok? ==> host.faults == old(host.faults)
    ensures r.Failed? ==> host.faults > old(host.faults) || Apps(host.w, project) == {}
    ensures r.Ok? ==> CurrentOf(host.w, project, current) && IsListing(host.w.images, repo, order)
    ensures r.Ok? ==> Describes(host.w.images, repo, order, current, r.value)
    ensures r.Crashed? ==> exists id :: id in Apps(host.w, project) && ':' !in host.w.containers[id].image
  {
    order, current := [], "";
    var listed := host.ImageList(repo);
    if listed.None? {
      return Failed, order, current;
    }
    var active := CurrentlyActive(host, project);
    if !active.Ok? {
      return if active.Failed? then Failed else Crashed, order, current;
    }
    current := active.value;
    var versions := DescribeAll(host.w.images, listed.value, repo, active.value);
    var sorted;
    sorted, order := SortNewestFirst(host.w.images, repo, current, listed.value, versions);
    SameMultisetSameOrder(listed.value, order, MatchingIds(host.w.images, repo));
    r := Ok(sorted);
  }

  /** Only images changed, and only by losing some of the given references. */
  ghost predicate OnlyPurged(before: World, after: World, doomed: set<string>) {
    exists gone :: gone <= doomed && after == before.(images := Purge(before.images, gone))
  }

  ghost predicate PurgedSince(before: World, trace: seq<World>, from: nat, doomed: set<string>) {
    forall k | from <= k < |trace| :: OnlyPurged(before, trace[k], doomed)
  }

  function References(repo: string, names: seq<string>): set<string> {
    set name | name in names :: Ref(repo, name)
  }

  lemma ReferencesGrow(repo: string, names: seq<string>, k: nat)
    requires k < |names|
    ensures References(repo, names[..k + 1]) == References(repo, names[..k]) + {Ref(repo, names[k])}
    ensures References(repo, names[..k + 1]) <= References(repo, names)
  {
    assert names[..k + 1] == names[..k] + [names[k]];
  }

  lemma {:induction false} VersionReferences(image: Image, repo: string, current: string)
    requires Matching(image.tags, repo) != []
    ensures var v := Describe(image, repo, current);
            References(repo, v.aliases + [v.name]) == set tag | tag in Matching(image.tags, repo)
  {
    var tags, names := Matching(image.tags, repo), TagNames(Matching(image.tags, repo), repo);
    NamesAreReferences(image, repo);
    forall tag | tag in tags ensures tag in References(repo, names[1..] + [names[0]]) {
      var i :| 0 <= i < |tags| && tags[i] == tag;
      assert names[i] in names[1..] + [names[0]] by {
        if i > 0 { assert names[1..][i - 1] == names[i]; }
      }
    }
    forall name | name in names[1..] + [names[0]] ensures Ref(repo, name) in tags {
      assert name in names;
      var i :| 0 <= i < |names| && names[i] == name;
    }
  }

  lemma OnePurgeMore(before: World, gone: set<string>, ref: string, doomed: set<string>)
    requires gone <= doomed && ref in doomed
    ensures Purge(Purge(before.images, gone), {ref}) == Purge(before.images, gone + {ref})
    ensures OnlyPurged(before, before.(images := Purge(before.images, gone)), doomed)
    ensures OnlyPurged(before, before.(images := Purge(before.images, gone + {ref})), doomed)
  {
    PurgeTwice(before.images, gone, {ref});
    assert gone + {ref} <= doomed;
  }

  /** Removes the references one by one and stops at the first error. */
  method RemoveReferences(host: Host, repo: string, names: seq<string>, ghost before: World, ghost gone: set<string>,
                          ghost doomed: set<string>)
      returns (ok: bool, ghost more: set<string>)
    requires host.Valid() && host.w == before.(images := Purge(before.images, gone))
    requires gone + References(repo, names) <= doomed
    modifies host
    ensures host.Valid() && old(host.trace) <= host.trace && host.faults >= old(host.faults)
    ensures ok ==> host.faults == old(host.faults) && more == gone + References(repo, names)
    ensures !ok ==> host.faults > old(host.faults)
    ensures more <= doomed && host.w == before.(images := Purge(before.images, more))
    ensures PurgedSince(before, host.trace, |old(host.trace)|, doomed)
  {
    more, ok := gone, true;
    for k := 0 to |names|
      invariant host.Valid() && old(host.trace) <= host.trace && host.faults == old(host.faults)
      invariant more == gone + References(repo, names[..k])
      invariant host.w == before.(images := Purge(before.images, more))
      invariant PurgedSince(before, host.trace, |old(host.trace)|, doomed)
    {
      ReferencesGrow(repo, names, k);
      OnePurgeMore(before, more, Ref(repo, names[k]), doomed);
      ok := host.ImageRemove(Ref(repo, names[k]));
      if !ok {
        return;
      }
      more := more + {Ref(repo, names[k])};
    }
    assert names[..|names|] == names;
  }

  lemma {:induction false} DoomedGrows(images: Images, repo: string, order: seq<nat>, keep: nat, current: string,
                                       i: nat)
    requires keep <= i < |order| && order[i] in images
    ensures DoomedTags(images, repo, order[..i + 1], keep, current)
         == DoomedTags(images, repo, order[..i], keep, current)
            + if Bears(images[order[i]], repo, current) then {}
              else set tag | tag in Matching(images[order[i]].tags, repo)
    ensures DoomedTags(images, repo, order[..i + 1], keep, current) <= DoomedTags(images, repo, order, keep, current)
  {
    var init, longer := order[..i], order[..i + 1];
    forall j | 0 <= j <= i ensures longer[j] == order[j] && (j < i ==> init[j] == order[j]) {
    }
    var doomed := DoomedTags(images, repo, longer, keep, current);
    forall tag | tag in DoomedTags(images, repo, init, keep, current) ensures tag in doomed {
      var j :| keep <= j < |init| && init[j] in images && tag in Matching(images[init[j]].tags, repo)
               && !Survives(images, repo, init, keep, current, j);
      assert longer[j] in images && !Survives(images, repo, longer, keep, current, j);
    }
    forall tag | tag in Matching(images[order[i]].tags, repo) && !Bears(images[order[i]], repo, current)
      ensures tag in doomed
    {
      assert longer[i] in images && !Survives(images, repo, longer, keep, current, i);
    }
  }

  /** `VersionDrain`. A drain that succeeds removes exactly the doomed references; one that fails has
      removed some of them and nothing else; a negative `keep` crashes once the listing succeeded. */
  method VersionDrain(host: Host, project: string, repo: string, keep: int)
      returns (r: Outcome<()>, ghost order: seq<nat>, ghost current: string, ghost gone: set<string>)
    requires host.Valid()
    modifies host
    ensures host.Valid() && old(host.trace) <= host.trace && host.faults >= old(host.faults)
    ensures host.w == old(host.w).(images := Purge(old(host.w).images, gone))
    ensures gone != {} || r.Ok? ==>
              keep >= 0 && CurrentOf(old(host.w), project, current) && IsListing(old(host.w).images, repo, order)
              && gone <= DoomedTags(old(host.w).images, repo, order, keep, current)
    ensures r.Ok? ==> gone == DoomedTags(old(host.w).images, repo, order, keep, current)
    ensures r.Ok? ==> host.faults == old(host.faults)
    ensures r.Failed? ==> host.faults > old(host.faults) || Apps(old(host.w), project) == {}
    ensures r.Crashed? ==>
              keep < 0 || exists id :: id in Apps(old(host.w), project) && ':' !in old(host.w).containers[id].image
    ensures PurgedSince(old(host.w), host.trace, |old(host.trace)|,
                        if keep < 0 then {} else DoomedTags(old(host.w).images, repo, order, keep, current))
  {
    gone := {};
    ghost var before := host.w;
    PurgeNothing(before.images);
    var listed;
    listed, order, current := VersionList(host, project, repo);
    if !listed.Ok? {
      return if listed.Failed? then Failed else Crashed, order, current, gone;
    }
    var versions := listed.value;
    if |versions| <= keep {
      assert DoomedTags(before.images, repo, order, keep, current) == {};
      return Ok(()), order, current, gone;
    }
    if keep < 0 {
      return Crashed, order, current, gone;
    }
    r, gone := DrainFrom(host, repo, keep, versions, order, current);
  }

  /** The loop over the versions beyond the `keep` newest. */
  method DrainFrom(host: Host, repo: string, keep: nat, versions: seq<Version>, ghost order: seq<nat>,
                   ghost current: string)
      returns (r: Outcome<()>, ghost gone: set<string>)
    requires host.Valid() && keep <= |versions|
    requires Describes(host.w.images, repo, order, current, versions)
    modifies host
    ensures host.Valid() && old(host.trace) <= host.trace && host.faults >= old(host.faults)
    ensures host.w == old(host.w).(images := Purge(old(host.w).images, gone))
    ensures gone <= DoomedTags(old(host.w).images, repo, order, keep, current)
    ensures !r.Crashed? && (r.Ok? ==> gone == DoomedTags(old(host.w).images, repo, order, keep, current))
    ensures if r.Ok? then host.faults == old(host.faults) else host.faults > old(host.faults)
    ensures PurgedSince(old(host.w), host.trace, |old(host.trace)|,
                        DoomedTags(old(host.w).images, repo, order, keep, current))
  {
    gone := {};
    ghost var before, doomed := host.w, DoomedTags(host.w.images, repo, order, keep, current);
    PurgeNothing(before.images);
    assert DoomedTags(before.images, repo, order[..keep], keep, current) == {};
    for i := keep to |versions|
      invariant host.Valid() && old(host.trace) <= host.trace && host.faults == old(host.faults)
      invariant gone == DoomedTags(before.images, repo, order[..i], keep, current) && gone <= doomed
      invariant host.w == before.(images := Purge(before.images, gone))
      invariant PurgedSince(before, host.trace, |old(host.trace)|, doomed)
    {
      DoomedGrows(before.images, repo, order, keep, current, i);
      var version := versions[i];
      if version.active {
        continue;
      }
      VersionReferences(before.images[order[i]], repo, current);
      var ok;
      ghost var middle := host.trace;
      ok, gone := RemoveReferences(host, repo, version.aliases + [version.name], before, gone, doomed);
      PurgedSinceJoins(before, middle, host.trace, |old(host.trace)|, doomed);
      if !ok {
        return Failed, gone;
      }
    }
    assert order[..|versions|] == order;
    r := Ok(());
  }

  lemma PurgedSinceJoins(before: World, middle: seq<World>, trace: seq<World>, from: nat, doomed: set<string>)
    requires middle <= trace && from <= |middle|
    requires PurgedSince(before, middle, from, doomed) && PurgedSince(before, trace, |middle|, doomed)
    ensures PurgedSince(before, trace, from, doomed)
  {
  }

  // Choosing the version to deploy.

  /** The rollback loop over a version list. */
  method SelectRollback(versions: seq<Version>, current: string) returns (target: Option<string>)
    ensures target.Some? ==> exists i, j :: RollbackPair(versions, current, i, j) && versions[j].name == target.value
    ensures target.None? ==> forall i, j :: !RollbackPair(versions, current, i, j)
  {
    var foundCurrent := false;
    ghost var first := 0;
    for k := 0 to |versions|
      invariant foundCurrent ==> first < k && IsCalled(versions[first], current)
      invariant foundCurrent ==> forall m | 0 <= m < first :: !IsCalled(versions[m], current)
      invariant foundCurrent ==> forall m | first < m < k :: IsCalled(versions[m], current)
      invariant !foundCurrent ==> forall m | 0 <= m < k :: !IsCalled(versions[m], current)
    {
      if IsCalled(versions[k], current) {
        if !foundCurrent { first := k; }
        foundCurrent := true;
        continue;
      }
      if foundCurrent {
        assert RollbackPair(versions, current, first, k);
        return Some(versions[k].name);
      }
    }
    target := None;
  }

  /** i is the first version called `current`, j the first one after it that is not. */
  ghost predicate RollbackPair(versions: seq<Version>, current: string, i: int, j: int) {
    && 0 <= i < j < |versions|
    && IsCalled(versions[i], current) && !IsCalled(versions[j], current)
    && (forall m | 0 <= m < i :: !IsCalled(versions[m], current))
    && (forall m | i < m < j :: IsCalled(versions[m], current))
  }

  lemma {:induction false} CalledIsBorne(images: Images, repo: string, order: seq<nat>, shown: string,
                                         versions: seq<Version>,
                                       current: string, i: nat)
    requires Describes(images, repo, order, shown, versions) && i < |order|
    ensures IsCalled(versions[i], current) <==> Bears(images[order[i]], repo, current)
  {
    var names := TagNames(Matching(images[order[i]].tags, repo), repo);
    assert names == [names[0]] + names[1..];
  }

  /** The loop selects the image the listing calls for. */
  lemma {:induction false} SelectionIsRollbackImage(images: Images, repo: string, order: seq<nat>, shown: string,
                                                  versions: seq<Version>, current: string, i: nat, j: nat)
    requires UniqueTags(images) && IsListing(images, repo, order) && Describes(images, repo, order, shown, versions)
    requires RollbackPair(versions, current, i, j)
    ensures RollbackImage(images, repo, order, current) == Some(order[j])
    ensures j == i + 1
  {
    CalledIsBorne(images, repo, order, shown, versions, current, i);
    CalledIsBorne(images, repo, order, shown, versions, current, i + 1);
    OneActive(images, repo, order, current, i);
    if Bears(images[order[i + 1]], repo, current) {
      OneActive(images, repo, order, current, i + 1);
    }
  }

  lemma {:induction false} RollbackImageIsSelectable(images: Images, repo: string, order: seq<nat>, shown: string,
                                                   versions: seq<Version>, current: string)
    requires UniqueTags(images) && IsListing(images, repo, order) && Describes(images, repo, order, shown, versions)
    requires RollbackImage(images, repo, order, current).Some?
    ensures exists i, j :: RollbackPair(versions, current, i, j)
  {
    var a := ActiveIndex(images, repo, order, current).value;
    forall m | 0 <= m < |order| ensures IsCalled(versions[m], current) <==> m == a {
      CalledIsBorne(images, repo, order, shown, versions, current, m);
      if Bears(images[order[m]], repo, current) {
        OneActive(images, repo, order, current, m);
      }
    }
    assert RollbackPair(versions, current, a, a + 1);
  }

  /** Nothing in the listing after the first image that bears the current version is another version. */
  ghost predicate NothingOlder(images: Images, repo: string, order: seq<nat>, current: string) {
    forall i, j | 0 <= i < j < |order| && order[i] in images && order[j] in images
                  && Bears(images[order[i]], repo, current) :: Bears(images[order[j]], repo, current)
  }

  lemma {:induction false} NoPairNothingOlder(images: Images, repo: string, order: seq<nat>, shown: string,
                                              versions: seq<Version>, current: string)
    requires Describes(images, repo, order, shown, versions)
    requires forall i, j :: !RollbackPair(versions, current, i, j)
    ensures NothingOlder(images, repo, order, current)
  {
    forall m | 0 <= m < |order| ensures IsCalled(versions[m], current) <==> Bears(images[order[m]], repo, current) {
      CalledIsBorne(images, repo, order, shown, versions, current, m);
    }
    hide IsCalled, Bears;
    forall i, j | 0 <= i < j < |order| && IsCalled(versions[i], current) ensures IsCalled(versions[j], current) {
      if !IsCalled(versions[j], current) {
        var a, b := FirstPair(versions, current, i, j);
      }
    }
  }

  /** A version called current with another one after it: the first such pair is the one to roll back. */
  lemma {:induction false} FirstPair(versions: seq<Version>, current: string, i: nat, j: nat) returns (a: nat, b: nat)
    requires i < j < |versions| && IsCalled(versions[i], current) && !IsCalled(versions[j], current)
    ensures RollbackPair(versions, current, a, b)
  {
    hide IsCalled;
    a := 0;
    while !IsCalled(versions[a], current)
      invariant a <= i && forall m | 0 <= m < a :: !IsCalled(versions[m], current)
      decreases i - a
    {
      a := a + 1;
    }
    b := a + 1;
    while IsCalled(versions[b], current)
      invariant a < b <= j && forall m | a < m < b :: IsCalled(versions[m], current)
      decreases j - b
    {
      b := b + 1;
    }
  }

  /** No version of the project can be told to be the current one. */
  ghost predicate NoCurrent(w: World, project: string) {
    Apps(w, project) == {} || exists id :: id in Apps(w, project) && ':' !in w.containers[id].image
  }

  /** When nothing fails and still no version is found. */
  ghost predicate MayFindNone(w: World, project: string, repo: string, choice: Choice) {
    match choice
    case Explicit(_) => false
    case Build(built) => built.None?
    case Current => NoCurrent(w, project)
    case Rollback =>
      || NoCurrent(w, project)
      || exists order, current :: CurrentOf(w, project, current) && IsListing(w.images, repo, order)
                                  && NothingOlder(w.images, repo, order, current)
  }

  /** What the user asked for; a build either yields a version or fails. */
  datatype Choice = Rollback | Current | Explicit(version: string) | Build(built: Option<string>)

  /** The version `deploy` hands to the deployment. A rollback gets the first name of the next older
      image, or fails when there is none. */
  method ChooseVersion(host: Host, project: string, repo: string, choice: Choice)
      returns (r: Outcome<string>, ghost order: seq<nat>, ghost current: string)
    requires host.Valid()
    modifies host`faults
    ensures host.faults >= old(host.faults)
    ensures choice.Rollback? && r.Ok? ==>
              CurrentOf(host.w, project, current) && IsListing(host.w.images, repo, order)
    ensures choice.Rollback? && r.Ok? && UniqueTags(host.w.images) ==>
              var target := RollbackImage(host.w.images, repo, order, current);
              && target.Some? && target.value in host.w.images && Matching(host.w.images[target.value].tags, repo) != []
              && r.value == Describe(host.w.images[target.value], repo, current).name
    ensures choice.Rollback? && r.Failed? && host.faults == old(host.faults) && UniqueTags(host.w.images) ==>
              Apps(host.w, project) == {} ||
              (IsListing(host.w.images, repo, order) && RollbackImage(host.w.images, repo, order, current).None?)
    ensures choice.Current? && r.Ok? ==> CurrentOf(host.w, project, r.value)
    ensures choice.Explicit? ==> r == Ok(choice.version)
    ensures choice.Build? ==> (r.Ok? <==> choice.built.Some?)
    ensures choice.Build? && r.Ok? ==> choice.built == Some(r.value)
    ensures !r.Ok? && host.faults == old(host.faults) ==> MayFindNone(host.w, project, repo, choice)
  {
    order, current := [], "";
    match choice {
      case Rollback =>
        r, order, current := ChooseRollback(host, project, repo);
      case Current =>
        r := CurrentlyActive(host, project);
      case Explicit(version) =>
        r := Ok(version);
      case Build(version) =>
        r := if version.Some? then Ok(version.value) else Failed;
    }
  }

  method ChooseRollback(host: Host, project: string, repo: string)
      returns (r: Outcome<string>, ghost order: seq<nat>, ghost current: string)
    requires host.Valid()
    modifies host`faults
    ensures host.faults >= old(host.faults)
    ensures r.Ok? ==> CurrentOf(host.w, project, current) && IsListing(host.w.images, repo, order)
    ensures r.Ok? && UniqueTags(host.w.images) ==>
              var target := RollbackImage(host.w.images, repo, order, current);
              && target.Some? && target.value in host.w.images && Matching(host.w.images[target.value].tags, repo) != []
              && r.value == Describe(host.w.images[target.value], repo, current).name
    ensures r.Failed? && host.faults == old(host.faults) && UniqueTags(host.w.images) ==>
              Apps(host.w, project) == {} ||
              (IsListing(host.w.images, repo, order) && RollbackImage(host.w.images, repo, order, current).None?)
    ensures !r.Ok? && host.faults == old(host.faults) ==> MayFindNone(host.w, project, repo, Rollback)
  {
    order, current := [], "";
    var version := CurrentlyActive(host, project);
    if !version.Ok? {
      return version, order, current;
    }
    current := version.value;
    var listed;
    ghost var shown;
    listed, order, shown := VersionList(host, project, repo);
    if !listed.Ok? {
      return if listed.Failed? then Failed else Crashed, order, current;
    }
    var target := SelectRollback(listed.value, version.value);
    ghost var images := host.w.images;
    if UniqueTags(images) {
      if target.Some? {
        ghost var i, j :| RollbackPair(listed.value, current, i, j) && listed.value[j].name == target.value;
        SelectionIsRollbackImage(images, repo, order, shown, listed.value, current, i, j);
      } else {
        if RollbackImage(images, repo, order, current).Some? {
          RollbackImageIsSelectable(images, repo, order, shown, listed.value, current);
        }
      }
    }
    if target.None? {
      NoPairNothingOlder(images, repo, order, shown, listed.value, current);
    }
    r := if target.Some? then Ok(target.value) else Failed;
  }
}

/** The image versions of a project: which exist, which one is active, what a drain removes and what
    a rollback selects. */
module Versions {
  import opened Orders
  import opened Text
  import opened Docker

  datatype Version = Version(name: string, aliases: seq<string>, createdAt: int, active: bool)

  function Ref(repo: string, name: string): string {
    repo + ":" + name
  }

  function TagName(tag: string, repo: string): string {
    TrimPrefix(tag, repo + ":")
  }

  function TagNames(tags: seq<string>, repo: string): seq<string> {
    if tags == [] then [] else [TagName(tags[0], repo)] + TagNames(tags[1..], repo)
  }

  /** Does the image carry the version name? */
  predicate Bears(image: Image, repo: string, name: string) {
    name in TagNames(Matching(image.tags, repo), repo)
  }

  function Describe(image: Image, repo: string, current: string): Version
    requires Matching(image.tags, repo) != []
  {
    var names := TagNames(Matching(image.tags, repo), repo);
    Version(names[0], names[1..], image.created, Bears(image, repo, current))
  }

  predicate IsCalled(v: Version, name: string) {
    v.name == name || name in v.aliases
  }

  /** The version part of the image reference a container was created from: everything after the
      first colon. */
  function VersionPart(image: string): Option<string> {
    match SplitFirst(image, ':')
    case None => None
    case Some((_, version)) => Some(version)
  }

  ghost predicate NewestFirst(images: Images, order: seq<nat>) {
    && (forall id | id in order :: id in images)
    && (forall i, j | 0 <= i < j < |order| :: images[order[i]].created >= images[order[j]].created)
  }

  /** The order a version list comes in. */
  ghost predicate IsListing(images: Images, repo: string, order: seq<nat>) {
    IsOrder(order, MatchingIds(images, repo)) && NewestFirst(images, order)
  }

  /** No reference belongs to two images or twice to one. */
  ghost predicate UniqueTags(images: Images) {
    && (forall id | id in images :: Distinct(images[id].tags))
    && (forall a, b, tag | a in images && b in images && tag in images[a].tags && tag in images[b].tags :: a == b)
  }

  ghost predicate DistinctTimes(images: Images, repo: string) {
    TimesDiffer(images, MatchingIds(images, repo))
  }

  lemma {:induction false} MatchingMeaning(tags: seq<string>, repo: string, tag: string)
    ensures tag in Matching(tags, repo) <==> tag in tags && HasPrefix(tag, repo + ":")
  {
    if tags != [] {
      assert tags == [tags[0]] + tags[1..];
      MatchingMeaning(tags[1..], repo, tag);
    }
  }

  lemma {:induction false} TagNamesMeaning(tags: seq<string>, repo: string, name: string)
    requires forall t | t in tags :: HasPrefix(t, repo + ":")
    ensures |TagNames(tags, repo)| == |tags|
    ensures name in TagNames(tags, repo) <==> Ref(repo, name) in tags
    ensures forall i | 0 <= i < |tags| :: tags[i] == Ref(repo, TagNames(tags, repo)[i])
  {
    if tags != [] {
      assert tags == [tags[0]] + tags[1..];
      TagNamesMeaning(tags[1..], repo, name);
      assert tags[0] == (repo + ":") + TagName(tags[0], repo);
    }
  }

  /** Listing, trimming and splitting agree: an image bears a version name exactly when it has the
      full reference. */
  lemma {:induction false} BearsMeaning(image: Image, repo: string, name: string)
    ensures Bears(image, repo, name) <==> Ref(repo, name) in image.tags
  {
    var tags := Matching(image.tags, repo);
    forall t | t in tags ensures HasPrefix(t, repo + ":") {
      MatchingMeaning(image.tags, repo, t);
    }
    TagNamesMeaning(tags, repo, name);
    MatchingMeaning(image.tags, repo, Ref(repo, name));
  }

  lemma {:induction false} NamesAreReferences(image: Image, repo: string)
    ensures |TagNames(Matching(image.tags, repo), repo)| == |Matching(image.tags, repo)|
    ensures forall i | 0 <= i < |Matching(image.tags, repo)| ::
              Matching(image.tags, repo)[i] == Ref(repo, TagNames(Matching(image.tags, repo), repo)[i])
  {
    var tags := Matching(image.tags, repo);
    forall t | t in tags ensures HasPrefix(t, repo + ":") {
      MatchingMeaning(image.tags, repo, t);
    }
    TagNamesMeaning(tags, repo, "");
  }

  // The drain.

  /** Within the `keep` newest, or bearing the current version. */
  predicate Survives(images: Images, repo: string, order: seq<nat>, keep: nat, current: string, i: nat)
    requires i < |order|
  {
    i < keep || (order[i] in images && Bears(images[order[i]], repo, current))
  }

  /** The references a drain removes: all of the repository's on images outside the `keep` newest
      that do not bear the current version. */
  function DoomedTags(images: Images, repo: string, order: seq<nat>, keep: nat, current: string): set<string>
  {
    set i, tag | keep <= i < |order| && order[i] in images && tag in Matching(images[order[i]].tags, repo)
                 && !Survives(images, repo, order, keep, current, i) :: tag
  }

  function Drained(images: Images, repo: string, order: seq<nat>, keep: nat, current: string): Images
  {
    Purge(images, DoomedTags(images, repo, order, keep, current))
  }

  lemma {:induction false} KeepMeaning(tags: seq<string>, gone: set<string>, tag: string)
    ensures tag in Keep(tags, gone) <==> tag in tags && tag !in gone
  {
    if tags != [] {
      assert tags == [tags[0]] + tags[1..];
      KeepMeaning(tags[1..], gone, tag);
    }
  }

  lemma {:induction false} KeepAll(tags: seq<string>, gone: set<string>)
    requires forall tag | tag in tags :: tag !in gone
    ensures Keep(tags, gone) == tags
  {
    if tags != [] {
      KeepAll(tags[1..], gone);
    }
  }

  lemma {:induction false} KeepTwice(tags: seq<string>, a: set<string>, b: set<string>)
    ensures Keep(Keep(tags, a), b) == Keep(tags, a + b)
  {
    if tags != [] {
      KeepTwice(tags[1..], a, b);
      if tags[0] in a {
        assert Keep(tags, a) == Keep(tags[1..], a);
      } else {
        assert Keep(tags, a)[1..] == Keep(tags[1..], a);
      }
    }
  }

  lemma {:induction false} PurgeTwice(images: Images, a: set<string>, b: set<string>)
    ensures Purge(Purge(images, a), b) == Purge(images, a + b)
  {
    forall id | id in images
      ensures Keep(Keep(images[id].tags, a), b) == Keep(images[id].tags, a + b)
      ensures Keep(images[id].tags, a) == [] ==> Keep(images[id].tags, a + b) == []
    {
      KeepTwice(images[id].tags, a, b);
    }
    assert Purge(Purge(images, a), b).Keys == Purge(images, a + b).Keys;
  }

  lemma PurgeNothing(images: Images)
    ensures Purge(images, {}) == images
  {
    forall id | id in images ensures Keep(images[id].tags, {}) == images[id].tags {
      KeepAll(images[id].tags, {});
    }
    assert Purge(images, {}).Keys == images.Keys;
  }

  /** With unique references the doomed ones of another image never touch a surviving image. */
  lemma {:induction false} SurvivorKeepsTags(images: Images, repo: string, order: seq<nat>, keep: nat, current: string,
                                             i: nat)
    requires UniqueTags(images) && IsListing(images, repo, order)
    requires i < |order| && Survives(images, repo, order, keep, current, i)
    ensures order[i] in Drained(images, repo, order, keep, current)
    ensures Drained(images, repo, order, keep, current)[order[i]] == images[order[i]]
  {
    var gone := DoomedTags(images, repo, order, keep, current);
    assert order[i] in order;
    forall tag | tag in images[order[i]].tags ensures tag !in gone {
      if tag in gone {
        var j :| keep <= j < |order| && order[j] in images && tag in Matching(images[order[j]].tags, repo)
                 && !Survives(images, repo, order, keep, current, j);
        MatchingMeaning(images[order[j]].tags, repo, tag);
      }
    }
    KeepAll(images[order[i]].tags, gone);
  }

  lemma {:induction false} DoomedLosesTags(images: Images, repo: string, order: seq<nat>, keep: nat, current: string,
                                           i: nat)
    requires IsListing(images, repo, order)
    requires i < |order| && !Survives(images, repo, order, keep, current, i)
    ensures order[i] !in MatchingIds(Drained(images, repo, order, keep, current), repo)
  {
    var gone := DoomedTags(images, repo, order, keep, current);
    var id := order[i];
    assert id in order;
    var left := Keep(images[id].tags, gone);
    if Matching(left, repo) != [] {
      var tag := Matching(left, repo)[0];
      MatchingMeaning(left, repo, tag);
      KeepMeaning(images[id].tags, gone, tag);
      MatchingMeaning(images[id].tags, repo, tag);
    }
  }

  /** Images of other repositories are not touched. */
  lemma {:induction false} StrangersKept(images: Images, repo: string, order: seq<nat>, keep: nat, current: string,
                                         id: nat)
    requires UniqueTags(images) && IsListing(images, repo, order)
    requires id in images && id !in MatchingIds(images, repo)
    ensures id in Drained(images, repo, order, keep, current)
    ensures Drained(images, repo, order, keep, current)[id] == images[id]
  {
    var gone := DoomedTags(images, repo, order, keep, current);
    forall tag | tag in images[id].tags ensures tag !in gone {
      MatchingMeaning(images[id].tags, repo, tag);
      if tag in gone {
        var j :| keep <= j < |order| && order[j] in images && tag in Matching(images[order[j]].tags, repo)
                 && !Survives(images, repo, order, keep, current, j);
        MatchingMeaning(images[order[j]].tags, repo, tag);
      }
    }
    KeepAll(images[id].tags, gone);
  }

  /** The first listed image that bears the name. */
  function ActiveIndex(images: Images, repo: string, order: seq<nat>, current: string): (r: Option<nat>)
    ensures r.Some? ==> r.value < |order| && order[r.value] in images && Bears(images[order[r.value]], repo, current)
    ensures r.None? ==> forall i | 0 <= i < |order| && order[i] in images :: !Bears(images[order[i]], repo, current)
  {
    if order == [] then None
    else
      var last := |order| - 1;
      var r := ActiveIndex(images, repo, order[..last], current);
      if r.Some? then r
      else if order[last] in images && Bears(images[order[last]], repo, current) then Some(last)
      else None
  }

  /** With unique references one image bears the current version, so there is one active index. */
  lemma {:induction false} OneActive(images: Images, repo: string, order: seq<nat>, current: string, i: nat)
    requires UniqueTags(images) && Distinct(order)
    requires i < |order| && order[i] in images && Bears(images[order[i]], repo, current)
    ensures ActiveIndex(images, repo, order, current) == Some(i)
  {
    var a := ActiveIndex(images, repo, order, current).value;
    BearsMeaning(images[order[i]], repo, current);
    BearsMeaning(images[order[a]], repo, current);
    assert order[a] == order[i];
  }

  /** The listing after a drain: the `keep` newest, then the active one if it is older. */
  function Survivors(images: Images, repo: string, order: seq<nat>, keep: nat, current: string): seq<nat> {
    if |order| <= keep then order
    else match ActiveIndex(images, repo, order, current)
      case None => order[..keep]
      case Some(a) => if a < keep then order[..keep] else order[..keep] + [order[a]]
  }

  lemma {:induction false} SurvivorsSurvive(images: Images, repo: string, order: seq<nat>, keep: nat, current: string)
    requires UniqueTags(images) && IsListing(images, repo, order)
    ensures forall i | 0 <= i < |order| :: order[i] in Survivors(images, repo, order, keep, current)
                                       <==> Survives(images, repo, order, keep, current, i)
    ensures forall id | id in Survivors(images, repo, order, keep, current) :: id in order
  {
    var kept := Survivors(images, repo, order, keep, current);
    forall i | 0 <= i < |order| ensures order[i] in kept <==> Survives(images, repo, order, keep, current, i) {
      assert order[i] in order;
      if i < keep && keep < |order| {
        assert order[i] == order[..keep][i];
      }
      if i >= keep && Bears(images[order[i]], repo, current) {
        OneActive(images, repo, order, current, i);
      }
    }
  }

  lemma {:induction false} SurvivorsStayListed(images: Images, repo: string, order: seq<nat>, keep: nat,
                                               current: string)
    requires UniqueTags(images) && IsListing(images, repo, order)
    ensures MatchingIds(Drained(images, repo, order, keep, current), repo)
         == set id | id in Survivors(images, repo, order, keep, current)
  {
    var after, kept := Drained(images, repo, order, keep, current), Survivors(images, repo, order, keep, current);
    SurvivorsSurvive(images, repo, order, keep, current);
    forall id | id in images ensures id in MatchingIds(after, repo) <==> id in kept {
      if id in MatchingIds(images, repo) {
        var i :| 0 <= i < |order| && order[i] == id;
        if Survives(images, repo, order, keep, current, i) {
          SurvivorKeepsTags(images, repo, order, keep, current, i);
        } else {
          DoomedLosesTags(images, repo, order, keep, current, i);
        }
      } else {
        StrangersKept(images, repo, order, keep, current, id);
      }
    }
  }

  /** A successful drain leaves exactly the `keep` newest images and the active one listed, newest
      first, each with all its references. */
  lemma {:induction false} DrainLeaves(images: Images, repo: string, order: seq<nat>, keep: nat, current: string)
    requires UniqueTags(images) && IsListing(images, repo, order)
    ensures var after := Drained(images, repo, order, keep, current);
            var kept := Survivors(images, repo, order, keep, current);
            && IsListing(after, repo, kept)
            && |kept| <= keep + 1
            && forall id | id in kept :: id in images && id in after && after[id] == images[id]
  {
    var after, kept := Drained(images, repo, order, keep, current), Survivors(images, repo, order, keep, current);
    SurvivorsSurvive(images, repo, order, keep, current);
    SurvivorsStayListed(images, repo, order, keep, current);
    forall id | id in kept ensures id in images && id in after && after[id] == images[id] {
      assert id in order;
      var i :| 0 <= i < |order| && order[i] == id;
      SurvivorKeepsTags(images, repo, order, keep, current, i);
    }
    hide UniqueTags, Drained, Survives, Bears;
    assert Distinct(kept);
  }

  lemma {:induction false} NothingDoomed(images: Images, repo: string, order: seq<nat>, keep: nat, current: string)
    requires forall i | 0 <= i < |order| :: Survives(images, repo, order, keep, current, i)
    ensures Drained(images, repo, order, keep, current) == images
  {
    assert DoomedTags(images, repo, order, keep, current) == {};
    PurgeNothing(images);
  }

  lemma SurvivorsBeyondKeep(images: Images, repo: string, order: seq<nat>, keep: nat, current: string, i: nat)
    requires keep <= i < |Survivors(images, repo, order, keep, current)|
    ensures var id := Survivors(images, repo, order, keep, current)[i];
            id in images && Bears(images[id], repo, current)
  {
  }

  lemma {:induction false} SurvivorsAreSafe(images: Images, repo: string, order: seq<nat>, keep: nat, current: string,
                                            i: nat)
    requires UniqueTags(images) && IsListing(images, repo, order)
    requires i < |Survivors(images, repo, order, keep, current)|
    ensures var after := Drained(images, repo, order, keep, current);
            var kept := Survivors(images, repo, order, keep, current);
            Survives(after, repo, kept, keep, current, i)
  {
    if i >= keep {
      var kept := Survivors(images, repo, order, keep, current);
      SurvivorsBeyondKeep(images, repo, order, keep, current, i);
      DrainLeaves(images, repo, order, keep, current);
      assert kept[i] in kept;
    }
  }

  /** A second drain finds nothing to remove. */
  lemma {:induction false} DrainIdempotent(images: Images, repo: string, order: seq<nat>, keep: nat, current: string)
    requires UniqueTags(images) && IsListing(images, repo, order)
    ensures var after := Drained(images, repo, order, keep, current);
            var kept := Survivors(images, repo, order, keep, current);
            Drained(after, repo, kept, keep, current) == after
  {
    var after, kept := Drained(images, repo, order, keep, current), Survivors(images, repo, order, keep, current);
    forall i | 0 <= i < |kept| ensures Survives(after, repo, kept, keep, current, i) {
      SurvivorsAreSafe(images, repo, order, keep, current, i);
    }
    NothingDoomed(after, repo, kept, keep, current);
  }

  ghost predicate TimesDiffer(images: Images, ids: set<nat>) {
    forall a, b | a in ids && b in ids && a != b :: a in images && b in images && images[a].created != images[b].created
  }

  lemma {:induction false} LastIsOldest(images: Images, ids: set<nat>, order: seq<nat>, id: nat)
    requires IsOrder(order, ids) && NewestFirst(images, order) && |order| > 1 && id in ids
    ensures id in images && order[|order| - 1] in images && images[order[|order| - 1]].created <= images[id].created
  {
    assert id in order;
    var i :| 0 <= i < |order| && order[i] == id;
    var last := |order| - 1;
    assert images[order[0]].created >= images[order[last]].created;
  }

  lemma {:induction false} SameLast(images: Images, ids: set<nat>, a: seq<nat>, b: seq<nat>)
    requires TimesDiffer(images, ids) && IsOrder(a, ids) && IsOrder(b, ids) && |a| == |b| > 0
    requires NewestFirst(images, a) && NewestFirst(images, b)
    ensures a[|a| - 1] == b[|b| - 1]
  {
    var n := |a| - 1;
    assert a[n] in a && b[n] in b;
    if n > 0 {
      LastIsOldest(images, ids, a, b[n]);
      LastIsOldest(images, ids, b, a[n]);
    } else {
      assert a[0] in b;
    }
  }

  lemma PrefixIsSorted(images: Images, order: seq<nat>, n: nat)
    requires NewestFirst(images, order) && n <= |order|
    ensures NewestFirst(images, order[..n])
  {
    forall i, j | 0 <= i < j < n ensures images[order[..n][i]].created >= images[order[..n][j]].created {
      assert order[i] in order && order[j] in order;
      assert images[order[i]].created >= images[order[j]].created;
    }
  }

  lemma {:induction false} SortedOrderUnique(images: Images, ids: set<nat>, a: seq<nat>, b: seq<nat>)
    requires TimesDiffer(images, ids) && IsOrder(a, ids) && IsOrder(b, ids)
    requires NewestFirst(images, a) && NewestFirst(images, b)
    ensures a == b
  {
    hide IsOrder, NewestFirst;
    OrderLength(a, ids);
    OrderLength(b, ids);
    if |a| > 0 {
      var n := |a| - 1;
      InitOfOrder(a, ids);
      InitOfOrder(b, ids);
      SameLast(images, ids, a, b);
      PrefixIsSorted(images, a, n);
      PrefixIsSorted(images, b, n);
      SortedOrderUnique(images, ids - {a[n]}, a[..n], b[..n]);
      assert a == a[..n] + [a[n]] && b == b[..n] + [b[n]];
    }
  }

  /** Distinct creation times leave no choice to the listing, whatever the sorting algorithm does. */
  lemma ListingUnique(images: Images, repo: string, a: seq<nat>, b: seq<nat>)
    requires DistinctTimes(images, repo) && IsListing(images, repo, a) && IsListing(images, repo, b)
    ensures a == b
  {
    SortedOrderUnique(images, MatchingIds(images, repo), a, b);
  }

  // Rollback.

  /** The image a rollback selects: the next older one after the active one. */
  function RollbackImage(images: Images, repo: string, order: seq<nat>, current: string): Option<nat> {
    match ActiveIndex(images, repo, order, current)
    case None => None
    case Some(a) => if a + 1 < |order| then Some(order[a + 1]) else None
  }

  lemma {:induction false} ActiveAfterDrain(images: Images, repo: string, order: seq<nat>, keep: nat, current: string)
    requires UniqueTags(images) && IsListing(images, repo, order)
    ensures ActiveIndex(Drained(images, repo, order, keep, current), repo,
                        Survivors(images, repo, order, keep, current), current)
         == match ActiveIndex(images, repo, order, current)
            case None => None
            case Some(a) => Some(if a < keep then a else keep)
  {
    var after, kept := Drained(images, repo, order, keep, current), Survivors(images, repo, order, keep, current);
    DrainLeaves(images, repo, order, keep, current);
    PurgeKeepsUnique(images, DoomedTags(images, repo, order, keep, current));
    match ActiveIndex(images, repo, order, current)
    case None =>
      forall i | 0 <= i < |kept| ensures !Bears(after[kept[i]], repo, current) {
        assert kept[i] in kept;
        assert after[kept[i]] == images[kept[i]];
      }
    case Some(a) =>
      var at := if a < keep then a else keep;
      assert kept[at] == order[a];
      assert kept[at] in kept;
      OneActive(after, repo, kept, current, at);
  }

  lemma {:induction false} PurgeKeepsUnique(images: Images, gone: set<string>)
    requires UniqueTags(images)
    ensures UniqueTags(Purge(images, gone))
  {
    forall id | id in images ensures Distinct(Keep(images[id].tags, gone)) {
      KeepDistinct(images[id].tags, gone);
    }
    forall a, b, tag | a in Purge(images, gone) && b in Purge(images, gone)
        && tag in Purge(images, gone)[a].tags && tag in Purge(images, gone)[b].tags
      ensures a == b
    {
      KeepMeaning(images[a].tags, gone, tag);
      KeepMeaning(images[b].tags, gone, tag);
    }
  }

  lemma {:induction false} KeepDistinct(tags: seq<string>, gone: set<string>)
    requires Distinct(tags)
    ensures Distinct(Keep(tags, gone))
  {
    if tags != [] {
      KeepDistinct(tags[1..], gone);
      KeepMeaning(tags[1..], gone, tags[0]);
    }
  }

  /** Where the images next to the active one end up in the listing after a drain. */
  lemma SurvivorsLookBack(images: Images, repo: string, order: seq<nat>, keep: nat, current: string)
    ensures var a, kept := ActiveIndex(images, repo, order, current), Survivors(images, repo, order, keep, current);
            && (a.Some? && a.value + 1 < (if |order| < keep then |order| else keep) ==>
                  a.value + 1 < |kept| && kept[a.value + 1] == order[a.value + 1])
            && (a.Some? && a.value < keep && |kept| > a.value + 1 ==>
                  a.value + 1 < (if |order| < keep then |order| else keep))
            && (a.Some? && a.value >= keep ==> |kept| == keep + 1)
  {
    hide ActiveIndex, Bears;
  }

  /** Drain and rollback agree: after a drain a rollback finds an image exactly when the active index
      is followed by one within the first min(n, keep), and it is the image it would have found
      before the drain. */
  lemma {:induction false} RollbackAfterDrain(images: Images, repo: string, order: seq<nat>, keep: nat, current: string)
    requires UniqueTags(images) && IsListing(images, repo, order)
    ensures var after := Drained(images, repo, order, keep, current);
            var kept := Survivors(images, repo, order, keep, current);
            var a, least := ActiveIndex(images, repo, order, current), if |order| < keep then |order| else keep;
            RollbackImage(after, repo, kept, current)
            == if a.Some? && a.value + 1 < least then RollbackImage(images, repo, order, current) else None
  {
    ActiveAfterDrain(images, repo, order, keep, current);
    hide UniqueTags, IsListing, ActiveIndex, Drained, Bears, Survivors;
    SurvivorsLookBack(images, repo, order, keep, current);
  }
}

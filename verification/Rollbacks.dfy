/** Versions across deployments: the image just deployed, and chains of rollbacks. */
module Rollbacks {
  import opened Text
  import opened Docker
  import opened Frames
  import opened Versions

  /** The version read back from the reference a deployment creates its container from. */
  lemma {:induction false} VersionReadsBack(repo: string, version: string)
    requires ':' !in repo
    ensures VersionPart(Ref(repo, version)) == Some(version)
  {
    assert Ref(repo, version) == repo + [':'] + version;
    SplitJoined(repo, version, ':');
  }

  lemma {:induction false} ColonVersionKeepsColon(repo: string, version: string)
    requires ':' in repo
    ensures VersionPart(Ref(repo, version)).Some? && ':' in VersionPart(Ref(repo, version)).value
  {
    var parts := SplitFirst(repo, ':').value;
    var rest := parts.1 + [':'] + version;
    assert Ref(repo, version) == parts.0 + [':'] + rest;
    assert rest[|parts.1|] == ':';
    SplitJoined(parts.0, rest, ':');
  }

  ghost predicate ColonFreeNames(images: Images, repo: string) {
    forall id, name | id in images && Ref(repo, name) in images[id].tags :: ':' !in name
  }

  /** The deployed image is recognised as the active one exactly when the repository name has no
      colon; a registry with a port breaks it. */
  lemma {:induction false} RecognisedExactlyWhen(images: Images, repo: string, version: string, id: nat)
    requires id in images && Ref(repo, version) in images[id].tags && ColonFreeNames(images, repo)
    ensures VersionPart(Ref(repo, version)).Some?
    ensures Bears(images[id], repo, VersionPart(Ref(repo, version)).value) <==> ':' !in repo
  {
    if ':' in repo {
      ColonVersionKeepsColon(repo, version);
    } else {
      VersionReadsBack(repo, version);
    }
    BearsMeaning(images[id], repo, VersionPart(Ref(repo, version)).value);
  }

  /** The drain after a deployment spares the image just deployed, with all its references, exactly
      when it is among the `keep` newest or the repository name has no colon. */
  lemma {:induction false} DeployedSurvivesExactlyWhen(images: Images, repo: string, version: string, order: seq<nat>,
                                                       keep: nat, i: nat)
    requires UniqueTags(images) && IsListing(images, repo, order) && ColonFreeNames(images, repo)
    requires i < |order| && order[i] in images && Ref(repo, version) in images[order[i]].tags
    ensures VersionPart(Ref(repo, version)).Some?
    ensures var after := Drained(images, repo, order, keep, VersionPart(Ref(repo, version)).value);
            (order[i] in after && after[order[i]] == images[order[i]]) <==> i < keep || ':' !in repo
  {
    RecognisedExactlyWhen(images, repo, version, order[i]);
    var current := VersionPart(Ref(repo, version)).value;
    var id := order[i];
    if Survives(images, repo, order, keep, current, i) {
      SurvivorKeepsTags(images, repo, order, keep, current, i);
    } else {
      DoomedLosesTags(images, repo, order, keep, current, i);
      assert id in order;
      assert id in MatchingIds(images, repo);
    }
  }

  // Chains of rollbacks.

  predicate IsActive(images: Images, repo: string, current: string, id: nat) {
    id in images && Bears(images[id], repo, current)
  }

  /** The images that are older than `id`. */
  function Older(images: Images, repo: string, id: nat): set<nat>
    requires id in images
  {
    set other | other in MatchingIds(images, repo) && images[other].created < images[id].created
  }

  /** Images of other repositories may have been pulled, but no version of this one came or went. */
  ghost predicate NoNewVersions(images: Images, grown: Images, repo: string) {
    && (UniqueTags(images) ==> UniqueTags(grown)) && MatchingIds(grown, repo) == MatchingIds(images, repo)
    && forall id | id in MatchingIds(images, repo) :: id in grown && grown[id].created == images[id].created
         && Matching(grown[id].tags, repo) == Matching(images[id].tags, repo)
  }

  lemma {:induction false} MatchingSplits(tags: seq<string>, more: seq<string>, repo: string)
    ensures Matching(tags + more, repo) == Matching(tags, repo) + Matching(more, repo)
  {
    if tags == [] {
      assert tags + more == more;
    } else {
      assert (tags + more)[1..] == tags[1..] + more;
      MatchingSplits(tags[1..], more, repo);
    }
  }

  lemma {:induction false} NothingMatches(tags: seq<string>, repo: string)
    requires forall i | 0 <= i < |tags| :: !HasPrefix(tags[i], repo + ":")
    ensures Matching(tags, repo) == []
  {
    if tags != [] {
      NothingMatches(tags[1..], repo);
    }
  }

  /** Pulling references of other repositories changes nothing about the versions of this one. */
  lemma {:induction false} GrownByForeigners(images: Images, grown: Images, refs: set<string>, repo: string)
    requires GrowBy(images, grown, refs) && (UniqueTags(images) ==> UniqueTags(grown))
    requires forall ref | ref in refs :: !HasPrefix(ref, repo + ":")
    ensures NoNewVersions(images, grown, repo)
  {
    hide UniqueTags;
    forall id | id in grown
      ensures Matching(grown[id].tags, repo) == if id in images then Matching(images[id].tags, repo) else []
    {
      var n := OldTags(images, id);
      var tags, more := grown[id].tags[..n], grown[id].tags[n..];
      assert tags + more == grown[id].tags && tags == if id in images then images[id].tags else [];
      MatchingSplits(tags, more, repo);
      forall i | 0 <= i < |more| ensures !HasPrefix(more[i], repo + ":") {
        assert more[i] == grown[id].tags[n + i];
      }
      NothingMatches(more, repo);
    }
  }

  /** What `deploy --rollback` asks for: the image after the active one, under its first name. */
  ghost predicate SelectsRollback(images: Images, repo: string, current: string, next: string) {
    exists order :: IsListing(images, repo, order) && RollbackImage(images, repo, order, current).Some?
      && var id := RollbackImage(images, repo, order, current).value;
         id in images && Matching(images[id].tags, repo) != [] && next == Describe(images[id], repo, next).name
  }

  /** It is there already, so nothing of the repository needs to be pulled. */
  lemma {:induction false} SelectedExists(images: Images, repo: string, current: string, next: string)
    requires SelectsRollback(images, repo, current, next)
    ensures HasTag(images, Ref(repo, next))
  {
    var order :| IsListing(images, repo, order) && RollbackImage(images, repo, order, current).Some?
      && var id := RollbackImage(images, repo, order, current).value;
         id in images && Matching(images[id].tags, repo) != [] && next == Describe(images[id], repo, next).name;
    var id := RollbackImage(images, repo, order, current).value;
    FirstNameIsBorne(images[id], repo, next);
    BearsMeaning(images[id], repo, next);
  }

  /** A drain of the images with `next` active removes some or all of the doomed references. */
  ghost predicate DrainStep(grown: Images, after: Images, next: string, repo: string, keep: nat) {
    exists order, gone: set<string> :: IsListing(grown, repo, order)
      && gone <= DoomedTags(grown, repo, order, keep, next) && after == Purge(grown, gone)
  }

  /** A step of the chain: the selected version is deployed without a new build, and drained after. */
  ghost predicate RollbackStep(images: Images, current: string, after: Images, next: string, repo: string, keep: nat) {
    SelectsRollback(images, repo, current, next)
    && exists grown :: NoNewVersions(images, grown, repo) && DrainStep(grown, after, next, repo, keep)
  }

  lemma {:induction false} FirstNameIsBorne(image: Image, repo: string, name: string)
    requires Matching(image.tags, repo) != [] && name == Describe(image, repo, name).name
    ensures Bears(image, repo, name)
  {
  }

  /** Removing some of the doomed references leaves a surviving image alone. */
  lemma {:induction false} PartialDrainSpares(images: Images, repo: string, order: seq<nat>, keep: nat, current: string,
                                             gone: set<string>, id: nat)
    requires UniqueTags(images) && IsListing(images, repo, order)
    requires id in order && IsActive(images, repo, current, id)
    requires gone <= DoomedTags(images, repo, order, keep, current)
    ensures id in Purge(images, gone) && Purge(images, gone)[id] == images[id]
  {
    var i :| 0 <= i < |order| && order[i] == id;
    forall tag | tag in images[id].tags ensures tag !in gone {
      if tag in gone {
        var j :| keep <= j < |order| && order[j] in images && tag in Matching(images[order[j]].tags, repo)
                 && !Survives(images, repo, order, keep, current, j);
        MatchingMeaning(images[order[j]].tags, repo, tag);
      }
    }
    KeepAll(images[id].tags, gone);
  }

  lemma {:induction false} PurgeShrinks(images: Images, repo: string, gone: set<string>)
    ensures MatchingIds(Purge(images, gone), repo) <= MatchingIds(images, repo)
    ensures forall id | id in Purge(images, gone) :: id in images
              && Purge(images, gone)[id].created == images[id].created
  {
    forall id | id in MatchingIds(Purge(images, gone), repo) ensures id in MatchingIds(images, repo) {
      var tag := Matching(Keep(images[id].tags, gone), repo)[0];
      MatchingMeaning(Keep(images[id].tags, gone), repo, tag);
      KeepMeaning(images[id].tags, gone, tag);
      MatchingMeaning(images[id].tags, repo, tag);
    }
  }

  lemma NeighboursDiffer(images: Images, repo: string, order: seq<nat>, a: nat)
    requires IsListing(images, repo, order) && DistinctTimes(images, repo) && a + 1 < |order|
    ensures order[a] in MatchingIds(images, repo) && order[a + 1] in MatchingIds(images, repo)
    ensures order[a] in images && order[a + 1] in images && images[order[a + 1]].created < images[order[a]].created
  {
    hide Matching;
    assert order[a] in order && order[a + 1] in order;
    assert images[order[a]].created >= images[order[a + 1]].created;
  }

  /** The selected image is active under its first name and older than the one before. */
  lemma {:induction false} SelectedIsOlder(images: Images, repo: string, current: string, next: string)
      returns (was: nat, now: nat)
    requires UniqueTags(images) && DistinctTimes(images, repo) && SelectsRollback(images, repo, current, next)
    ensures IsActive(images, repo, current, was) && IsActive(images, repo, next, now)
    ensures was in MatchingIds(images, repo) && now in MatchingIds(images, repo)
              && images[now].created < images[was].created
  {
    var order :| IsListing(images, repo, order) && RollbackImage(images, repo, order, current).Some?
      && var id := RollbackImage(images, repo, order, current).value;
         id in images && Matching(images[id].tags, repo) != [] && next == Describe(images[id], repo, next).name;
    hide UniqueTags, ActiveIndex, Bears, Matching, Describe, IsListing, DistinctTimes, MatchingIds;
    var a := ActiveIndex(images, repo, order, current).value;
    was, now := order[a], order[a + 1];
    NeighboursDiffer(images, repo, order, a);
    FirstNameIsBorne(images[now], repo, next);
  }

  /** A drain keeps the active image and adds nothing. */
  lemma {:induction false} DrainKeepsActive(grown: Images, after: Images, next: string, repo: string, keep: nat,
                                            now: nat)
    requires UniqueTags(grown) && DistinctTimes(grown, repo) && DrainStep(grown, after, next, repo, keep)
    requires IsActive(grown, repo, next, now) && now in MatchingIds(grown, repo)
    ensures IsActive(after, repo, next, now) && UniqueTags(after) && DistinctTimes(after, repo)
    ensures MatchingIds(after, repo) <= MatchingIds(grown, repo)
    ensures forall id | id in after :: id in grown && after[id].created == grown[id].created
  {
    var order, gone: set<string> :| IsListing(grown, repo, order)
      && gone <= DoomedTags(grown, repo, order, keep, next) && after == Purge(grown, gone);
    assert now in order;
    PartialDrainSpares(grown, repo, order, keep, next, gone, now);
    PurgeKeepsUnique(grown, gone);
    PurgeShrinks(grown, repo, gone);
  }

  lemma {:induction false} RollbackMovesBack(images: Images, current: string, after: Images, next: string,
                                             repo: string, keep: nat)
      returns (was: nat, now: nat)
    requires UniqueTags(images) && DistinctTimes(images, repo)
    requires RollbackStep(images, current, after, next, repo, keep)
    ensures IsActive(images, repo, current, was) && IsActive(after, repo, next, now)
    ensures now in MatchingIds(images, repo) && images[now].created < images[was].created
    ensures after[now].created == images[now].created
    ensures UniqueTags(after) && DistinctTimes(after, repo)
    ensures MatchingIds(after, repo) <= MatchingIds(images, repo)
    ensures forall id | id in MatchingIds(after, repo) :: after[id].created == images[id].created
  {
    hide UniqueTags, SelectsRollback, DrainStep;
    was, now := SelectedIsOlder(images, repo, current, next);
    var grown :| NoNewVersions(images, grown, repo) && DrainStep(grown, after, next, repo, keep);
    DrainKeepsActive(grown, after, next, repo, keep, now);
  }

  lemma {:induction false} ActiveIsOne(images: Images, repo: string, current: string, a: nat, b: nat)
    requires UniqueTags(images) && IsActive(images, repo, current, a) && IsActive(images, repo, current, b)
    ensures a == b
  {
    BearsMeaning(images[a], repo, current);
    BearsMeaning(images[b], repo, current);
  }

  /** One rollback strictly reduces the number of images older than the active one, however much the
      drain removes. */
  lemma {:induction false} RollbackReducesOlder(images: Images, current: string, after: Images, next: string,
                                                repo: string, keep: nat, was: nat)
      returns (now: nat)
    requires UniqueTags(images) && DistinctTimes(images, repo)
    requires RollbackStep(images, current, after, next, repo, keep) && IsActive(images, repo, current, was)
    ensures UniqueTags(after) && DistinctTimes(after, repo)
    ensures IsActive(after, repo, next, now) && after[now].created < images[was].created
    ensures |Older(after, repo, now)| < |Older(images, repo, was)|
  {
    var found;
    found, now := RollbackMovesBack(images, current, after, next, repo, keep);
    ActiveIsOne(images, repo, current, was, found);
    hide UniqueTags, RollbackStep;
    assert Older(after, repo, now) <= Older(images, repo, was) - {now};
    SubsetIsSmaller(Older(after, repo, now), Older(images, repo, was) - {now});
    assert now in Older(images, repo, was);
  }

  lemma {:induction false} SubsetIsSmaller<T>(a: set<T>, b: set<T>)
    requires a <= b
    ensures |a| <= |b|
  {
    if a != {} {
      var x :| x in a;
      SubsetIsSmaller(a - {x}, b - {x});
    }
  }

  datatype Deployed = Deployed(images: Images, current: string)

  ghost predicate RollbackChain(chain: seq<Deployed>, repo: string, keep: nat) {
    forall i | 0 <= i < |chain| - 1 ::
      RollbackStep(chain[i].images, chain[i].current, chain[i + 1].images, chain[i + 1].current, repo, keep)
  }

  /** A chain of rollbacks without new builds activates strictly older images and is no longer than
      the number of images that were older than the active one at its start. */
  lemma {:induction false} RollbackChainEnds(chain: seq<Deployed>, repo: string, keep: nat, start: nat)
      returns (end: nat)
    requires chain != [] && RollbackChain(chain, repo, keep)
    requires UniqueTags(chain[0].images) && DistinctTimes(chain[0].images, repo)
    requires IsActive(chain[0].images, repo, chain[0].current, start)
    ensures var last := chain[|chain| - 1];
            && IsActive(last.images, repo, last.current, end)
            && UniqueTags(last.images) && DistinctTimes(last.images, repo)
            && last.images[end].created <= chain[0].images[start].created - (|chain| - 1)
            && |Older(last.images, repo, end)| + |chain| - 1 <= |Older(chain[0].images, repo, start)|
  {
    if |chain| == 1 {
      end := start;
    } else {
      var n := |chain| - 1;
      var before := RollbackChainEnds(chain[..n], repo, keep, start);
      end := RollbackReducesOlder(chain[n - 1].images, chain[n - 1].current, chain[n].images, chain[n].current, repo,
                                  keep, before);
    }
  }

  /** A rollback finds no version exactly when nothing older than the active image is left. */
  lemma {:induction false} OldestCannotRollBack(images: Images, repo: string, order: seq<nat>, current: string,
                                                was: nat)
    requires UniqueTags(images) && DistinctTimes(images, repo) && IsListing(images, repo, order)
    requires IsActive(images, repo, current, was)
    ensures RollbackImage(images, repo, order, current).None? <==> Older(images, repo, was) == {}
  {
    assert was in MatchingIds(images, repo);
    assert was in order;
    var a :| 0 <= a < |order| && order[a] == was;
    OneActive(images, repo, order, current, a);
    if a + 1 < |order| {
      assert order[a + 1] in order;
      assert order[a + 1] in Older(images, repo, was);
    } else {
      forall other | other in MatchingIds(images, repo) ensures images[other].created >= images[was].created {
        assert other in order;
        var j :| 0 <= j < |order| && order[j] == other;
      }
    }
  }
}

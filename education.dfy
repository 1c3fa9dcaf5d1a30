/** The logic of src/pages/Education.jsx: the resource filter chain, the
    pathway-based recommendations, the engagement lookup and the records a
    view or a like sends. */
module Education {
  import opened Js
  import opened Text
  import opened Seqs
  import Patients

  /** An education resource; `topics`, `body_regions`, `related_diagnosis`
      and `difficulty_level` may be absent. `kind` is the `type` field. */
  datatype Resource = Resource(
    id: string,
    title: string,
    description: string,
    topics: Option<seq<string>>,
    bodyRegions: Option<seq<string>>,
    relatedDiagnosis: Option<seq<string>>,
    kind: string,
    difficultyLevel: Option<string>)

  /** `list?.includes(x)`: false when the list is absent. */
  predicate Lists(list: Option<seq<string>>, x: string) {
    list.Some? && x in list.value
  }

  // ----- filterResources -----

  /** The selections the filter reads; "" disables the search, "all" each
      of the other three. */
  datatype Filters = Filters(searchTerm: string, bodyRegion: string, kind: string, difficulty: string)

  const DEFAULT_FILTERS := Filters("", "all", "all", "all")

  /** Some topic contains the term, ignoring case. */
  predicate TopicMatches(topics: Option<seq<string>>, term: string) {
    topics.Some? && SomeContainsIgnoringCase(topics.value, term)
  }

  predicate MatchesSearch(r: Resource, term: string) {
    ContainsIgnoringCase(r.title, term) || ContainsIgnoringCase(r.description, term) || TopicMatches(r.topics, term)
  }

  predicate PassesSearch(r: Resource, f: Filters) {
    f.searchTerm == "" || MatchesSearch(r, f.searchTerm)
  }

  predicate PassesRegion(r: Resource, f: Filters) {
    f.bodyRegion == "all" || Lists(r.bodyRegions, f.bodyRegion)
  }

  predicate PassesKind(r: Resource, f: Filters) {
    f.kind == "all" || r.kind == f.kind
  }

  predicate PassesDifficulty(r: Resource, f: Filters) {
    f.difficulty == "all" || r.difficultyLevel == Some(f.difficulty)
  }

  /** A resource is listed when it passes every active filter. */
  predicate Keeps(r: Resource, f: Filters) {
    PassesSearch(r, f) && PassesRegion(r, f) && PassesKind(r, f) && PassesDifficulty(r, f)
  }

  function Keeper(f: Filters): Resource -> bool {
    r => Keeps(r, f)
  }

  /** filterResources: starting from a copy of the list, each active filter
      narrows the previous result. */
  method FilterResources(resources: seq<Resource>, f: Filters) returns (filtered: seq<Resource>)
    ensures filtered == Filter(resources, Keeper(f))
  {
    ghost var upto1: Resource -> bool := r => PassesSearch(r, f);
    ghost var upto2: Resource -> bool := r => PassesSearch(r, f) && PassesRegion(r, f);
    ghost var upto3: Resource -> bool := r => PassesSearch(r, f) && PassesRegion(r, f) && PassesKind(r, f);

    filtered := resources;
    if f.searchTerm != "" {
      filtered := Filter(filtered, (r: Resource) => MatchesSearch(r, f.searchTerm));
      FilterCongruent(resources, (r: Resource) => MatchesSearch(r, f.searchTerm), upto1);
    } else {
      FilterKeepsAll(resources, upto1);
    }
    assert filtered == Filter(resources, upto1);

    if f.bodyRegion != "all" {
      filtered := Filter(filtered, (r: Resource) => Lists(r.bodyRegions, f.bodyRegion));
      FilterChain(resources, upto1, (r: Resource) => Lists(r.bodyRegions, f.bodyRegion), upto2);
    } else {
      FilterCongruent(resources, upto1, upto2);
    }
    assert filtered == Filter(resources, upto2);

    if f.kind != "all" {
      filtered := Filter(filtered, (r: Resource) => r.kind == f.kind);
      FilterChain(resources, upto2, (r: Resource) => r.kind == f.kind, upto3);
    } else {
      FilterCongruent(resources, upto2, upto3);
    }
    assert filtered == Filter(resources, upto3);

    if f.difficulty != "all" {
      filtered := Filter(filtered, (r: Resource) => r.difficultyLevel == Some(f.difficulty));
      FilterChain(resources, upto3, (r: Resource) => r.difficultyLevel == Some(f.difficulty), Keeper(f));
    } else {
      FilterCongruent(resources, upto3, Keeper(f));
    }
  }

  /** The filtered list keeps the resources' order and holds exactly those
      that pass every active filter. */
  lemma FilteredResources(resources: seq<Resource>, f: Filters)
    ensures IsSubsequence(Filter(resources, Keeper(f)), resources)
    ensures forall r :: r in Filter(resources, Keeper(f)) <==> r in resources && Keeps(r, f)
  {
    FilterIsSubsequence(resources, Keeper(f));
    forall r
      ensures r in Filter(resources, Keeper(f)) <==> r in resources && Keeps(r, f)
    {
      FilterMembership(resources, Keeper(f), r);
    }
  }

  /** With every filter at its default the whole list is shown. */
  lemma DefaultFiltersKeepAll(resources: seq<Resource>)
    ensures Filter(resources, Keeper(DEFAULT_FILTERS)) == resources
  {
    FilterKeepsAll(resources, Keeper(DEFAULT_FILTERS));
  }

  // ----- generateRecommendations -----

  const MAX_RECOMMENDATIONS := 6

  /** The pathway-specific test for a recommended resource. */
  predicate Recommends(carePathway: Option<string>, r: Resource) {
    if carePathway == Some("chronic_pain") then
      Lists(r.topics, "pain_science") || Lists(r.topics, "self_management")
      || Lists(r.relatedDiagnosis, "chronic_pain")
    else if carePathway == Some("post_operative") then
      Lists(r.topics, "postoperative_care") || Lists(r.topics, "exercise_fundamentals")
    else
      Lists(r.topics, "pain_science") || r.difficultyLevel == Some("beginner")
  }

  function Recommender(carePathway: Option<string>): Resource -> bool {
    r => Recommends(carePathway, r)
  }

  /** generateRecommendations: the first six resources the patient's pathway
      recommends, in list order. */
  function GenerateRecommendations(all: seq<Resource>, patient: Patients.Patient): (r: seq<Resource>)
    ensures |r| <= MAX_RECOMMENDATIONS
    ensures forall i :: 0 <= i < |r| ==> r[i] in all && Recommends(patient.carePathway, r[i])
    ensures IsSubsequence(r, all)
    ensures |Filter(all, Recommender(patient.carePathway))| <= MAX_RECOMMENDATIONS ==>
      r == Filter(all, Recommender(patient.carePathway))
    ensures r <= Filter(all, Recommender(patient.carePathway))
    ensures |r| == if |Filter(all, Recommender(patient.carePathway))| < MAX_RECOMMENDATIONS
      then |Filter(all, Recommender(patient.carePathway))| else MAX_RECOMMENDATIONS
  {
    var matching := Filter(all, Recommender(patient.carePathway));
    FilterIsSubsequence(all, Recommender(patient.carePathway));
    PrefixIsSubsequence(Take(matching, MAX_RECOMMENDATIONS), matching, all);
    Take(matching, MAX_RECOMMENDATIONS)
  }

  /** Recommendations are computed for the first listed patient, and stay
      empty when there is none. */
  function RecommendationsFor(all: seq<Resource>, patients: seq<Patients.Patient>): (r: seq<Resource>)
    ensures patients == [] ==> r == []
    ensures patients != [] ==> r == GenerateRecommendations(all, patients[0])
  {
    if patients == [] then [] else GenerateRecommendations(all, patients[0])
  }

  // ----- engagements -----

  /** A stored engagement; the counters and flags may be absent. */
  datatype Engagement = Engagement(
    id: string,
    resourceId: string,
    patientId: string,
    viewCount: Option<int>,
    lastViewedAt: Option<string>,
    liked: Option<bool>)

  /** The lookup as a function of the list: each entry overwrites the one
      stored under its resource id. */
  function LookupOf(engagements: seq<Engagement>): map<string, Engagement> {
    if engagements == [] then map[]
    else
      var last := engagements[|engagements| - 1];
      LookupOf(engagements[..|engagements| - 1])[last.resourceId := last]
  }

  /** The forEach that builds the lookup. */
  method BuildLookup(engagements: seq<Engagement>) returns (lookup: map<string, Engagement>)
    ensures lookup == LookupOf(engagements)
  {
    lookup := map[];
    var i := 0;
    while i < |engagements|
      invariant 0 <= i <= |engagements|
      invariant lookup == LookupOf(engagements[..i])
    {
      assert engagements[..i + 1][..i] == engagements[..i];
      lookup := lookup[engagements[i].resourceId := engagements[i]];
      i := i + 1;
    }
    assert engagements[..i] == engagements;
  }

  /** The lookup is keyed by exactly the listed resource ids, and each key
      holds the last entry carrying it. */
  lemma {:induction false} LookupLastWins(engagements: seq<Engagement>, key: string)
    ensures key in LookupOf(engagements) <==> exists i :: 0 <= i < |engagements| && engagements[i].resourceId == key
    ensures key in LookupOf(engagements) ==>
      exists i :: 0 <= i < |engagements| && engagements[i] == LookupOf(engagements)[key]
        && engagements[i].resourceId == key
        && forall j :: i < j < |engagements| ==> engagements[j].resourceId != key
  {
    if engagements != [] {
      var n := |engagements| - 1;
      var init := engagements[..n];
      LookupLastWins(init, key);
      if engagements[n].resourceId != key && key in LookupOf(init) {
        var i :| 0 <= i < |init| && init[i] == LookupOf(init)[key] && init[i].resourceId == key
          && forall j :: i < j < |init| ==> init[j].resourceId != key;
        assert engagements[i] == init[i];
        assert forall j :: i < j < |engagements| ==> engagements[j].resourceId != key by {
          forall j | i < j < |engagements|
            ensures engagements[j].resourceId != key
          {
            if j < n {
              assert engagements[j] == init[j];
            }
          }
        }
      }
      if engagements[n].resourceId != key && key !in LookupOf(init) {
        forall i | 0 <= i < |engagements|
          ensures engagements[i].resourceId != key
        {
          if i < n {
            assert engagements[i] == init[i];
          }
        }
      }
      if key in LookupOf(init) {
        var i :| 0 <= i < |init| && init[i].resourceId == key;
        assert engagements[i] == init[i];
      }
    }
  }

  /** The object a view or a like sends; `id` is present when an existing
      engagement was spread into it. */
  datatype Payload = Payload(
    resourceId: string,
    patientId: string,
    id: Option<string>,
    viewCount: Option<int>,
    lastViewedAt: Option<string>,
    liked: Option<bool>)

  /** The entity call updateEngagement makes. */
  datatype Write = Create(payload: Payload) | Update(engagementId: string, payload: Payload)

  const CURRENT_PATIENT := "current_patient"

  /** A view: the count goes one past the stored count (absent or 0 counts
      as 0) and the view time is `now`; an existing engagement is updated,
      otherwise one is created. */
  function ViewWrite(lookup: map<string, Engagement>, resourceId: string, now: string): (w: Write)
    ensures resourceId in lookup <==> w.Update?
    ensures resourceId in lookup ==> w.engagementId == lookup[resourceId].id
    ensures w.payload.resourceId == resourceId && w.payload.patientId == CURRENT_PATIENT
    ensures w.payload.lastViewedAt == Some(now) && w.payload.liked.None? && w.payload.id.None?
    ensures resourceId !in lookup ==> w.payload.viewCount == Some(1)
    ensures resourceId in lookup ==> w.payload.viewCount == Some(lookup[resourceId].viewCount.GetOr(0) + 1)
  {
    var count := if resourceId in lookup then lookup[resourceId].viewCount.GetOr(0) else 0;
    var payload := Payload(resourceId, CURRENT_PATIENT, None, Some(count + 1), Some(now), None);
    if resourceId in lookup then Update(lookup[resourceId].id, payload) else Create(payload)
  }

  /** `{...currentEngagement}` as a payload. */
  function Spread(e: Engagement): Payload {
    Payload(e.resourceId, e.patientId, Some(e.id), e.viewCount, e.lastViewedAt, e.liked)
  }

  /** A like as written: the toggled flag is placed before the spread of
      the stored engagement, so a stored `liked` overrides it. */
  function LikeWriteAsWritten(lookup: map<string, Engagement>, resourceId: string): (w: Write)
    ensures resourceId !in lookup ==> w == Create(Payload(resourceId, CURRENT_PATIENT, None, None, None, Some(true)))
    ensures resourceId in lookup ==> w.Update? && w.engagementId == lookup[resourceId].id
    ensures resourceId in lookup && lookup[resourceId].liked.None? ==> w.payload.liked == Some(true)
  {
    if resourceId !in lookup then
      Create(Payload(resourceId, CURRENT_PATIENT, None, None, None, Some(true)))
    else
      var e := lookup[resourceId];
      var spread := Spread(e);
      Update(e.id, spread.(liked := if e.liked.Some? then e.liked else Some(true)))
  }

  /** The discrepancy: a resource already liked is sent as liked again, so
      a second click never removes the like. */
  lemma LikeNeverUnlikes(lookup: map<string, Engagement>, resourceId: string)
    requires resourceId in lookup && lookup[resourceId].liked == Some(true)
    ensures LikeWriteAsWritten(lookup, resourceId).payload.liked == Some(true)
    ensures LikeWriteAsWritten(lookup, resourceId).payload == Spread(lookup[resourceId])
  {
  }

  /** A like with the toggled flag taking precedence over the stored one. */
  function LikeWrite(lookup: map<string, Engagement>, resourceId: string): (w: Write)
    ensures resourceId in lookup <==> w.Update?
    ensures resourceId in lookup ==> w.engagementId == lookup[resourceId].id
    ensures w.payload.liked == Some(!(resourceId in lookup && lookup[resourceId].liked == Some(true)))
    ensures resourceId in lookup ==> w.payload.(liked := lookup[resourceId].liked) == Spread(lookup[resourceId])
  {
    if resourceId !in lookup then
      Create(Payload(resourceId, CURRENT_PATIENT, None, None, None, Some(true)))
    else
      var e := lookup[resourceId];
      Update(e.id, Spread(e).(liked := Some(e.liked != Some(true))))
  }

  /** Liking twice, with the first write stored, restores the flag. */
  lemma LikeTwiceRestores(lookup: map<string, Engagement>, resourceId: string)
    requires resourceId in lookup && lookup[resourceId].liked.Some?
    ensures
      var first := LikeWrite(lookup, resourceId).payload.liked;
      var stored := lookup[resourceId].(liked := first);
      LikeWrite(lookup[resourceId := stored], resourceId).payload.liked == lookup[resourceId].liked
  {
    var e := lookup[resourceId];
    var first := LikeWrite(lookup, resourceId).payload.liked;
    assert first == Some(e.liked != Some(true));
    var updated := lookup[resourceId := e.(liked := first)];
    assert updated[resourceId].liked == first;
    assert LikeWrite(updated, resourceId).payload.liked == Some(first != Some(true));
    if e.liked == Some(true) {
      assert first == Some(false);
    } else {
      assert e.liked.Some?;
      assert e.liked.value == false;
      assert first == Some(true);
    }
  }

  // ----- option lists -----

  function BodyRegionLists(resources: seq<Resource>): seq<seq<string>> {
    seq(|resources|, i requires 0 <= i < |resources| => resources[i].bodyRegions.GetOr([]))
  }

  lemma BodyRegionsFlattened(resources: seq<Resource>, x: string)
    ensures x in Flatten(BodyRegionLists(resources)) <==>
      exists i :: 0 <= i < |resources| && Lists(resources[i].bodyRegions, x)
  {
    var lists := BodyRegionLists(resources);
    var all := Flatten(lists);
    if x in all {
      var k :| 0 <= k < |all| && all[k] == x;
      var j :| 0 <= j < |lists| && all[k] in lists[j];
      assert Lists(resources[j].bodyRegions, x);
    }
    if exists i :: 0 <= i < |resources| && Lists(resources[i].bodyRegions, x) {
      var i :| 0 <= i < |resources| && Lists(resources[i].bodyRegions, x);
      var k :| 0 <= k < |lists[i]| && lists[i][k] == x;
      assert lists[i][k] in all;
    }
  }

  /** `[...new Set(resources.flatMap(r => r.body_regions || []))]` */
  function UniqueBodyRegions(resources: seq<Resource>): (r: seq<string>)
    ensures NoDuplicates(r)
    ensures forall x :: x in r <==> exists i :: 0 <= i < |resources| && Lists(resources[i].bodyRegions, x)
  {
    var regions := Flatten(BodyRegionLists(resources));
    assert forall x :: x in regions <==> exists i :: 0 <= i < |resources| && Lists(resources[i].bodyRegions, x) by {
      forall x {
        BodyRegionsFlattened(resources, x);
      }
    }
    Dedup(regions)
  }

  /** `resources.map(r => r.type)` */
  function Kinds(resources: seq<Resource>): (r: seq<string>)
    ensures forall x :: x in r <==> exists i :: 0 <= i < |resources| && resources[i].kind == x
  {
    var kinds := seq(|resources|, i requires 0 <= i < |resources| => resources[i].kind);
    assert forall x :: x in kinds <==> exists i :: 0 <= i < |resources| && resources[i].kind == x by {
      forall x | exists i :: 0 <= i < |resources| && resources[i].kind == x
        ensures x in kinds
      {
        var i :| 0 <= i < |resources| && resources[i].kind == x;
        assert kinds[i] == x;
      }
    }
    kinds
  }

  /** `[...new Set(resources.map(r => r.type))]` */
  function UniqueKinds(resources: seq<Resource>): (r: seq<string>)
    ensures NoDuplicates(r)
    ensures forall x :: x in r <==> exists i :: 0 <= i < |resources| && resources[i].kind == x
  {
    Dedup(Kinds(resources))
  }

  /** `resources.map(r => r.difficulty_level).filter(Boolean)` */
  function Difficulties(resources: seq<Resource>): (r: seq<string>)
    ensures forall x :: x in r <==> x != "" && exists i :: 0 <= i < |resources| && resources[i].difficultyLevel == Some(x)
  {
    var levels := seq(|resources|, i requires 0 <= i < |resources| => resources[i].difficultyLevel);
    var truthy := (d: Option<string>) => d.Some? && d.value != "";
    var present := Filter(levels, truthy);
    var values := seq(|present|, i requires 0 <= i < |present| => present[i].value);
    assert forall x :: x in values <==> x != "" && exists i :: 0 <= i < |resources| && resources[i].difficultyLevel == Some(x) by {
      forall x
        ensures x in values <==> x != "" && exists i :: 0 <= i < |resources| && resources[i].difficultyLevel == Some(x)
      {
        FilterMembership(levels, truthy, Some(x));
        if x in values {
          var k :| 0 <= k < |values| && values[k] == x;
          assert present[k] == Some(x);
          var i :| 0 <= i < |levels| && levels[i] == Some(x);
        }
        if x != "" && exists i :: 0 <= i < |resources| && resources[i].difficultyLevel == Some(x) {
          var i :| 0 <= i < |resources| && resources[i].difficultyLevel == Some(x);
          assert levels[i] == Some(x);
          var k :| 0 <= k < |present| && present[k] == Some(x);
          assert values[k] == x;
        }
      }
    }
    values
  }

  /** `[...new Set(resources.map(r => r.difficulty_level).filter(Boolean))]` */
  function UniqueDifficulties(resources: seq<Resource>): (r: seq<string>)
    ensures NoDuplicates(r)
    ensures forall x :: x in r <==> x != "" && exists i :: 0 <= i < |resources| && resources[i].difficultyLevel == Some(x)
  {
    Dedup(Difficulties(resources))
  }

  /** The body regions are listed in the order each first appears. */
  lemma UniqueBodyRegionsOrder(resources: seq<Resource>)
    ensures forall i, j :: 0 <= i < j < |UniqueBodyRegions(resources)| ==>
      FirstIndex(Flatten(BodyRegionLists(resources)), UniqueBodyRegions(resources)[i])
        < FirstIndex(Flatten(BodyRegionLists(resources)), UniqueBodyRegions(resources)[j])
  {
    DedupOrder(Flatten(BodyRegionLists(resources)));
  }

  /** The resource types are listed in the order each first appears. */
  lemma UniqueKindsOrder(resources: seq<Resource>)
    ensures forall i, j :: 0 <= i < j < |UniqueKinds(resources)| ==>
      FirstIndex(Kinds(resources), UniqueKinds(resources)[i]) < FirstIndex(Kinds(resources), UniqueKinds(resources)[j])
  {
    DedupOrder(Kinds(resources));
  }

  /** The difficulty levels are listed in the order each first appears. */
  lemma UniqueDifficultiesOrder(resources: seq<Resource>)
    ensures forall i, j :: 0 <= i < j < |UniqueDifficulties(resources)| ==>
      FirstIndex(Difficulties(resources), UniqueDifficulties(resources)[i])
        < FirstIndex(Difficulties(resources), UniqueDifficulties(resources)[j])
  {
    DedupOrder(Difficulties(resources));
  }
}

/** The logic of src/pages/Providers.jsx: the provider filter chain, the
    region and specialty option lists, the type label and the
    specialization badges of a provider card. */
module Providers {
  import opened Js
  import opened Text
  import opened Seqs

  /** A listed provider. An absent region or provider type is the empty
      string. */
  datatype Provider = Provider(
    name: string,
    specializations: Option<seq<string>>,
    city: string,
    region: string,
    providerType: string)

  // ----- filterProviders -----

  /** The selections the filter reads; "" disables the search, "all" the
      region and the specialty filters. */
  datatype Filters = Filters(searchTerm: string, region: string, specialty: string)

  const DEFAULT_FILTERS := Filters("", "all", "all")

  predicate MatchesSearch(p: Provider, term: string) {
    ContainsIgnoringCase(p.name, term)
    || (p.specializations.Some? && SomeContainsIgnoringCase(p.specializations.value, term))
    || ContainsIgnoringCase(p.city, term)
  }

  /** The specialty filter accepts the provider type or any listed
      specialization. */
  predicate OffersSpecialty(p: Provider, specialty: string) {
    p.providerType == specialty || (p.specializations.Some? && specialty in p.specializations.value)
  }

  predicate PassesSearch(p: Provider, f: Filters) {
    f.searchTerm == "" || MatchesSearch(p, f.searchTerm)
  }

  predicate PassesRegion(p: Provider, f: Filters) {
    f.region == "all" || p.region == f.region
  }

  predicate PassesSpecialty(p: Provider, f: Filters) {
    f.specialty == "all" || OffersSpecialty(p, f.specialty)
  }

  predicate Keeps(p: Provider, f: Filters) {
    PassesSearch(p, f) && PassesRegion(p, f) && PassesSpecialty(p, f)
  }

  function Keeper(f: Filters): Provider -> bool {
    p => Keeps(p, f)
  }

  /** filterProviders: a copy of the list narrowed by each active filter in
      turn. */
  method FilterProviders(providers: seq<Provider>, f: Filters) returns (filtered: seq<Provider>)
    ensures filtered == Filter(providers, Keeper(f))
  {
    ghost var upto1: Provider -> bool := p => PassesSearch(p, f);
    ghost var upto2: Provider -> bool := p => PassesSearch(p, f) && PassesRegion(p, f);

    filtered := providers;
    if f.searchTerm != "" {
      filtered := Filter(filtered, (p: Provider) => MatchesSearch(p, f.searchTerm));
      FilterCongruent(providers, (p: Provider) => MatchesSearch(p, f.searchTerm), upto1);
    } else {
      FilterKeepsAll(providers, upto1);
    }
    assert filtered == Filter(providers, upto1);

    if f.region != "all" {
      filtered := Filter(filtered, (p: Provider) => p.region == f.region);
      FilterChain(providers, upto1, (p: Provider) => p.region == f.region, upto2);
    } else {
      FilterCongruent(providers, upto1, upto2);
    }
    assert filtered == Filter(providers, upto2);

    if f.specialty != "all" {
      filtered := Filter(filtered, (p: Provider) => OffersSpecialty(p, f.specialty));
      FilterChain(providers, upto2, (p: Provider) => OffersSpecialty(p, f.specialty), Keeper(f));
    } else {
      FilterCongruent(providers, upto2, Keeper(f));
    }
  }

  /** The filtered list keeps the providers' order and holds exactly those
      passing every active filter; the defaults keep everything. */
  lemma FilteredProviders(providers: seq<Provider>, f: Filters)
    ensures IsSubsequence(Filter(providers, Keeper(f)), providers)
    ensures forall p :: p in Filter(providers, Keeper(f)) <==> p in providers && Keeps(p, f)
    ensures Filter(providers, Keeper(DEFAULT_FILTERS)) == providers
  {
    FilterIsSubsequence(providers, Keeper(f));
    forall p
      ensures p in Filter(providers, Keeper(f)) <==> p in providers && Keeps(p, f)
    {
      FilterMembership(providers, Keeper(f), p);
    }
    FilterKeepsAll(providers, Keeper(DEFAULT_FILTERS));
  }

  // ----- option lists -----

  function NonEmpty(): string -> bool {
    x => x != ""
  }

  function Regions(providers: seq<Provider>): seq<string> {
    seq(|providers|, i requires 0 <= i < |providers| => providers[i].region)
  }

  function Types(providers: seq<Provider>): seq<string> {
    seq(|providers|, i requires 0 <= i < |providers| => providers[i].providerType)
  }

  function SpecializationLists(providers: seq<Provider>): seq<seq<string>> {
    seq(|providers|, i requires 0 <= i < |providers| => providers[i].specializations.GetOr([]))
  }

  /** `[...new Set(providers.map(p => p.region))].filter(Boolean)` */
  function UniqueRegions(providers: seq<Provider>): (r: seq<string>)
    ensures NoDuplicates(r)
    ensures forall x :: x in r <==> x != "" && exists i :: 0 <= i < |providers| && providers[i].region == x
  {
    var regions := Regions(providers);
    var r := Filter(Dedup(regions), NonEmpty());
    FilterNoDuplicates(Dedup(regions), NonEmpty());
    forall x
      ensures x in r <==> x != "" && exists i :: 0 <= i < |providers| && providers[i].region == x
    {
      FilterMembership(Dedup(regions), NonEmpty(), x);
      if x in regions {
        var i :| 0 <= i < |regions| && regions[i] == x;
      }
      if exists i :: 0 <= i < |providers| && providers[i].region == x {
        var i :| 0 <= i < |providers| && providers[i].region == x;
        assert regions[i] == x;
      }
    }
    r
  }

  /** The region list is in the order regions first appear. */
  lemma UniqueRegionsOrder(providers: seq<Provider>)
    ensures IsSubsequence(UniqueRegions(providers), Dedup(Regions(providers)))
  {
    FilterIsSubsequence(Dedup(Regions(providers)), NonEmpty());
  }

  /** The provider types followed by every specialization, before
      de-duplication. */
  function SpecialtyCandidates(providers: seq<Provider>): seq<string> {
    Types(providers) + Flatten(SpecializationLists(providers))
  }

  lemma CandidateMembership(providers: seq<Provider>, x: string)
    ensures x in SpecialtyCandidates(providers) <==>
      exists i :: 0 <= i < |providers| && OffersSpecialty(providers[i], x)
  {
    var types, lists := Types(providers), SpecializationLists(providers);
    var flat := Flatten(lists);
    if x in types {
      var i :| 0 <= i < |types| && types[i] == x;
    }
    if x in flat {
      var k :| 0 <= k < |flat| && flat[k] == x;
      var j :| 0 <= j < |lists| && flat[k] in lists[j];
      assert providers[j].specializations.Some? && x in providers[j].specializations.value;
    }
    if exists i :: 0 <= i < |providers| && OffersSpecialty(providers[i], x) {
      var i :| 0 <= i < |providers| && OffersSpecialty(providers[i], x);
      if providers[i].providerType == x {
        assert types[i] == x;
      } else {
        var k :| 0 <= k < |lists[i]| && lists[i][k] == x;
        assert lists[i][k] in flat;
      }
    }
  }

  /** `[...new Set([...types, ...specializations])].filter(Boolean)`: every
      provider type or specialization once, types first. */
  function UniqueSpecialties(providers: seq<Provider>): (r: seq<string>)
    ensures NoDuplicates(r)
    ensures forall x :: x in r <==> x != "" && exists i :: 0 <= i < |providers| && OffersSpecialty(providers[i], x)
    ensures Filter(Dedup(Types(providers)), NonEmpty()) <= r
  {
    var candidates := SpecialtyCandidates(providers);
    var r := Filter(Dedup(candidates), NonEmpty());
    FilterNoDuplicates(Dedup(candidates), NonEmpty());
    forall x
      ensures x in r <==> x != "" && exists i :: 0 <= i < |providers| && OffersSpecialty(providers[i], x)
    {
      FilterMembership(Dedup(candidates), NonEmpty(), x);
      CandidateMembership(providers, x);
    }
    DedupPrefix(Types(providers), Flatten(SpecializationLists(providers)));
    FilterPrefix(Dedup(Types(providers)), Dedup(candidates), NonEmpty());
    r
  }

  /** The specialty list is in the order each type or specialization first
      appears among the candidates. */
  lemma UniqueSpecialtiesOrder(providers: seq<Provider>)
    ensures IsSubsequence(UniqueSpecialties(providers), Dedup(SpecialtyCandidates(providers)))
  {
    FilterIsSubsequence(Dedup(SpecialtyCandidates(providers)), NonEmpty());
  }

  // ----- provider card -----

  const TYPE_LABELS: map<string, string> := map[
    "physiotherapy_clinic" := "Physiotherapy Clinic",
    "orthopedic_surgeon" := "Orthopedic Surgeon",
    "sports_medicine" := "Sports Medicine",
    "pain_specialist" := "Pain Specialist",
    "rheumatologist" := "Rheumatologist",
    "neurologist" := "Neurologist",
    "hospital" := "Hospital",
    "diagnostic_center" := "Diagnostic Center"]

  /** getProviderTypeLabel: the table label, or the type with its first '_'
      turned into a space. */
  function ProviderTypeLabel(providerType: string): (r: string)
    ensures providerType in TYPE_LABELS ==> r == TYPE_LABELS[providerType]
    ensures providerType !in TYPE_LABELS ==> |r| == |providerType|
    ensures providerType !in TYPE_LABELS && '_' !in providerType ==> r == providerType
    ensures providerType !in TYPE_LABELS && '_' in providerType ==>
      var i := IndexOf(providerType, '_');
      r[i] == ' ' && r[..i] == providerType[..i] && r[i + 1..] == providerType[i + 1..]
  {
    if providerType in TYPE_LABELS then TYPE_LABELS[providerType] else ReplaceFirst(providerType, '_', ' ')
  }

  const SHOWN_SPECIALIZATIONS := 3

  /** The badges of a card: the first three specializations, then
      "+n more" for the rest; no badges when there are none. */
  function SpecializationBadges(specializations: Option<seq<string>>): (r: seq<string>)
    ensures specializations.None? ==> r == []
    ensures specializations.Some? && |specializations.value| <= SHOWN_SPECIALIZATIONS ==> r == specializations.value
    ensures specializations.Some? && |specializations.value| > SHOWN_SPECIALIZATIONS ==>
      |r| == SHOWN_SPECIALIZATIONS + 1 && r[..SHOWN_SPECIALIZATIONS] == specializations.value[..SHOWN_SPECIALIZATIONS]
      && r[SHOWN_SPECIALIZATIONS] == "+" + IntToString(|specializations.value| - SHOWN_SPECIALIZATIONS) + " more"
  {
    if specializations.None? || |specializations.value| == 0 then []
    else
      var specs := specializations.value;
      var more := if |specs| > SHOWN_SPECIALIZATIONS
        then ["+" + IntToString(|specs| - SHOWN_SPECIALIZATIONS) + " more"] else [];
      Take(specs, SHOWN_SPECIALIZATIONS) + more
  }
}

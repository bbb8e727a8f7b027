/** The creator directory (components/CreatorContainer.tsx): loading creator
    profiles with their owners and travel schedules, the search-and-country filter
    with its 30-day travel window, and the two schedule lists shown on each card. */
module CreatorDirectory {
  import opened Wrappers
  import opened Text
  import opened Seqs
  import opened Profiles

  /** Instants are integer millisecond timestamps, as `Date` compares them. */
  type Timestamp = int

  const DayMillis: int := 24 * 60 * 60 * 1000

  /** How long before a trip starts it already counts for matching. */
  const TravelWindowLead: int := 30 * DayMillis

  /** How many upcoming schedules a card lists. */
  const UpcomingShown: nat := 3

  /** A `creator_profile` row, with its joined `profiles` row once fetched. */
  datatype CreatorProfile = CreatorProfile(
    id: string,
    creatorId: string,
    description: string,
    country: string,
    city: string,
    profile: Option<Profile>)

  /** A `creator_travel_schedule` row. */
  datatype TravelSchedule = TravelSchedule(
    id: string,
    creatorId: string,
    country: string,
    city: string,
    startDate: Timestamp,
    endDate: Timestamp)

  /** The `travelSchedules` state: creator id to that creator's schedules. */
  type ScheduleMap = map<string, seq<TravelSchedule>>

  // ---------------------------------------------------------------------------
  // The two date predicates

  /** `isWithinTravelWindow`: from 30 days before the start to the end, both inclusive. */
  predicate IsWithinTravelWindow(s: TravelSchedule, today: Timestamp)
  {
    s.startDate - TravelWindowLead <= today && today <= s.endDate
  }

  /** `isCurrentOrUpcoming`: the trip has not ended; there is no lower bound. */
  predicate IsCurrentOrUpcoming(s: TravelSchedule, today: Timestamp)
  {
    s.endDate >= today
  }

  /** Every schedule that can make a creator match is also displayed. */
  lemma WindowImpliesDisplayed(s: TravelSchedule, today: Timestamp)
    requires IsWithinTravelWindow(s, today)
    ensures IsCurrentOrUpcoming(s, today)
  {
  }

  /** A trip starting more than 30 days from now is displayed but cannot cause a match. */
  lemma FarTripDisplayedButNotMatched(s: TravelSchedule, today: Timestamp)
    requires today < s.startDate - TravelWindowLead && s.startDate <= s.endDate
    ensures IsCurrentOrUpcoming(s, today) && !IsWithinTravelWindow(s, today)
  {
  }

  // ---------------------------------------------------------------------------
  // The query and country clauses

  /** `scheduleMatchesSearch`: the query occurs, ignoring case, in the schedule's country or city. */
  predicate ScheduleMatchesSearch(s: TravelSchedule, query: string)
  {
    IncludesIgnoringCase(s.country, query) || IncludesIgnoringCase(s.city, query)
  }

  /** `scheduleMatchesCountry`: exact, case-sensitive equality. */
  predicate ScheduleMatchesCountry(s: TravelSchedule, country: string)
  {
    s.country == country
  }

  /** `travelSchedules[id] || []`: a creator without an entry has no schedules. */
  function SchedulesOf(m: ScheduleMap, creatorId: string): (r: seq<TravelSchedule>)
    ensures creatorId !in m ==> r == []
    ensures creatorId in m ==> r == m[creatorId]
  {
    if creatorId in m then m[creatorId] else []
  }

  /** A creator without a map entry meets the two clauses by its own fields alone: no
      schedule can decide them. */
  lemma UnlistedCreatorMatchesOnOwnFields(c: CreatorProfile, m: ScheduleMap, query: string, country: string, today: Timestamp)
    requires c.creatorId !in m
    ensures QueryClause(c, m, query, today) <==> query == "" || OwnFieldsMatchQuery(c, query)
    ensures CountryClause(c, m, country, today) <==> country == "" || c.country == country
  {
  }

  /** The case-insensitive test against the creator's own fields and the owner's
      username and languages (absent when the owner row was not joined). */
  predicate OwnFieldsMatchQuery(c: CreatorProfile, query: string)
  {
    IncludesIgnoringCase(c.description, query)
    || (c.profile.Some? && IncludesIgnoringCase(c.profile.value.username, query))
    || IncludesIgnoringCase(c.city, query)
    || IncludesIgnoringCase(c.country, query)
    || (c.profile.Some? && exists lang :: lang in c.profile.value.languages && IncludesIgnoringCase(lang, query))
  }

  /** Some in-window schedule of the creator matches the query. */
  predicate SomeScheduleMatchesSearch(schedules: seq<TravelSchedule>, query: string, today: Timestamp)
  {
    exists s :: s in schedules && IsWithinTravelWindow(s, today) && ScheduleMatchesSearch(s, query)
  }

  /** Some in-window schedule of the creator is exactly in the selected country. */
  predicate SomeScheduleMatchesCountry(schedules: seq<TravelSchedule>, country: string, today: Timestamp)
  {
    exists s :: s in schedules && IsWithinTravelWindow(s, today) && ScheduleMatchesCountry(s, country)
  }

  /** The query clause: vacuous for an empty query, else own fields, else in-window schedules. */
  predicate QueryClause(c: CreatorProfile, m: ScheduleMap, query: string, today: Timestamp)
  {
    query == ""
    || OwnFieldsMatchQuery(c, query)
    || SomeScheduleMatchesSearch(SchedulesOf(m, c.creatorId), query, today)
  }

  /** The country clause: vacuous for no selection, else the creator's own country, else
      an in-window schedule in that country. */
  predicate CountryClause(c: CreatorProfile, m: ScheduleMap, country: string, today: Timestamp)
  {
    country == ""
    || c.country == country
    || SomeScheduleMatchesCountry(SchedulesOf(m, c.creatorId), country, today)
  }

  /** A creator is kept when it satisfies both clauses. */
  predicate MatchesFilters(c: CreatorProfile, m: ScheduleMap, query: string, country: string, today: Timestamp)
  {
    QueryClause(c, m, query, today) && CountryClause(c, m, country, today)
  }

  /** `MatchesFilters` as a filter predicate. */
  function Matcher(m: ScheduleMap, query: string, country: string, today: Timestamp): CreatorProfile -> bool
  {
    (c: CreatorProfile) => MatchesFilters(c, m, query, country, today)
  }

  // ---------------------------------------------------------------------------
  // The filter effect (lines 114-220)

  /** The contents of `matchingCreatorIds` once every creator has been visited. */
  function MatchingIds(creators: seq<CreatorProfile>, m: ScheduleMap, query: string, country: string, today: Timestamp): set<string>
  {
    MatchingIdsUpTo(creators, |creators|, m, query, country, today)
  }

  /** The contents of `matchingCreatorIds` after the first `n` creators. */
  function MatchingIdsUpTo(creators: seq<CreatorProfile>, n: nat, m: ScheduleMap, query: string, country: string, today: Timestamp): set<string>
    requires n <= |creators|
  {
    set k | 0 <= k < n && MatchesFilters(creators[k], m, query, country, today) :: creators[k].creatorId
  }

  /** Visiting one more creator adds its id exactly when it satisfies both clauses. */
  lemma MatchingIdsStep(creators: seq<CreatorProfile>, n: nat, m: ScheduleMap, query: string, country: string, today: Timestamp)
    requires n < |creators|
    ensures MatchingIdsUpTo(creators, n + 1, m, query, country, today)
            == MatchingIdsUpTo(creators, n, m, query, country, today)
               + (if MatchesFilters(creators[n], m, query, country, today) then {creators[n].creatorId} else {})
  {
  }

  /** `creatorProfiles.filter((creator) => ids.has(creator.creator_id))`. */
  function KeepIds(creators: seq<CreatorProfile>, ids: set<string>): seq<CreatorProfile>
  {
    Filter((c: CreatorProfile) => c.creatorId in ids, creators)
  }

  /** The filtered list the effect computes from the full loaded list. */
  function FilteredCreators(creators: seq<CreatorProfile>, m: ScheduleMap, query: string, country: string, today: Timestamp): seq<CreatorProfile>
  {
    KeepIds(creators, MatchingIds(creators, m, query, country, today))
  }

  /** The `forEach` over the loaded creators: the two flags start true, are decided by the
      own fields first and by the in-window schedules only when those fail, and a creator
      satisfying both flags has its id added to the set. */
  method CollectMatchingIds(creators: seq<CreatorProfile>, m: ScheduleMap, searchQuery: string, selectedCountry: string, today: Timestamp)
    returns (ids: set<string>)
    ensures ids == MatchingIds(creators, m, searchQuery, selectedCountry, today)
  {
    ids := {};
    for k := 0 to |creators|
      invariant ids == MatchingIdsUpTo(creators, k, m, searchQuery, selectedCountry, today)
    {
      var creator := creators[k];
      var matchesSearch := true;
      var matchesCountry := true;
      if searchQuery != "" {
        matchesSearch := OwnFieldsMatchQuery(creator, searchQuery);
        if !matchesSearch {
          var creatorSchedules := SchedulesOf(m, creator.creatorId);
          matchesSearch := SomeScheduleMatchesSearch(creatorSchedules, searchQuery, today);
        }
      }
      if selectedCountry != "" {
        matchesCountry := creator.country == selectedCountry;
        if !matchesCountry {
          var creatorSchedules := SchedulesOf(m, creator.creatorId);
          matchesCountry := SomeScheduleMatchesCountry(creatorSchedules, selectedCountry, today);
        }
      }
      assert matchesSearch == QueryClause(creator, m, searchQuery, today);
      assert matchesCountry == CountryClause(creator, m, selectedCountry, today);
      MatchingIdsStep(creators, k, m, searchQuery, selectedCountry, today);
      if matchesSearch && matchesCountry {
        ids := ids + {creator.creatorId};
      }
    }
  }

  /** The results of the filter effect: the loaded creators whose id was collected, in load order. */
  method SelectCreators(creators: seq<CreatorProfile>, m: ScheduleMap, searchQuery: string, selectedCountry: string, today: Timestamp)
    returns (results: seq<CreatorProfile>)
    ensures results == FilteredCreators(creators, m, searchQuery, selectedCountry, today)
  {
    var ids := CollectMatchingIds(creators, m, searchQuery, selectedCountry, today);
    results := KeepIds(creators, ids);
  }

  /** No two loaded rows belong to the same creator (`creator_profile` is keyed by creator). */
  predicate UniqueCreatorIds(creators: seq<CreatorProfile>)
  {
    forall i, j :: 0 <= i < j < |creators| ==> creators[i].creatorId != creators[j].creatorId
  }

  /** With no query and no country every loaded creator is kept, in load order. */
  lemma {:induction false} EmptyFiltersKeepAll(creators: seq<CreatorProfile>, m: ScheduleMap, today: Timestamp)
    ensures FilteredCreators(creators, m, "", "", today) == creators
  {
    var ids := MatchingIds(creators, m, "", "", today);
    forall i | 0 <= i < |creators| ensures creators[i].creatorId in ids {
      assert MatchesFilters(creators[i], m, "", "", today);
    }
    FilterKeepsAll((c: CreatorProfile) => c.creatorId in ids, creators);
  }

  /** The result is a sublist of the loaded list in its order, and no creator appears more
      often than it was loaded, however many of its schedules match. */
  lemma {:induction false} FilteredIsSublist(creators: seq<CreatorProfile>, m: ScheduleMap, query: string, country: string, today: Timestamp)
    ensures IsSubsequence(FilteredCreators(creators, m, query, country, today), creators)
    ensures multiset(FilteredCreators(creators, m, query, country, today)) <= multiset(creators)
  {
    FilterIsSubsequence((c: CreatorProfile) => c.creatorId in MatchingIds(creators, m, query, country, today), creators);
  }

  /** When creator ids are unique the id set changes nothing: the result is exactly the
      creators satisfying both clauses, in load order, each once. */
  lemma {:induction false} FilteredAreExactlyMatching(creators: seq<CreatorProfile>, m: ScheduleMap, query: string, country: string, today: Timestamp)
    requires UniqueCreatorIds(creators)
    ensures FilteredCreators(creators, m, query, country, today)
            == Filter(Matcher(m, query, country, today), creators)
    ensures NoDuplicates(FilteredCreators(creators, m, query, country, today))
  {
    var ids := MatchingIds(creators, m, query, country, today);
    var byId := (c: CreatorProfile) => c.creatorId in ids;
    var byMatch := Matcher(m, query, country, today);
    forall i | 0 <= i < |creators| ensures byId(creators[i]) == byMatch(creators[i]) {
      if creators[i].creatorId in ids {
        var j :| 0 <= j < |creators| && MatchesFilters(creators[j], m, query, country, today) && creators[j].creatorId == creators[i].creatorId;
        assert i == j;
      }
    }
    FilterCongruent(byId, byMatch, creators);
    assert NoDuplicates(creators) by {
      forall i, j | 0 <= i < j < |creators| ensures creators[i] != creators[j] {
        assert creators[i].creatorId != creators[j].creatorId;
      }
    }
    FilterNoDuplicates(byId, creators);
  }

  /** A landscape photographer in Italy, without schedules. */
  const LandscapeCreator := CreatorProfile("p1", "u1", "landscape photographer", "Italy", "Rome", None)

  /** A creator whose own description matches is still dropped when the selected country
      matches neither its country nor an in-window schedule: the clauses are conjoined. */
  lemma {:induction false} OwnMatchStillNeedsCountry(today: Timestamp)
    ensures QueryClause(LandscapeCreator, map[], "landscape", today)
    ensures FilteredCreators([LandscapeCreator], map[], "landscape", "Spain", today) == []
  {
    LandscapeQueryMatches(today);
    LandscapeDropped(today);
  }

  lemma LandscapeQueryMatches(today: Timestamp)
    ensures QueryClause(LandscapeCreator, map[], "landscape", today)
  {
    PrefixIncludedIgnoringCase(LandscapeCreator.description, "landscape");
  }

  lemma {:induction false} LandscapeDropped(today: Timestamp)
    ensures FilteredCreators([LandscapeCreator], map[], "landscape", "Spain", today) == []
  {
    var c := LandscapeCreator;
    assert !CountryClause(c, map[], "Spain", today);
    assert UniqueCreatorIds([c]);
    FilteredAreExactlyMatching([c], map[], "landscape", "Spain", today);
    assert [c][1..] == [];
  }

  /** For two creators with different ids the result keeps each one exactly when it
      satisfies both clauses, in load order. */
  lemma {:induction false} FilteredPair(a: CreatorProfile, b: CreatorProfile, m: ScheduleMap, query: string, country: string, today: Timestamp)
    requires a.creatorId != b.creatorId
    ensures FilteredCreators([a, b], m, query, country, today)
            == (if MatchesFilters(a, m, query, country, today) then [a] else [])
               + (if MatchesFilters(b, m, query, country, today) then [b] else [])
  {
    var s := [a, b];
    assert UniqueCreatorIds(s);
    FilteredAreExactlyMatching(s, m, query, country, today);
    FilterPair(Matcher(m, query, country, today), a, b);
  }

  /** The creators of the two-creator scenario below. A lives in Spain, mentions Barcelona
      and has no map entry; B lives in Italy and has one trip to Madrid, Spain. */
  const CreatorA := CreatorProfile("pa", "ua", "barcelona based", "Spain", "Girona", None)
  const CreatorB := CreatorProfile("pb", "ub", "portrait", "Italy", "Rome", None)

  function TripOfB(today: Timestamp): TravelSchedule
  {
    TravelSchedule("t1", "ub", "Spain", "Madrid", today + 20 * DayMillis, today + 25 * DayMillis)
  }

  function ScenarioMap(today: Timestamp): ScheduleMap
  {
    map["ub" := [TripOfB(today)]]
  }

  lemma ScenarioQueryA(today: Timestamp)
    ensures MatchesFilters(CreatorA, ScenarioMap(today), "barcelona", "", today)
  {
    PrefixIncludedIgnoringCase(CreatorA.description, "barcelona");
  }

  lemma ScenarioQueryB(today: Timestamp)
    ensures !MatchesFilters(CreatorB, ScenarioMap(today), "barcelona", "", today)
  {
    ShortFieldsDoNotMatch(CreatorB, TripOfB(today), "barcelona");
    assert SchedulesOf(ScenarioMap(today), CreatorB.creatorId) == [TripOfB(today)];
  }

  /** A query longer than every field of an unjoined creator and of a schedule matches neither. */
  lemma ShortFieldsDoNotMatch(c: CreatorProfile, s: TravelSchedule, query: string)
    requires c.profile.None?
    requires |c.description| < |query| && |c.city| < |query| && |c.country| < |query|
    requires |s.city| < |query| && |s.country| < |query|
    ensures !OwnFieldsMatchQuery(c, query) && !ScheduleMatchesSearch(s, query)
  {
    NotIncludesLonger(c.description, query);
    NotIncludesLonger(c.city, query);
    NotIncludesLonger(c.country, query);
    NotIncludesLonger(s.city, query);
    NotIncludesLonger(s.country, query);
  }

  lemma ScenarioCountry(today: Timestamp)
    ensures MatchesFilters(CreatorA, ScenarioMap(today), "", "Spain", today)
    ensures MatchesFilters(CreatorB, ScenarioMap(today), "", "Spain", today)
  {
    var trip := TripOfB(today);
    assert SchedulesOf(ScenarioMap(today), CreatorB.creatorId) == [trip];
    assert IsWithinTravelWindow(trip, today);
  }

  /** A query for "barcelona" keeps only A (B's trip matches neither city nor country); the
      country "Spain" keeps A by its own country and B by its in-window trip, in load order. */
  lemma {:induction false} BarcelonaScenario(today: Timestamp)
    ensures FilteredCreators([CreatorA, CreatorB], ScenarioMap(today), "barcelona", "", today) == [CreatorA]
    ensures FilteredCreators([CreatorA, CreatorB], ScenarioMap(today), "", "Spain", today) == [CreatorA, CreatorB]
  {
    BarcelonaQueryScenario(today);
    SpainCountryScenario(today);
  }

  lemma {:induction false} BarcelonaQueryScenario(today: Timestamp)
    ensures FilteredCreators([CreatorA, CreatorB], ScenarioMap(today), "barcelona", "", today) == [CreatorA]
  {
    ScenarioQueryA(today);
    ScenarioQueryB(today);
    FilteredPair(CreatorA, CreatorB, ScenarioMap(today), "barcelona", "", today);
  }

  lemma {:induction false} SpainCountryScenario(today: Timestamp)
    ensures FilteredCreators([CreatorA, CreatorB], ScenarioMap(today), "", "Spain", today) == [CreatorA, CreatorB]
  {
    ScenarioCountry(today);
    FilteredPair(CreatorA, CreatorB, ScenarioMap(today), "", "Spain", today);
  }

  // ---------------------------------------------------------------------------
  // Loading (lines 63-111, 222-253)

  /** `profilesData.map(...)` with `profile: profilesInfo.find(...)`: every row keeps its
      fields and position and carries the first owner row with its creator id, if any. */
  function JoinProfiles(rows: seq<CreatorProfile>, infos: seq<Profile>): (r: seq<CreatorProfile>)
    ensures |r| == |rows|
    ensures forall i :: 0 <= i < |r| ==> r[i].(profile := None) == rows[i].(profile := None)
    ensures forall i :: 0 <= i < |r| && r[i].profile.Some? ==>
              r[i].profile.value in infos && r[i].profile.value.id == rows[i].creatorId
    ensures forall i :: 0 <= i < |r| && r[i].profile.None? ==>
              forall k :: 0 <= k < |infos| ==> infos[k].id != rows[i].creatorId
  {
    if rows == [] then []
    else [rows[0].(profile := FindProfile(infos, rows[0].creatorId))] + JoinProfiles(rows[1..], infos)
  }

  /** `profilesData.map((profile) => profile.creator_id)`. */
  function CreatorIds(rows: seq<CreatorProfile>): (ids: seq<string>)
    ensures |ids| == |rows|
    ensures forall i :: 0 <= i < |rows| ==> ids[i] == rows[i].creatorId
  {
    if rows == [] then [] else [rows[0].creatorId] + CreatorIds(rows[1..])
  }

  /** One schedule per owner: a fetched schedule whose owner was not requested. */
  predicate AllOwnersRequested(ids: seq<string>, fetched: seq<TravelSchedule>)
  {
    OwnersRequestedUpTo(ids, fetched, |fetched|)
  }

  /** The first `n` fetched schedules have requested owners. */
  predicate OwnersRequestedUpTo(ids: seq<string>, fetched: seq<TravelSchedule>, n: nat)
  {
    forall i :: 0 <= i < n && i < |fetched| ==> fetched[i].creatorId in ids
  }

  /** The schedules of one creator, in fetched order. */
  function OwnedBy(fetched: seq<TravelSchedule>, creatorId: string): seq<TravelSchedule>
  {
    Filter((s: TravelSchedule) => s.creatorId == creatorId, fetched)
  }

  /** The filled `schedulesMap`: every requested id, mapped to its schedules in fetched order. */
  function Grouped(ids: seq<string>, fetched: seq<TravelSchedule>): ScheduleMap
  {
    map id | id in ids :: OwnedBy(fetched, id)
  }

  /** `fetchTravelSchedules` after the query: every requested id starts with an empty list
      and each fetched schedule is pushed onto its owner's list. `ok` is false when a
      schedule's owner has no list, where `push` on `undefined` throws. */
  method GroupSchedules(creatorIds: seq<string>, travelData: seq<TravelSchedule>)
    returns (ok: bool, schedulesMap: ScheduleMap)
    ensures ok <==> AllOwnersRequested(creatorIds, travelData)
    ensures ok ==> schedulesMap == Grouped(creatorIds, travelData)
  {
    schedulesMap := EmptyLists(creatorIds);
    for k := 0 to |travelData|
      invariant forall id :: id in schedulesMap <==> id in creatorIds
      invariant forall id :: id in schedulesMap ==> schedulesMap[id] == OwnedBy(travelData[..k], id)
      invariant OwnersRequestedUpTo(creatorIds, travelData, k)
    {
      var schedule := travelData[k];
      if schedule.creatorId !in schedulesMap {
        assert !AllOwnersRequested(creatorIds, travelData);
        return false, schedulesMap;
      }
      PushStep(travelData, k, schedulesMap);
      var pushed := schedulesMap[schedule.creatorId := schedulesMap[schedule.creatorId] + [schedule]];
      PushKeepsGrouping(creatorIds, travelData, k, schedulesMap, pushed);
      schedulesMap := pushed;
    }
    assert travelData[..|travelData|] == travelData;
    assert AllOwnersRequested(creatorIds, travelData);
    GroupedFrom(schedulesMap, creatorIds, travelData);
    ok := true;
  }

  lemma GroupedFrom(m: ScheduleMap, ids: seq<string>, fetched: seq<TravelSchedule>)
    requires forall id :: id in m <==> id in ids
    requires forall id :: id in m ==> m[id] == OwnedBy(fetched, id)
    ensures m == Grouped(ids, fetched)
  {
  }

  /** The initialisation loop: one empty list per requested id. */
  method EmptyLists(creatorIds: seq<string>) returns (schedulesMap: ScheduleMap)
    ensures forall id :: id in schedulesMap <==> id in creatorIds
    ensures forall id :: id in schedulesMap ==> schedulesMap[id] == []
  {
    schedulesMap := map[];
    for k := 0 to |creatorIds|
      invariant forall id :: id in schedulesMap <==> id in creatorIds[..k]
      invariant forall id :: id in schedulesMap ==> schedulesMap[id] == []
    {
      assert creatorIds[..k + 1] == creatorIds[..k] + [creatorIds[k]];
      schedulesMap := schedulesMap[creatorIds[k] := []];
    }
    assert creatorIds[..|creatorIds|] == creatorIds;
  }

  /** The loop invariant of the push loop survives one push. */
  lemma PushKeepsGrouping(ids: seq<string>, fetched: seq<TravelSchedule>, k: nat, m: ScheduleMap, pushed: ScheduleMap)
    requires k < |fetched| && fetched[k].creatorId in m
    requires forall id :: id in m <==> id in ids
    requires forall id :: id in m ==> m[id] == OwnedBy(fetched[..k], id)
    requires OwnersRequestedUpTo(ids, fetched, k)
    requires forall id :: id in m ==>
               OwnedBy(fetched[..k + 1], id)
               == OwnedBy(fetched[..k], id) + (if fetched[k].creatorId == id then [fetched[k]] else [])
    requires pushed == m[fetched[k].creatorId := m[fetched[k].creatorId] + [fetched[k]]]
    ensures forall id :: id in pushed <==> id in ids
    ensures forall id :: id in pushed ==> pushed[id] == OwnedBy(fetched[..k + 1], id)
    ensures OwnersRequestedUpTo(ids, fetched, k + 1)
  {
  }

  /** Pushing the next fetched schedule onto its owner's list extends exactly that list. */
  lemma PushStep(travelData: seq<TravelSchedule>, k: nat, schedulesMap: ScheduleMap)
    requires k < |travelData|
    ensures forall id :: id in schedulesMap ==>
              OwnedBy(travelData[..k + 1], id)
              == OwnedBy(travelData[..k], id) + (if travelData[k].creatorId == id then [travelData[k]] else [])
  {
    assert travelData[..k + 1] == travelData[..k] + [travelData[k]];
    forall id | id in schedulesMap
      ensures OwnedBy(travelData[..k + 1], id)
              == OwnedBy(travelData[..k], id) + (if travelData[k].creatorId == id then [travelData[k]] else [])
    {
      FilterAppend((s: TravelSchedule) => s.creatorId == id, travelData[..k], [travelData[k]]);
    }
  }

  /** Fetched in ascending `start_date`, each creator's list is in ascending `start_date`. */
  lemma {:induction false} GroupedKeepsStartOrder(ids: seq<string>, fetched: seq<TravelSchedule>, id: string)
    requires SortedBy((s: TravelSchedule) => s.startDate, fetched)
    requires id in ids
    ensures SortedBy((s: TravelSchedule) => s.startDate, Grouped(ids, fetched)[id])
  {
    FilterKeepsSorted((s: TravelSchedule) => s.creatorId == id, (s: TravelSchedule) => s.startDate, fetched);
  }

  // ---------------------------------------------------------------------------
  // The per-card schedule lists (lines 279-320, 400-419, 553-560)

  /** `getHighlightedTravelSchedules`: nothing without filters; otherwise the in-window
      schedules that match the query or are in the selected country. */
  function HighlightedSchedules(schedules: seq<TravelSchedule>, query: string, country: string, today: Timestamp): (r: seq<TravelSchedule>)
    ensures query == "" && country == "" ==> r == []
    ensures forall s :: s in r <==>
              s in schedules && (query != "" || country != "") && IsWithinTravelWindow(s, today)
              && ((query != "" && ScheduleMatchesSearch(s, query)) || (country != "" && ScheduleMatchesCountry(s, country)))
    ensures IsSubsequence(r, schedules)
  {
    if query == "" && country == "" then []
    else
      var keep := (s: TravelSchedule) => IsWithinTravelWindow(s, today)
                    && ((query != "" && ScheduleMatchesSearch(s, query)) || (country != "" && ScheduleMatchesCountry(s, country)));
      FilterIsSubsequence(keep, schedules);
      Filter(keep, schedules)
  }

  /** `isCurrentOrUpcoming` as a filter predicate. */
  function Upcoming(today: Timestamp): TravelSchedule -> bool
  {
    (s: TravelSchedule) => IsCurrentOrUpcoming(s, today)
  }

  /** `creatorSchedules.filter(isCurrentOrUpcoming).slice(0, 3)`: the first three current
      or upcoming schedules, in list order, or all of them when there are fewer. */
  function UpcomingSchedules(schedules: seq<TravelSchedule>, today: Timestamp): (r: seq<TravelSchedule>)
    ensures |r| <= UpcomingShown
    ensures |r| == if |Filter(Upcoming(today), schedules)| < UpcomingShown
                   then |Filter(Upcoming(today), schedules)| else UpcomingShown
    ensures forall s :: s in r ==> s in schedules && IsCurrentOrUpcoming(s, today)
    ensures IsSubsequence(r, schedules)
    ensures forall k ::
              0 <= k < |schedules| && IsCurrentOrUpcoming(schedules[k], today)
              && |Filter(Upcoming(today), schedules[..k])| < UpcomingShown
              ==> schedules[k] in r
  {
    var upcoming := Filter(Upcoming(today), schedules);
    TakeFilter(Upcoming(today), schedules, UpcomingShown);
    var r := Take(upcoming, UpcomingShown);
    assert forall s :: s in r ==> s in upcoming;
    r
  }

  /** The "Matching Travel Plans" list of a card. */
  function MatchingSchedules(m: ScheduleMap, creatorId: string, query: string, country: string, today: Timestamp): seq<TravelSchedule>
  {
    if query != "" || country != "" then HighlightedSchedules(SchedulesOf(m, creatorId), query, country, today) else []
  }

  /** `list.some((ms) => ms.id === s.id)`. */
  predicate SharesId(s: TravelSchedule, list: seq<TravelSchedule>)
  {
    exists ms :: ms in list && ms.id == s.id
  }

  /** The filter of the "Travel Schedule" list. */
  function NotShownIn(list: seq<TravelSchedule>): TravelSchedule -> bool
  {
    (s: TravelSchedule) => !SharesId(s, list)
  }

  /** The "Travel Schedule" list of a card: the first three upcoming schedules, in order,
      without those whose id is already in the matching list. */
  function GenericSchedules(m: ScheduleMap, creatorId: string, query: string, country: string, today: Timestamp): (r: seq<TravelSchedule>)
    ensures |r| <= UpcomingShown
    ensures forall s :: s in r <==>
              s in UpcomingSchedules(SchedulesOf(m, creatorId), today)
              && !SharesId(s, MatchingSchedules(m, creatorId, query, country, today))
    ensures IsSubsequence(r, UpcomingSchedules(SchedulesOf(m, creatorId), today))
    ensures forall s :: s in r ==> s in SchedulesOf(m, creatorId) && IsCurrentOrUpcoming(s, today)
    ensures forall s, ms :: s in r && ms in MatchingSchedules(m, creatorId, query, country, today) ==> s.id != ms.id
  {
    var matching := MatchingSchedules(m, creatorId, query, country, today);
    var upcoming := UpcomingSchedules(SchedulesOf(m, creatorId), today);
    FilterIsSubsequence(NotShownIn(matching), upcoming);
    Filter(NotShownIn(matching), upcoming)
  }

  /** When the query is decided by a schedule, that schedule is highlighted on the card. */
  lemma ScheduleMatchIsHighlighted(c: CreatorProfile, m: ScheduleMap, query: string, country: string, today: Timestamp)
    requires query != "" && !OwnFieldsMatchQuery(c, query) && QueryClause(c, m, query, today)
    ensures MatchingSchedules(m, c.creatorId, query, country, today) != []
  {
    var s :| s in SchedulesOf(m, c.creatorId) && IsWithinTravelWindow(s, today) && ScheduleMatchesSearch(s, query);
    assert s in MatchingSchedules(m, c.creatorId, query, country, today);
  }

  /** When the country is decided by a schedule, that schedule is highlighted on the card. */
  lemma CountryMatchIsHighlighted(c: CreatorProfile, m: ScheduleMap, query: string, country: string, today: Timestamp)
    requires country != "" && c.country != country && CountryClause(c, m, country, today)
    ensures MatchingSchedules(m, c.creatorId, query, country, today) != []
  {
    var s :| s in SchedulesOf(m, c.creatorId) && IsWithinTravelWindow(s, today) && ScheduleMatchesCountry(s, country);
    assert s in MatchingSchedules(m, c.creatorId, query, country, today);
  }

  /** Cards are rendered only for creators whose owner row was joined (line 404). */
  function RenderedCreators(filtered: seq<CreatorProfile>): (r: seq<CreatorProfile>)
    ensures forall c :: c in r <==> c in filtered && c.profile.Some?
    ensures IsSubsequence(r, filtered)
  {
    var keep := (c: CreatorProfile) => c.profile.Some?;
    FilterIsSubsequence(keep, filtered);
    Filter(keep, filtered)
  }

  // ---------------------------------------------------------------------------
  // Component state

  /** The component's state: the loaded list, the filtered list and the schedules map. */
  class CreatorContainer {
    var creatorProfiles: seq<CreatorProfile>
    var filteredCreatorProfiles: seq<CreatorProfile>
    var travelSchedules: ScheduleMap
    var isLoading: bool
    var hasError: bool

    constructor ()
      ensures creatorProfiles == [] && filteredCreatorProfiles == [] && travelSchedules == map[]
      ensures isLoading && !hasError
    {
      creatorProfiles := [];
      filteredCreatorProfiles := [];
      travelSchedules := map[];
      isLoading := true;
      hasError := false;
    }

    /** `fetchTravelSchedules`: nothing for an empty id list or a failed query; the map is
        replaced by the grouping when it succeeds; a schedule of an unrequested owner
        throws inside the `try`, and the map stays as it was. */
    method FetchTravelSchedules(creatorIds: seq<string>, travelData: seq<TravelSchedule>, travelError: bool)
      modifies this`travelSchedules
      ensures |creatorIds| == 0 || travelError || !AllOwnersRequested(creatorIds, travelData)
              ==> travelSchedules == old(travelSchedules)
      ensures |creatorIds| > 0 && !travelError && AllOwnersRequested(creatorIds, travelData)
              ==> travelSchedules == Grouped(creatorIds, travelData)
    {
      if |creatorIds| == 0 {
        return;
      }
      if travelError {
        return;
      }
      var ok, schedulesMap := GroupSchedules(creatorIds, travelData);
      if ok {
        travelSchedules := schedulesMap;
      }
    }

    /** `fetchCreatorData`. `rows` is the `creator_profile` query result (newest first) and
        `infos` the `profiles` rows fetched for their owners; the error flags stand for the
        store's error results. An empty result skips the owner and schedule queries. */
    method FetchCreatorData(rows: seq<CreatorProfile>, rowsError: bool, infos: seq<Profile>, infosError: bool,
                            travelData: seq<TravelSchedule>, travelError: bool)
      modifies this
      ensures !isLoading
      ensures hasError == (old(hasError) || rowsError || (|rows| > 0 && infosError))
      ensures rowsError || (|rows| > 0 && infosError) ==>
                creatorProfiles == old(creatorProfiles) && filteredCreatorProfiles == old(filteredCreatorProfiles)
      ensures !rowsError && (|rows| == 0 || !infosError) ==>
                creatorProfiles == JoinProfiles(rows, infos) && filteredCreatorProfiles == creatorProfiles
      ensures rowsError || |rows| == 0 || infosError ==> travelSchedules == old(travelSchedules)
      ensures !rowsError && |rows| > 0 && !infosError ==>
                travelSchedules == if !travelError && AllOwnersRequested(CreatorIds(rows), travelData)
                                   then Grouped(CreatorIds(rows), travelData) else old(travelSchedules)
    {
      isLoading := true;
      if rowsError {
        hasError := true;
        isLoading := false;
        return;
      }
      var enhancedProfiles: seq<CreatorProfile> := [];
      if |rows| > 0 {
        var creatorIds := CreatorIds(rows);
        if infosError {
          hasError := true;
          isLoading := false;
          return;
        }
        enhancedProfiles := JoinProfiles(rows, infos);
        FetchTravelSchedules(creatorIds, travelData, travelError);
      }
      assert |rows| == 0 ==> JoinProfiles(rows, infos) == [];
      creatorProfiles := enhancedProfiles;
      filteredCreatorProfiles := enhancedProfiles;
      isLoading := false;
    }

    /** The filter effect: skipped while nothing is loaded, otherwise always recomputed
        from the full loaded list. */
    method ApplyFilters(searchQuery: string, selectedCountry: string, today: Timestamp)
      modifies this`filteredCreatorProfiles
      ensures creatorProfiles == [] ==> filteredCreatorProfiles == old(filteredCreatorProfiles)
      ensures creatorProfiles != [] ==>
                filteredCreatorProfiles == FilteredCreators(creatorProfiles, travelSchedules, searchQuery, selectedCountry, today)
    {
      if |creatorProfiles| == 0 {
        return;
      }
      var results := SelectCreators(creatorProfiles, travelSchedules, searchQuery, selectedCountry, today);
      filteredCreatorProfiles := results;
    }
  }
}

/** Who may be dispatched to, and the search that widens the radius until someone
    may: eligibility.service.ts, the dispatch query of provider.service.ts, and
    selectNextBatch of dispatch.service.ts. Distances are abstract amounts. */
module Eligibility {
  import opened Options
  import opened Sorting
  import opened Ranking

  /** A service area: how far its centre is from the request, as the database's
      spherical filter and as the haversine formula see it, and how far the provider
      travels from it. */
  datatype Area = Area(sphereKm: Amount, haversineKm: Amount, radiusKm: Amount)

  datatype Profile = Profile(
    id: ProviderId, available: bool, serviceIds: set<nat>, skillIds: set<nat>, areas: seq<Area>,
    experienceYears: Option<nat>, availability: seq<Slot>, verified: bool)

  datatype Query = Query(serviceId: nat, requiredSkillIds: set<nat>, exclude: set<ProviderId>, requireVerified: bool)

  predicate WithinRadius(p: Profile, radiusKm: real) {
    exists i :: 0 <= i < |p.areas| && p.areas[i].sphereKm <= radiusKm
  }

  /** The request falls inside one of the provider's own travel radii. */
  predicate CoversPoint(p: Profile) {
    exists i :: 0 <= i < |p.areas| && p.areas[i].haversineKm <= p.areas[i].radiusKm
  }

  /** Every hard filter: the dispatch query, then verification when it is required. */
  predicate IsEligible(p: Profile, q: Query, radiusKm: real) {
    && p.available && q.serviceId in p.serviceIds && q.requiredSkillIds <= p.skillIds && p.id !in q.exclude
    && WithinRadius(p, radiusKm) && CoversPoint(p)
    && (q.requireVerified ==> p.verified)
  }

  function NearestKm(areas: seq<Area>): Amount
    requires areas != []
  {
    if |areas| == 1 then areas[0].haversineKm
    else
      var nearest := NearestKm(areas[..|areas| - 1]);
      if areas[|areas| - 1].haversineKm <= nearest then areas[|areas| - 1].haversineKm else nearest
  }

  function PastCount(past: map<ProviderId, nat>, id: ProviderId): nat {
    if id in past then past[id] else 0
  }

  function ToCandidate(p: Profile, past: map<ProviderId, nat>): Candidate
    requires p.areas != []
  {
    Candidate(p.id, NearestKm(p.areas), p.experienceYears, p.availability, p.verified, PastCount(past, p.id))
  }

  /** What the ranking is told of a provider is what its profile and the history say: the
      nearest of its areas, and how often it was dispatched to. */
  predicate Describes(c: Candidate, p: Profile, past: map<ProviderId, nat>) {
    && c.providerId == p.id && c.experienceYears == p.experienceYears && c.availability == p.availability
    && c.verified == p.verified
    && (forall a :: a in p.areas ==> c.distanceKm <= a.haversineKm)
    && (exists a :: a in p.areas && c.distanceKm == a.haversineKm)
    && (p.id in past ==> c.pastDispatchCount == past[p.id]) && (p.id !in past ==> c.pastDispatchCount == 0)
  }

  lemma {:induction false} NearestIsLeast(areas: seq<Area>)
    requires areas != []
    ensures forall a :: a in areas ==> NearestKm(areas) <= a.haversineKm
    ensures exists a :: a in areas && NearestKm(areas) == a.haversineKm
  {
    var front, last := areas[..|areas| - 1], areas[|areas| - 1];
    assert forall a :: a in areas <==> a in front || a == last;
    if front != [] { NearestIsLeast(front); }
  }

  lemma CandidateDescribes(p: Profile, past: map<ProviderId, nat>)
    requires p.areas != []
    ensures Describes(ToCandidate(p, past), p, past) && ToCandidate(p, past).providerId == p.id
  {
    NearestIsLeast(p.areas);
  }

  /** findEligible: the candidates that pass every filter, in the order found. */
  function FindEligible(profiles: seq<Profile>, past: map<ProviderId, nat>, q: Query, radiusKm: real): seq<Candidate> {
    if profiles == [] then []
    else
      var p := profiles[|profiles| - 1];
      FindEligible(profiles[..|profiles| - 1], past, q, radiusKm)
        + (if IsEligible(p, q, radiusKm) then [ToCandidate(p, past)] else [])
  }

  ghost predicate DistinctProfiles(profiles: seq<Profile>) {
    forall i, j :: 0 <= i < j < |profiles| ==> profiles[i].id != profiles[j].id
  }

  /** A wider search finds everyone a narrower one does. */
  lemma EligibilityGrows(p: Profile, q: Query, radiusKm: real, wider: real)
    requires radiusKm <= wider && IsEligible(p, q, radiusKm)
    ensures IsEligible(p, q, wider)
  {
    var i :| 0 <= i < |p.areas| && p.areas[i].sphereKm <= radiusKm;
    assert p.areas[i].sphereKm <= wider;
  }

  /** How many of the providers pass every filter. */
  function NumberEligible(profiles: seq<Profile>, q: Query, radiusKm: real): nat {
    if profiles == [] then 0
    else
      NumberEligible(profiles[..|profiles| - 1], q, radiusKm)
        + (if IsEligible(profiles[|profiles| - 1], q, radiusKm) then 1 else 0)
  }

  /** Every candidate is a provider that passes every filter ... */
  lemma {:induction false} EligibleAreFiltered(profiles: seq<Profile>, past: map<ProviderId, nat>, q: Query,
        radiusKm: real)
    ensures forall c :: c in FindEligible(profiles, past, q, radiusKm) ==>
      exists p :: p in profiles && IsEligible(p, q, radiusKm) && p.id == c.providerId && Describes(c, p, past)
    ensures forall c :: c in FindEligible(profiles, past, q, radiusKm) ==> c.providerId !in q.exclude
  {
    hide WithinRadius, CoversPoint, ToCandidate, Describes;
    if profiles != [] {
      var front, last := profiles[..|profiles| - 1], profiles[|profiles| - 1];
      EligibleAreFiltered(front, past, q, radiusKm);
      assert forall p :: p in profiles <==> p in front || p == last;
      if IsEligible(last, q, radiusKm) {
        HasAnArea(last, q, radiusKm);
        CandidateDescribes(last, past);
      }
    }
  }

  lemma HasAnArea(p: Profile, q: Query, radiusKm: real)
    requires IsEligible(p, q, radiusKm)
    ensures p.areas != []
  {}

  /** ... and every provider that passes them is a candidate, once. */
  lemma {:induction false} EveryEligibleIsFound(profiles: seq<Profile>, past: map<ProviderId, nat>, q: Query,
        radiusKm: real)
    ensures forall p :: p in profiles && IsEligible(p, q, radiusKm) ==>
      p.areas != [] && ToCandidate(p, past) in FindEligible(profiles, past, q, radiusKm)
    ensures |FindEligible(profiles, past, q, radiusKm)| == NumberEligible(profiles, q, radiusKm)
  {
    hide ToCandidate;
    if profiles != [] {
      var front, last := profiles[..|profiles| - 1], profiles[|profiles| - 1];
      EveryEligibleIsFound(front, past, q, radiusKm);
      assert forall p :: p in profiles <==> p in front || p == last;
    }
  }

  lemma {:induction false} EligibleAreDistinct(profiles: seq<Profile>, past: map<ProviderId, nat>, q: Query,
          radiusKm: real)
    requires DistinctProfiles(profiles)
    ensures DistinctProviders(FindEligible(profiles, past, q, radiusKm))
  {
    hide IsEligible;
    if profiles != [] {
      var front, last := profiles[..|profiles| - 1], profiles[|profiles| - 1];
      EligibleAreDistinct(front, past, q, radiusKm);
      EligibleAreFiltered(front, past, q, radiusKm);
      var found := FindEligible(front, past, q, radiusKm);
      forall c | c in found ensures c.providerId != last.id {
        var p :| p in front && p.id == c.providerId;
        var i :| 0 <= i < |front| && front[i] == p;
        assert profiles[i] == p;
      }
    }
  }

  // ----------------------------------------------------------- rankEligible

  /** What the search reads besides the radius: who is in the database, how often each
      was dispatched to, and the moment. */
  datatype World = World(profiles: seq<Profile>, past: map<ProviderId, nat>, dayOfWeek: nat, minuteOfDay: nat, now: nat)

  ghost predicate ValidWorld(w: World) {
    DistinctProfiles(w.profiles)
  }

  datatype Policy = Policy(batchSize: nat, explorationSlots: nat, weights: Weights)

  function MaxPast(candidates: seq<Candidate>): nat {
    if candidates == [] then 0
    else
      var m := MaxPast(candidates[..|candidates| - 1]);
      if candidates[|candidates| - 1].pastDispatchCount > m then candidates[|candidates| - 1].pastDispatchCount else m
  }

  /** `query` is None for a request that lacks its service, complexity or location. */
  function RankEligible(w: World, query: Option<Query>, policy: Policy, radiusKm: real): seq<Entry> {
    if query.None? then []
    else
      var eligible := FindEligible(w.profiles, w.past, query.value, radiusKm);
      if eligible == [] then []
      else
        SelectBatch(
          RankCandidates(eligible, Context(radiusKm, w.dayOfWeek, w.minuteOfDay, MaxPast(eligible)), policy.weights),
          policy.batchSize, policy.explorationSlots)
  }

  ghost predicate AnyoneEligible(w: World, q: Query, radiusKm: real) {
    exists p :: p in w.profiles && IsEligible(p, q, radiusKm)
  }

  lemma EntriesAreCandidates(candidates: seq<Candidate>, at: Context, weights: Weights)
    requires DistinctProviders(candidates)
    ensures forall e :: e in RankCandidates(candidates, at, weights) ==>
      && e.candidate in candidates && e.breakdown == Breakdown(e.candidate, at)
      && e.score == WeightedSum(e.breakdown, weights, 9)
  {
    hide Breakdown, WeightedSum;
    RankingIsSorted(candidates, at, weights);
    SameElements(RankCandidates(candidates, at, weights), Scored(candidates, at, weights));
    ScoredEntries(candidates, at, weights);
  }

  /** An entry of the ranking shows this provider: what its profile says, with full marks for
      availability exactly when its schedule is empty or has a slot for the moment, and for
      verification exactly when it is verified. */
  predicate Shows(e: Entry, p: Profile, w: World) {
    && e.Id() == p.id && Describes(e.candidate, p, w.past)
    && e.breakdown[1] == (if IsFree(p.availability, w.dayOfWeek, w.minuteOfDay) then 1.0 else 0.0)
    && e.breakdown[2] == (if p.verified then 1.0 else 0.0)
  }

  predicate IsFree(slots: seq<Slot>, dayOfWeek: nat, minuteOfDay: nat) {
    || slots == []
    || exists slot :: slot in slots && slot.dayOfWeek == dayOfWeek
                      && slot.startMinute <= minuteOfDay && minuteOfDay < slot.endMinute
  }

  lemma EntryShows(e: Entry, p: Profile, w: World, at: Context)
    requires e.breakdown == Breakdown(e.candidate, at) && Describes(e.candidate, p, w.past)
    requires at.dayOfWeek == w.dayOfWeek && at.minuteOfDay == w.minuteOfDay
    ensures Shows(e, p, w)
  {
    if slot :| slot in p.availability && slot.dayOfWeek == w.dayOfWeek
               && slot.startMinute <= w.minuteOfDay && w.minuteOfDay < slot.endMinute {
      var i :| 0 <= i < |p.availability| && p.availability[i] == slot;
    }
  }

  lemma SomeoneIsFound(w: World, q: Query, radiusKm: real)
    ensures AnyoneEligible(w, q, radiusKm) ==> FindEligible(w.profiles, w.past, q, radiusKm) != []
    ensures |FindEligible(w.profiles, w.past, q, radiusKm)| == NumberEligible(w.profiles, q, radiusKm)
  {
    hide IsEligible, ToCandidate;
    EveryEligibleIsFound(w.profiles, w.past, q, radiusKm);
  }

  /** A batch is empty exactly when nobody is eligible, is as full as its size and the
      eligible providers allow, and holds different providers, none of them excluded, each
      shown as it is. */
  lemma BatchOfTheEligible(w: World, q: Query, policy: Policy, radiusKm: real)
    requires ValidWorld(w) && policy.batchSize > 0
    ensures var batch := RankEligible(w, Some(q), policy, radiusKm);
      && (batch == [] <==> !AnyoneEligible(w, q, radiusKm))
      && |batch| == Min(policy.batchSize, NumberEligible(w.profiles, q, radiusKm))
      && DistinctIds(batch)
      && (forall e :: e in batch ==> e.Id() !in q.exclude)
      && (forall e :: e in batch ==> exists p :: p in w.profiles && IsEligible(p, q, radiusKm) && Shows(e, p, w))
      && (forall e :: e in batch ==> e.score == WeightedSum(e.breakdown, policy.weights, 9))
  {
    hide IsEligible, SelectBatch, RankCandidates, Breakdown, WeightedSum, NumberEligible, Describes, Shows;
    var eligible := FindEligible(w.profiles, w.past, q, radiusKm);
    EligibleAreFiltered(w.profiles, w.past, q, radiusKm);
    SomeoneIsFound(w, q, radiusKm);
    EligibleAreDistinct(w.profiles, w.past, q, radiusKm);
    if eligible != [] {
      var at := Context(radiusKm, w.dayOfWeek, w.minuteOfDay, MaxPast(eligible));
      var ranked := RankCandidates(eligible, at, policy.weights);
      RankingIsSorted(eligible, at, policy.weights);
      EntriesAreCandidates(eligible, at, policy.weights);
      BatchIsExact(ranked, policy.batchSize, policy.explorationSlots);
      assert eligible[0] in eligible;
      forall e | e in SelectBatch(ranked, policy.batchSize, policy.explorationSlots)
        ensures exists p :: p in w.profiles && IsEligible(p, q, radiusKm) && Shows(e, p, w)
      {
        assert e in ranked;
        var p :| p in w.profiles && IsEligible(p, q, radiusKm) && Describes(e.candidate, p, w.past);
        EntryShows(e, p, w, at);
      }
    }
  }

  // ------------------------------------------------------- widening the radius

  datatype Range = Range(maxKm: real, stepKm: real)

  function Ceil(x: real): int {
    -((-x).Floor)
  }

  /** How many times the radius can still be widened. */
  function StepsLeft(range: Range, radiusKm: real): nat
    requires range.stepKm > 0.0
    ensures radiusKm >= range.maxKm ==> StepsLeft(range, radiusKm) == 0
    ensures radiusKm < range.maxKm ==> StepsLeft(range, radiusKm) == Ceil((range.maxKm - radiusKm) / range.stepKm) >= 1
  {
    if radiusKm >= range.maxKm then 0
    else
      assert (range.maxKm - radiusKm) / range.stepKm > 0.0;
      Ceil((range.maxKm - radiusKm) / range.stepKm)
  }

  function Widened(range: Range, radiusKm: real): real {
    MinReal(range.maxKm, radiusKm + range.stepKm)
  }

  lemma QuotientIs(x: real, step: real, quotient: real)
    requires step > 0.0 && quotient * step == x
    ensures x / step == quotient
  {
    assert x / step * step == x;
  }

  lemma DividedLess(x: real, step: real)
    requires step > 0.0
    ensures (x - step) / step == x / step - 1.0
  {
    var quotient := x / step;
    assert quotient * step == x;
    assert (quotient - 1.0) * step == quotient * step - step;
    QuotientIs(x - step, step, quotient - 1.0);
  }

  lemma CeilLess(x: real)
    ensures Ceil(x - 1.0) == Ceil(x) - 1
  {
    var below := -x;
    assert -(x - 1.0) == below + 1.0;
    var whole := below.Floor;
    assert whole as real <= below < (whole + 1) as real;
    assert (whole + 1) as real <= below + 1.0 < (whole + 2) as real;
  }

  lemma WideningEnds(range: Range, radiusKm: real)
    requires range.stepKm > 0.0 && radiusKm < range.maxKm
    ensures radiusKm < Widened(range, radiusKm) <= range.maxKm
    ensures StepsLeft(range, Widened(range, radiusKm)) < StepsLeft(range, radiusKm)
  {
    if radiusKm + range.stepKm < range.maxKm {
      DividedLess(range.maxKm - radiusKm, range.stepKm);
      CeilLess((range.maxKm - radiusKm) / range.stepKm);
      assert range.maxKm - (radiusKm + range.stepKm) == range.maxKm - radiusKm - range.stepKm;
    }
  }

  /** The radius after `n` widenings: the capped progression. */
  function RadiusAfter(range: Range, radiusKm: real, n: nat): real {
    if n == 0 then radiusKm else Widened(range, RadiusAfter(range, radiusKm, n - 1))
  }

  /** The search of selectNextBatch, as a function of its inputs. */
  function Search(w: World, query: Option<Query>, policy: Policy, range: Range,
          radiusKm: real): (outcome: (seq<Entry>, real))
    requires range.stepKm > 0.0
    decreases StepsLeft(range, radiusKm)
  {
    var selected := RankEligible(w, query, policy, radiusKm);
    if selected != [] || radiusKm >= range.maxKm then (selected, radiusKm)
    else
      WideningEnds(range, radiusKm);
      Search(w, query, policy, range, Widened(range, radiusKm))
  }

  /** An empty search never stops short of the widest radius, and then nobody is
      eligible at any radius up to it; a search that succeeds stays within the cap
      unless it started beyond it. */
  lemma {:induction false} SearchIsComplete(w: World, q: Query, policy: Policy, range: Range, radiusKm: real)
    requires ValidWorld(w) && policy.batchSize > 0 && range.stepKm > 0.0
    ensures var (selected, reached) := Search(w, Some(q), policy, range, radiusKm);
      && selected == RankEligible(w, Some(q), policy, reached)
      && radiusKm <= reached && (radiusKm <= range.maxKm ==> reached <= range.maxKm)
      && (selected == [] ==> reached >= range.maxKm)
      && (selected == [] <==> !AnyoneEligible(w, q, if radiusKm <= range.maxKm then range.maxKm else radiusKm))
    decreases StepsLeft(range, radiusKm)
  {
    hide RankEligible, AnyoneEligible;
    BatchOfTheEligible(w, q, policy, radiusKm);
    if RankEligible(w, Some(q), policy, radiusKm) == [] && radiusKm < range.maxKm {
      WideningEnds(range, radiusKm);
      SearchIsComplete(w, q, policy, range, Widened(range, radiusKm));
    } else if radiusKm <= range.maxKm {
      AnyoneAtWider(w, q, radiusKm, range.maxKm);
    }
  }

  lemma AnyoneAtWider(w: World, q: Query, radiusKm: real, wider: real)
    requires radiusKm <= wider
    ensures AnyoneEligible(w, q, radiusKm) ==> AnyoneEligible(w, q, wider)
  {
    hide IsEligible;
    if p :| p in w.profiles && IsEligible(p, q, radiusKm) {
      EligibilityGrows(p, q, radiusKm, wider);
    }
  }

  /** selectNextBatch. It stops at the first radius of the capped progression that
      gives a batch, or else at the end of the progression, after at most
      ceil((max - r0) / step) + 1 tries. */
  method SelectNextBatch(w: World, query: Option<Query>, policy: Policy, range: Range, currentKm: real)
    returns (selected: seq<Entry>, radiusKm: real, ghost tries: nat)
    requires range.stepKm > 0.0
    ensures (selected, radiusKm) == Search(w, query, policy, range, currentKm)
    ensures selected == RankEligible(w, query, policy, radiusKm)
    ensures 1 <= tries <= StepsLeft(range, currentKm) + 1 && radiusKm == RadiusAfter(range, currentKm, tries - 1)
    ensures forall n: nat :: n < tries - 1 ==>
      RankEligible(w, query, policy, RadiusAfter(range, currentKm, n)) == []
        && RadiusAfter(range, currentKm, n) < range.maxKm
    ensures selected != [] || radiusKm >= range.maxKm
  {
    hide RankEligible;
    radiusKm := currentKm;
    tries := 1;
    while true
      invariant radiusKm == RadiusAfter(range, currentKm, tries - 1) && tries >= 1
      invariant Search(w, query, policy, range, radiusKm) == Search(w, query, policy, range, currentKm)
      invariant tries + StepsLeft(range, radiusKm) <= StepsLeft(range, currentKm) + 1
      invariant forall n: nat :: n < tries - 1 ==>
        RankEligible(w, query, policy, RadiusAfter(range, currentKm, n)) == []
          && RadiusAfter(range, currentKm, n) < range.maxKm
      decreases StepsLeft(range, radiusKm)
    {
      selected := RankEligible(w, query, policy, radiusKm);
      if |selected| > 0 || radiusKm >= range.maxKm { return; }
      WideningEnds(range, radiusKm);
      radiusKm := MinReal(range.maxKm, radiusKm + range.stepKm);
      tries := tries + 1;
    }
  }
}

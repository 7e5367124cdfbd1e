/** Ranking and batch selection: ranking.ts. Scores are reals. A provider id is its
    position in the order `localeCompare` gives ids, so distinct ids never tie. */
module Ranking {
  import opened Options
  import opened Sorting

  type ProviderId = nat
  type Amount = x: real | x >= 0.0

  datatype Slot = Slot(dayOfWeek: nat, startMinute: nat, endMinute: nat)

  datatype Candidate = Candidate(
    providerId: ProviderId, distanceKm: Amount, experienceYears: Option<nat>, availability: seq<Slot>,
    verified: bool, pastDispatchCount: nat)

  datatype Context = Context(radiusKm: real, dayOfWeek: nat, minuteOfDay: nat, maxPastDispatchCount: nat)

  /** The nine signals, in the order of the score breakdown: distance, availability,
      verification, experience, exploration, then the four without data. */
  type Signals = s: seq<real> | |s| == 9 witness [0.0, 0.0, 0.0, 0.0, 0.0, 0.0, 0.0, 0.0, 0.0]
  type Weights = s: seq<Amount> | |s| == 9 witness [0.0, 0.0, 0.0, 0.0, 0.0, 0.0, 0.0, 0.0, 0.0]

  const EXPERIENCE_SATURATION_YEARS := 10.0

  function MinReal(a: real, b: real): real { if a <= b then a else b }
  function MaxReal(a: real, b: real): real { if a >= b then a else b }
  function Min(a: int, b: int): int { if a <= b then a else b }
  function Max(a: int, b: int): int { if a >= b then a else b }

  /** 1 at the centre, falling to 0 at the reference and beyond. */
  function Falling(x: Amount, reference: real): real
    requires reference > 0.0
  {
    MaxReal(0.0, 1.0 - MinReal(1.0, x / reference))
  }

  function NormaliseDistance(distanceKm: Amount, radiusKm: real): real {
    if radiusKm <= 0.0 then 0.0 else Falling(distanceKm, radiusKm)
  }

  function NormaliseExploration(past: nat, maxPast: nat): real {
    if maxPast == 0 then 1.0 else Falling(past as real, maxPast as real)
  }

  /** An empty schedule declares no restriction; the end minute is exclusive. */
  predicate CoversMoment(slots: seq<Slot>, dayOfWeek: nat, minuteOfDay: nat) {
    slots == [] || exists i :: 0 <= i < |slots| && slots[i].dayOfWeek == dayOfWeek
                               && slots[i].startMinute <= minuteOfDay < slots[i].endMinute
  }

  function Years(c: Candidate): nat { if c.experienceYears.Some? then c.experienceYears.value else 0 }

  function Breakdown(c: Candidate, at: Context): Signals {
    [ NormaliseDistance(c.distanceKm, at.radiusKm),
      if CoversMoment(c.availability, at.dayOfWeek, at.minuteOfDay) then 1.0 else 0.0,
      if c.verified then 1.0 else 0.0,
      MinReal(1.0, Years(c) as real / EXPERIENCE_SATURATION_YEARS),
      NormaliseExploration(c.pastDispatchCount, at.maxPastDispatchCount),
      0.0, 0.0, 0.0, 0.0 ]
  }

  /** The weighted sum of the first `n` signals. */
  function WeightedSum(signals: seq<real>, weights: seq<Amount>, n: nat): real
    requires n <= |signals| && n <= |weights|
  {
    if n == 0 then 0.0 else WeightedSum(signals, weights, n - 1) + signals[n - 1] * weights[n - 1]
  }

  method ComputeScore(breakdown: Signals, weights: Weights) returns (score: real)
    ensures score == WeightedSum(breakdown, weights, 9)
  {
    score := 0.0;
    for key := 0 to 9
      invariant score == WeightedSum(breakdown, weights, key)
    {
      score := score + breakdown[key] * weights[key];
    }
  }

  lemma FallingIsBounded(x: Amount, y: Amount, reference: real)
    requires reference > 0.0
    ensures 0.0 <= Falling(x, reference) <= 1.0
    ensures x <= y ==> Falling(x, reference) >= Falling(y, reference)
  {
    assert x / reference >= 0.0;
    if x <= y { assert x / reference <= y / reference; }
  }

  lemma SignalsAreNormalised(c: Candidate, at: Context)
    ensures forall i :: 0 <= i < 9 ==> 0.0 <= Breakdown(c, at)[i] <= 1.0
  {
    if at.radiusKm > 0.0 { FallingIsBounded(c.distanceKm, c.distanceKm, at.radiusKm); }
    if at.maxPastDispatchCount > 0 {
      FallingIsBounded(c.pastDispatchCount as real, c.pastDispatchCount as real, at.maxPastDispatchCount as real);
    }
  }

  function WeightTotal(weights: seq<Amount>, n: nat): real
    requires n <= |weights|
  {
    if n == 0 then 0.0 else WeightTotal(weights, n - 1) + weights[n - 1]
  }

  lemma ProductInWeight(signal: real, weight: Amount)
    requires 0.0 <= signal <= 1.0
    ensures 0.0 <= signal * weight <= weight
  {
    assert (1.0 - signal) * weight >= 0.0;
  }

  lemma {:induction false} WeightedSumInTotal(signals: seq<real>, weights: seq<Amount>, n: nat)
    requires n <= |signals| && n <= |weights| && forall i :: 0 <= i < n ==> 0.0 <= signals[i] <= 1.0
    ensures 0.0 <= WeightedSum(signals, weights, n) <= WeightTotal(weights, n)
  {
    if n == 0 {
    } else {
      WeightedSumInTotal(signals, weights, n - 1);
      var signal, weight := signals[n - 1], weights[n - 1];
      var product := signal * weight;
      ProductInWeight(signal, weight);
      assert WeightedSum(signals, weights, n) == WeightedSum(signals, weights, n - 1) + product;
    }
  }

  /** A score never leaves the range the weights allow. */
  lemma ScoreIsBounded(c: Candidate, at: Context, weights: Weights)
    ensures 0.0 <= WeightedSum(Breakdown(c, at), weights, 9) <= WeightTotal(weights, 9)
  {
    SignalsAreNormalised(c, at);
    WeightedSumInTotal(Breakdown(c, at), weights, 9);
  }

  /** The signals at their ends: full marks for a provider at the very place, free, verified, ten
      years in the trade or never dispatched to; none for one out of the radius, busy,
      unverified, without experience or dispatched to as often as anyone. */
  lemma SignalsAtTheirEnds(c: Candidate, at: Context)
    requires at.radiusKm > 0.0
    ensures var b := Breakdown(c, at);
      && (c.distanceKm == 0.0 ==> b[0] == 1.0) && (b[0] == 0.0 <==> c.distanceKm >= at.radiusKm)
      && (b[1] == 1.0 <==> CoversMoment(c.availability, at.dayOfWeek, at.minuteOfDay)) && (b[1] == 1.0 || b[1] == 0.0)
      && (b[2] == 1.0 <==> c.verified) && (b[2] == 1.0 || b[2] == 0.0)
      && (b[3] == 1.0 <==> Years(c) >= 10) && (b[3] == 0.0 <==> Years(c) == 0)
      && (b[4] == 1.0 <==> at.maxPastDispatchCount == 0 || c.pastDispatchCount == 0)
      && (b[4] == 0.0 <==> c.pastDispatchCount >= at.maxPastDispatchCount > 0)
      && forall i :: 5 <= i < 9 ==> b[i] == 0.0
  {
    FallingEnds(c.distanceKm, at.radiusKm);
    if at.maxPastDispatchCount > 0 {
      FallingEnds(c.pastDispatchCount as real, at.maxPastDispatchCount as real);
    }
  }

  lemma SameSign(a: real, b: real)
    requires b > 0.0
    ensures a > 0.0 <==> a * b > 0.0
    ensures a >= 0.0 <==> a * b >= 0.0
  {}

  lemma FallingEnds(x: Amount, reference: real)
    requires reference > 0.0
    ensures Falling(x, reference) == 1.0 <==> x == 0.0
    ensures Falling(x, reference) == 0.0 <==> x >= reference
  {
    var quotient := x / reference;
    assert quotient * reference == x;
    SameSign(quotient, reference);
    SameSign(quotient - 1.0, reference);
    assert (quotient - 1.0) * reference == quotient * reference - reference;
  }

  /** `a` is in no respect behind `b`. */
  predicate IsAsGood(a: Candidate, b: Candidate, at: Context) {
    && a.distanceKm <= b.distanceKm
    && (CoversMoment(b.availability, at.dayOfWeek, at.minuteOfDay) ==>
          CoversMoment(a.availability, at.dayOfWeek, at.minuteOfDay))
    && (b.verified ==> a.verified)
    && Years(a) >= Years(b)
    && a.pastDispatchCount <= b.pastDispatchCount
  }

  lemma SignalsFavour(a: Candidate, b: Candidate, at: Context)
    requires IsAsGood(a, b, at)
    ensures forall i :: 0 <= i < 9 ==> Breakdown(a, at)[i] >= Breakdown(b, at)[i]
  {
    if at.radiusKm > 0.0 { FallingIsBounded(a.distanceKm, b.distanceKm, at.radiusKm); }
    if at.maxPastDispatchCount > 0 {
      FallingIsBounded(a.pastDispatchCount as real, b.pastDispatchCount as real, at.maxPastDispatchCount as real);
    }
  }

  lemma ProductFavours(a: real, b: real, weight: Amount)
    requires a >= b
    ensures a * weight >= b * weight
  {
    assert (a - b) * weight >= 0.0;
  }

  lemma {:induction false} WeightedSumFavours(a: seq<real>, b: seq<real>, weights: seq<Amount>, n: nat)
    requires n <= |a| == |b| && n <= |weights| && forall i :: 0 <= i < n ==> a[i] >= b[i]
    ensures WeightedSum(a, weights, n) >= WeightedSum(b, weights, n)
  {
    if n > 0 {
      WeightedSumFavours(a, b, weights, n - 1);
      ProductFavours(a[n - 1], b[n - 1], weights[n - 1]);
    }
  }

  /** A provider in no respect behind another never scores less, whatever the weights. */
  lemma BetterNeverScoresLess(a: Candidate, b: Candidate, at: Context, weights: Weights)
    requires IsAsGood(a, b, at)
    ensures WeightedSum(Breakdown(a, at), weights, 9) >= WeightedSum(Breakdown(b, at), weights, 9)
  {
    hide Breakdown, IsAsGood;
    SignalsFavour(a, b, at);
    WeightedSumFavours(Breakdown(a, at), Breakdown(b, at), weights, 9);
  }

  lemma SumStep(signals: seq<real>, weights: seq<Amount>, n: nat)
    requires 0 < n <= |signals| && n <= |weights|
    ensures WeightedSum(signals, weights, n) ==
      WeightedSum(signals, weights, n - 1) + signals[n - 1] * weights[n - 1]
    ensures WeightedSum(signals, weights, 0) == 0.0
  {}

  /** Each weight counts for its own signal. */
  lemma ScoreIsTheSum(signals: Signals, w: Weights)
    ensures WeightedSum(signals, w, 9) ==
      signals[0] * w[0] + signals[1] * w[1] + signals[2] * w[2] + signals[3] * w[3] + signals[4] * w[4]
      + signals[5] * w[5] + signals[6] * w[6] + signals[7] * w[7] + signals[8] * w[8]
  {
    hide WeightedSum;
    SumStep(signals, w, 1);
    forall n | 1 <= n <= 9
      ensures WeightedSum(signals, w, n) == WeightedSum(signals, w, n - 1) + signals[n - 1] * w[n - 1]
    {
      SumStep(signals, w, n);
    }
  }

  // ------------------------------------------------------------------- ranking

  datatype Entry = Entry(candidate: Candidate, breakdown: Signals, score: real) {
    function Id(): ProviderId { candidate.providerId }
    function Past(): nat { candidate.pastDispatchCount }
  }

  /** Higher score first, then smaller id. */
  predicate Outranks(a: Entry, b: Entry) {
    a.score > b.score || (a.score == b.score && a.Id() <= b.Id())
  }

  /** Fewer past dispatches first, then as in the ranking. */
  predicate Explores(a: Entry, b: Entry) {
    a.Past() < b.Past() || (a.Past() == b.Past() && Outranks(a, b))
  }

  ghost predicate DistinctIds(entries: seq<Entry>) {
    forall i, j :: 0 <= i < j < |entries| ==> entries[i].Id() != entries[j].Id()
  }

  function Scored(candidates: seq<Candidate>, at: Context, weights: Weights): seq<Entry> {
    if candidates == [] then []
    else
      var c := candidates[|candidates| - 1];
      Scored(candidates[..|candidates| - 1], at, weights)
        + [Entry(c, Breakdown(c, at), WeightedSum(Breakdown(c, at), weights, 9))]
  }

  function RankCandidates(candidates: seq<Candidate>, at: Context, weights: Weights): seq<Entry> {
    Sort(Outranks, Scored(candidates, at, weights))
  }

  lemma RankingOrders(entries: seq<Entry>)
    ensures Orders(Outranks, entries) && Orders(Explores, entries)
  {
  }

  lemma SameIdSameEntry(entries: seq<Entry>, a: Entry, b: Entry)
    requires DistinctIds(entries) && a in entries && b in entries && a.Id() == b.Id()
    ensures a == b
  {
  }

  lemma DistinctIdsNeverTie(entries: seq<Entry>)
    requires DistinctIds(entries)
    ensures NoTies(Outranks, entries) && NoTies(Explores, entries)
  {
    forall a, b | a in entries && b in entries && a.Id() == b.Id() ensures a == b {
      SameIdSameEntry(entries, a, b);
    }
  }

  ghost predicate DistinctProviders(candidates: seq<Candidate>) {
    forall i, j :: 0 <= i < j < |candidates| ==> candidates[i].providerId != candidates[j].providerId
  }

  lemma {:induction false} ScoredEntries(candidates: seq<Candidate>, at: Context, weights: Weights)
    ensures var s := Scored(candidates, at, weights);
      && |s| == |candidates|
      && forall i :: 0 <= i < |s| ==>
           s[i].candidate == candidates[i] && s[i].breakdown == Breakdown(candidates[i], at)
           && s[i].score == WeightedSum(Breakdown(candidates[i], at), weights, 9)
  {
    hide Breakdown, WeightedSum;
    if candidates != [] {
      ScoredEntries(candidates[..|candidates| - 1], at, weights);
    }
  }

  /** The multiset of entries follows the multiset of candidates. */
  lemma {:induction false} ScoredKeeps(candidates: seq<Candidate>, others: seq<Candidate>, at: Context,
          weights: Weights)
    requires multiset(candidates) == multiset(others)
    ensures multiset(Scored(candidates, at, weights)) == multiset(Scored(others, at, weights))
    decreases |candidates|
  {
    hide Breakdown, WeightedSum;
    assert |multiset(candidates)| == |candidates| && |multiset(others)| == |others|;
    if candidates == [] {
    } else {
      var n := |candidates| - 1;
      var c := candidates[n];
      assert c in multiset(others);
      var i :| 0 <= i < |others| && others[i] == c;
      var rest := others[..i] + others[i + 1..];
      assert others == others[..i] + [c] + others[i + 1..];
      assert candidates == candidates[..n] + [c];
      assert multiset(others) == multiset(others[..i]) + multiset{c} + multiset(others[i + 1..]);
      assert multiset(rest) == multiset(others) - multiset{c} == multiset(candidates) - multiset{c} ==
        multiset(candidates[..n]);
      ScoredKeeps(candidates[..n], rest, at, weights);
      ScoredMiddle(others[..i], c, others[i + 1..], at, weights);
    }
  }

  lemma {:induction false} ScoredMiddle(front: seq<Candidate>, c: Candidate, back: seq<Candidate>, at: Context,
          weights: Weights)
    ensures multiset(Scored(front + [c] + back, at, weights))
      == multiset(Scored(front + back, at, weights)) + multiset(Scored([c], at, weights))
    ensures Scored([c], at, weights) == [Entry(c, Breakdown(c, at), WeightedSum(Breakdown(c, at), weights, 9))]
    decreases |back|
  {
    hide Breakdown, WeightedSum;
    if back == [] {
      assert front + [c] + back == front + [c] && front + back == front;
    } else {
      var n := |back| - 1;
      assert (front + [c] + back)[..|front + [c] + back| - 1] == front + [c] + back[..n];
      assert (front + back)[..|front + back| - 1] == front + back[..n];
      ScoredMiddle(front, c, back[..n], at, weights);
    }
  }

  /** The ranking does not depend on the order the candidates come in. */
  lemma RankingForgetsOrder(candidates: seq<Candidate>, others: seq<Candidate>, at: Context, weights: Weights)
    requires multiset(candidates) == multiset(others) && DistinctProviders(candidates)
    ensures RankCandidates(candidates, at, weights) == RankCandidates(others, at, weights)
  {
    hide Breakdown, WeightedSum;
    var s := Scored(candidates, at, weights);
    ScoredEntries(candidates, at, weights);
    ScoredKeeps(candidates, others, at, weights);
    RankingOrders(s);
    DistinctIdsNeverTie(s);
    SortForgetsOrder(Outranks, s, Scored(others, at, weights));
  }

  lemma DistinctByIds(s: seq<Entry>, t: seq<Entry>)
    requires multiset(s) == multiset(t) && DistinctIds(s)
    ensures DistinctIds(t)
  {
    forall i, j | 0 <= i < j < |t| ensures t[i].Id() != t[j].Id() {
      if t[i].Id() == t[j].Id() {
        SameElements(s, t);
        assert t[i] in t && t[j] in t;
        SameIdSameEntry(s, t[i], t[j]);
        OnceEach(s, t[i]);
        Twice(t, i, j);
        assert false;
      }
    }
  }

  lemma {:induction false} OnceEach(s: seq<Entry>, e: Entry)
    requires DistinctIds(s)
    ensures multiset(s)[e] <= 1
  {
    if s != [] {
      SplitLast(s);
      OnceEach(s[..|s| - 1], e);
      if s[|s| - 1] == e {
        assert e !in s[..|s| - 1];
      }
    }
  }

  lemma Twice<T>(t: seq<T>, i: nat, j: nat)
    requires i < j < |t| && t[i] == t[j]
    ensures multiset(t)[t[i]] >= 2
  {
    assert t == t[..i] + [t[i]] + t[i + 1..j] + [t[j]] + t[j + 1..];
  }

  /** What a ranking of distinct providers is: every candidate once, best first. */
  lemma RankingIsSorted(candidates: seq<Candidate>, at: Context, weights: Weights)
    requires DistinctProviders(candidates)
    ensures var ranked := RankCandidates(candidates, at, weights);
      && Sorted(Outranks, ranked) && DistinctIds(ranked) && |ranked| == |candidates|
      && multiset(ranked) == multiset(Scored(candidates, at, weights))
  {
    hide Breakdown, WeightedSum;
    var s := Scored(candidates, at, weights);
    ScoredEntries(candidates, at, weights);
    RankingOrders(s);
    SortIsSorted(Outranks, s);
    SortKeeps(Outranks, s);
    DistinctByIds(s, Sort(Outranks, s));
  }

  // ----------------------------------------------------------------- selection

  function Ids(entries: seq<Entry>): set<ProviderId> {
    set e | e in entries :: e.Id()
  }

  function Others(entries: seq<Entry>, ids: set<ProviderId>): seq<Entry> {
    if entries == [] then []
    else Others(entries[..|entries| - 1], ids)
         + (if entries[|entries| - 1].Id() in ids then [] else [entries[|entries| - 1]])
  }

  function Take<T>(s: seq<T>, n: nat): seq<T> {
    if n <= |s| then s[..n] else s
  }

  function Reserved(batchSize: int, explorationSlots: nat): nat {
    Min(explorationSlots, Max(0, batchSize - 1))
  }

  function Merit(ranked: seq<Entry>, batchSize: int, explorationSlots: nat): seq<Entry>
    requires batchSize > 0
  {
    Take(ranked, batchSize - Reserved(batchSize, explorationSlots))
  }

  function Explorers(ranked: seq<Entry>, batchSize: int, explorationSlots: nat): seq<Entry>
    requires batchSize > 0
  {
    Take(Sort(Explores, Others(ranked, Ids(Merit(ranked, batchSize, explorationSlots)))),
      Reserved(batchSize, explorationSlots))
  }

  function SelectBatch(ranked: seq<Entry>, batchSize: int, explorationSlots: nat): seq<Entry> {
    if batchSize <= 0 || ranked == [] then []
    else if Reserved(batchSize, explorationSlots) == 0 then Merit(ranked, batchSize, explorationSlots)
    else Merit(ranked, batchSize, explorationSlots) + Explorers(ranked, batchSize, explorationSlots)
  }

  lemma {:induction false} OthersAreTheRest(ranked: seq<Entry>, k: nat)
    requires k <= |ranked| && DistinctIds(ranked)
    ensures Others(ranked, Ids(ranked[..k])) == ranked[k..]
  {
    NoneOfTheMerit(ranked, k);
    OthersFrom(ranked, Ids(ranked[..k]), k);
  }

  lemma NoneOfTheMerit(ranked: seq<Entry>, k: nat)
    requires k <= |ranked| && DistinctIds(ranked)
    ensures forall i :: 0 <= i < |ranked| ==> (ranked[i].Id() in Ids(ranked[..k]) <==> i < k)
  {
    forall i | 0 <= i < |ranked| ensures ranked[i].Id() in Ids(ranked[..k]) <==> i < k {
      if i < k {
        assert ranked[i] == ranked[..k][i];
      }
    }
  }

  lemma {:induction false} OthersFrom(ranked: seq<Entry>, ids: set<ProviderId>, k: nat)
    requires k <= |ranked| && forall i :: 0 <= i < |ranked| ==> (ranked[i].Id() in ids <==> i < k)
    ensures Others(ranked, ids) == ranked[k..]
  {
    if ranked == [] {
    } else {
      var n := |ranked| - 1;
      OthersFrom(ranked[..n], ids, Min(k, n));
      if k <= n { assert ranked[k..] == ranked[..n][k..] + [ranked[n]]; }
    }
  }

  /** The rest of the ranking, in exploration order. */
  lemma ExplorationOrder(ranked: seq<Entry>, k: nat)
    requires k <= |ranked| && DistinctIds(ranked)
    ensures var pool := Sort(Explores, Others(ranked, Ids(ranked[..k])));
      && multiset(pool) == multiset(ranked[k..]) && |pool| == |ranked| - k
      && Sorted(Explores, pool)
  {
    OthersAreTheRest(ranked, k);
    RankingOrders(ranked[k..]);
    SortIsSorted(Explores, ranked[k..]);
    SortKeeps(Explores, ranked[k..]);
  }

  /** How many of the ranking the merit seats take. */
  function MeritTaken(n: nat, batchSize: int, explorationSlots: nat): nat
    requires batchSize > 0
  {
    Min(n, batchSize - Reserved(batchSize, explorationSlots))
  }

  /** The selection in one form: the first `k` of the ranking, then the first
      reserved seats of the rest in exploration order. */
  lemma BatchParts(ranked: seq<Entry>, batchSize: int, explorationSlots: nat)
    requires DistinctIds(ranked) && batchSize > 0
    ensures var k := MeritTaken(|ranked|, batchSize, explorationSlots);
      var pool := Sort(Explores, Others(ranked, Ids(ranked[..k])));
      && Merit(ranked, batchSize, explorationSlots) == ranked[..k]
      && SelectBatch(ranked, batchSize, explorationSlots) == ranked[..k]
        + Take(pool, Reserved(batchSize, explorationSlots))
      && |pool| == |ranked| - k && multiset(pool) == multiset(ranked[k..]) && Sorted(Explores, pool)
  {
    hide Others, Ids;
    var k := MeritTaken(|ranked|, batchSize, explorationSlots);
    assert Merit(ranked, batchSize, explorationSlots) == ranked[..k];
    ExplorationOrder(ranked, k);
    if ranked == [] {
      assert ranked[..k] == [];
    }
  }

  lemma EveryRankedOnce(ranked: seq<Entry>, pool: seq<Entry>, k: nat)
    requires DistinctIds(ranked) && k <= |ranked| && multiset(pool) == multiset(ranked[k..])
    ensures DistinctIds(ranked[..k] + pool) && multiset(ranked[..k] + pool) == multiset(ranked)
  {
    assert ranked == ranked[..k] + ranked[k..];
    DistinctByIds(ranked, ranked[..k] + pool);
  }

  /** selectBatch gives exactly min(batchSize, n) different providers of the
      ranking, the top one among them. */
  lemma BatchIsExact(ranked: seq<Entry>, batchSize: int, explorationSlots: nat)
    requires DistinctIds(ranked) && batchSize > 0
    ensures var batch := SelectBatch(ranked, batchSize, explorationSlots);
      && |batch| == Min(batchSize, |ranked|)
      && DistinctIds(batch)
      && (forall e :: e in batch ==> e in ranked)
      && (ranked != [] ==> ranked[0] in batch)
  {
    hide SelectBatch, Others, Ids, Merit, DistinctIds;
    var k := MeritTaken(|ranked|, batchSize, explorationSlots);
    var pool := Sort(Explores, Others(ranked, Ids(ranked[..k])));
    var seats := Reserved(batchSize, explorationSlots);
    BatchParts(ranked, batchSize, explorationSlots);
    EveryRankedOnce(ranked, pool, k);
    SameElements(ranked[..k] + pool, ranked);
    var batch, all := ranked[..k] + Take(pool, seats), ranked[..k] + pool;
    assert batch == all[..|batch|];
    PrefixIsDistinct(all, |batch|);
    if ranked != [] { assert batch[0] == ranked[0]; }
  }

  lemma PrefixIsDistinct(entries: seq<Entry>, n: nat)
    requires DistinctIds(entries) && n <= |entries|
    ensures DistinctIds(entries[..n])
  {
  }

  lemma SortedSplit<T(!new)>(le: (T, T) -> bool, s: seq<T>, n: nat, x: T)
    requires Sorted(le, s) && n <= |s| && x in s && x !in s[..n]
    ensures forall i :: 0 <= i < n ==> le(s[i], x)
  {
    var j :| 0 <= j < |s| && s[j] == x;
    forall i | 0 <= i < n ensures s[i] != x { assert s[..n][i] == s[i]; }
  }

  /** No one is passed over unfairly: a provider left out outranks no merit seat and
      precedes no explorer in the order of fewest dispatches, best score, id. */
  lemma OmittedAreBehind(ranked: seq<Entry>, batchSize: int, explorationSlots: nat, omitted: Entry)
    requires DistinctIds(ranked) && Sorted(Outranks, ranked) && batchSize > 0
    requires omitted in ranked && omitted !in SelectBatch(ranked, batchSize, explorationSlots)
    ensures forall e :: e in Merit(ranked, batchSize, explorationSlots) ==> Outranks(e, omitted)
    ensures forall e :: e in Explorers(ranked, batchSize, explorationSlots) ==> Explores(e, omitted)
  {
    OmittedExplorer(ranked, batchSize, explorationSlots, omitted);
    hide Others, Ids, Outranks, Explores;
    var k := MeritTaken(|ranked|, batchSize, explorationSlots);
    BatchParts(ranked, batchSize, explorationSlots);
    assert omitted !in ranked[..k];
    SortedSplit(Outranks, ranked, k, omitted);
  }

  /** The half of it that does not need the ranking to be sorted. */
  lemma OmittedExplorer(ranked: seq<Entry>, batchSize: int, explorationSlots: nat, omitted: Entry)
    requires DistinctIds(ranked) && batchSize > 0
    requires omitted in ranked && omitted !in SelectBatch(ranked, batchSize, explorationSlots)
    ensures forall e :: e in Explorers(ranked, batchSize, explorationSlots) ==> Explores(e, omitted)
    ensures |Explorers(ranked, batchSize, explorationSlots)| == Reserved(batchSize, explorationSlots)
    ensures forall e :: e in Explorers(ranked, batchSize, explorationSlots) ==>
      e in SelectBatch(ranked, batchSize, explorationSlots)
  {
    hide Others, Ids, Explores;
    var k := MeritTaken(|ranked|, batchSize, explorationSlots);
    var pool := Sort(Explores, Others(ranked, Ids(ranked[..k])));
    var seats := Reserved(batchSize, explorationSlots);
    BatchParts(ranked, batchSize, explorationSlots);
    assert omitted !in ranked[..k] && omitted !in Take(pool, seats);
    assert ranked == ranked[..k] + ranked[k..];
    assert omitted in ranked[k..];
    SameElements(pool, ranked[k..]);
    if seats <= |pool| {
      SortedSplit(Explores, pool, seats, omitted);
    }
  }
}

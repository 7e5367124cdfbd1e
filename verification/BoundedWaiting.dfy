/** No provider is locked out: however the scores fall, a reserved seat bounds how many
    rounds a provider can wait. Without one the weights decide, exactly. */
module BoundedWaiting {
  import opened Sorting
  import opened Ranking
  import opened Eligibility
  import Options

  /** Past dispatches per provider: the rows counted by countPastDispatches. */
  type Counts = map<ProviderId, nat>

  /** One round ranks the whole pool, with arbitrary scores and the current counts. */
  ghost predicate IsRound(ranked: seq<Entry>, pool: seq<ProviderId>, counts: Counts) {
    && DistinctIds(ranked)
    && (forall p :: p in pool ==> p in counts)
    && (forall e :: e in ranked ==> e.Id() in pool && e.Past() == counts[e.Id()])
    && (forall p :: p in pool ==> exists e :: e in ranked && e.Id() == p)
  }

  function Selected(ranked: seq<Entry>, batchSize: int, explorationSlots: nat): set<ProviderId> {
    Ids(SelectBatch(ranked, batchSize, explorationSlots))
  }

  /** Each selected provider gains one dispatch. */
  function After(counts: Counts, selected: set<ProviderId>): Counts {
    map p | p in counts :: if p in selected then counts[p] + 1 else counts[p]
  }

  ghost predicate ValidRun(rounds: seq<seq<Entry>>, pool: seq<ProviderId>, counts: Counts, batchSize: int, slots: nat)
    decreases |rounds|
  {
    rounds == [] ||
    (IsRound(rounds[0], pool, counts) &&
     ValidRun(rounds[1..], pool, After(counts, Selected(rounds[0], batchSize, slots)), batchSize, slots))
  }

  ghost predicate NeverSelected(rounds: seq<seq<Entry>>, p: ProviderId, batchSize: int, slots: nat) {
    forall i :: 0 <= i < |rounds| ==> p !in Selected(rounds[i], batchSize, slots)
  }

  /** How many dispatches the others can still receive ahead of `p`. */
  function Deficit(pool: seq<ProviderId>, counts: Counts, p: ProviderId): nat
    requires p in counts && forall q :: q in pool ==> q in counts
  {
    if pool == [] then 0
    else
      var q := pool[|pool| - 1];
      Deficit(pool[..|pool| - 1], counts, p)
        + (if q == p || counts[q] > counts[p] then 0 else counts[p] + 1 - counts[q])
  }

  /** A round that leaves `p` out dispatches to someone dispatched to no more often. */
  lemma SomeoneBehindIsSelected(ranked: seq<Entry>, pool: seq<ProviderId>, counts: Counts, batchSize: int, slots: nat,
          p: ProviderId)
    returns (q: ProviderId)
    requires IsRound(ranked, pool, counts) && p in pool && batchSize > 0 && Reserved(batchSize, slots) > 0
    requires p !in Selected(ranked, batchSize, slots)
    ensures q in pool && q != p && q in Selected(ranked, batchSize, slots) && counts[q] <= counts[p]
  {
    hide SelectBatch, Explorers;
    var omitted :| omitted in ranked && omitted.Id() == p;
    var batch, explorers := SelectBatch(ranked, batchSize, slots), Explorers(ranked, batchSize, slots);
    assert omitted in batch ==> omitted.Id() in Ids(batch);
    OmittedExplorer(ranked, batchSize, slots, omitted);
    BatchIsExact(ranked, batchSize, slots);
    var e := explorers[0];
    assert e in explorers && e in batch && e in ranked;
    q := e.Id();
  }

  lemma {:induction false} DeficitNeverGrows(pool: seq<ProviderId>, counts: Counts, later: Counts, p: ProviderId)
    requires p in counts && p in later && (forall q :: q in pool ==> q in counts && q in later && counts[q] <= later[q])
    requires later[p] == counts[p]
    ensures Deficit(pool, later, p) <= Deficit(pool, counts, p)
  {
    if pool != [] {
      assert pool[|pool| - 1] in pool;
      assert forall q :: q in pool[..|pool| - 1] ==> q in pool;
      DeficitNeverGrows(pool[..|pool| - 1], counts, later, p);
    }
  }

  lemma {:induction false} DeficitFalls(pool: seq<ProviderId>, counts: Counts, later: Counts, p: ProviderId,
          q: ProviderId)
    requires p in counts && p in later && (forall r :: r in pool ==> r in counts && r in later && counts[r] <= later[r])
    requires later[p] == counts[p] && q in pool && q != p && counts[q] <= counts[p] && later[q] > counts[q]
    ensures Deficit(pool, later, p) < Deficit(pool, counts, p)
  {
    var n := |pool| - 1;
    assert pool[n] in pool && forall r :: r in pool[..n] ==> r in pool;
    if pool[n] == q {
      DeficitNeverGrows(pool[..n], counts, later, p);
    } else {
      assert q in pool[..n] by { var i :| 0 <= i < |pool| && pool[i] == q; assert pool[..n][i] == q; }
      DeficitFalls(pool[..n], counts, later, p, q);
    }
  }

  /** With a reserved seat, a provider can be passed over at most `Deficit` rounds in
      a row, whatever the scores: it is selected within one more. */
  lemma {:induction false} BoundedWait(rounds: seq<seq<Entry>>, pool: seq<ProviderId>, counts: Counts, batchSize: int,
          slots: nat, p: ProviderId)
    requires batchSize > 0 && Reserved(batchSize, slots) > 0
    requires p in pool && (forall q :: q in pool ==> q in counts) && ValidRun(rounds, pool, counts, batchSize, slots)
    requires NeverSelected(rounds, p, batchSize, slots)
    ensures |rounds| <= Deficit(pool, counts, p)
    decreases |rounds|
  {
    if rounds == [] {
    } else {
      hide Selected, IsRound, Reserved;
      var selected := Selected(rounds[0], batchSize, slots);
      var later := After(counts, selected);
      var q := SomeoneBehindIsSelected(rounds[0], pool, counts, batchSize, slots, p);
      DeficitFalls(pool, counts, later, p, q);
      assert forall i :: 0 <= i < |rounds[1..]| ==> rounds[1..][i] == rounds[i + 1];
      BoundedWait(rounds[1..], pool, later, batchSize, slots, p);
    }
  }

  // ---------------------------------------------- rounds as the engine ranks them

  /** What one round reads: the candidates of the whole pool, the radius and the moment. */
  datatype Round = Round(candidates: seq<Candidate>, radiusKm: real, dayOfWeek: nat, minuteOfDay: nat)

  function ContextOf(round: Round): Context {
    Context(round.radiusKm, round.dayOfWeek, round.minuteOfDay, MaxPast(round.candidates))
  }

  function RankedIn(round: Round, weights: Weights): seq<Entry> {
    RankCandidates(round.candidates, ContextOf(round), weights)
  }

  /** A configuration of seats and weights. */
  datatype Seats = Seats(batchSize: nat, slots: nat, weights: Weights)

  function Chosen(round: Round, s: Seats): set<ProviderId> {
    Selected(RankedIn(round, s.weights), s.batchSize, s.slots)
  }

  /** The candidates are the pool, each once, with the current counts. */
  ghost predicate IsPoolRound(round: Round, pool: seq<ProviderId>, counts: Counts) {
    && DistinctProviders(round.candidates)
    && (forall p :: p in pool ==> p in counts)
    && (forall c :: c in round.candidates ==> c.providerId in pool && c.pastDispatchCount == counts[c.providerId])
    && (forall p :: p in pool ==> exists c :: c in round.candidates && c.providerId == p)
  }

  ghost predicate IsRun(rounds: seq<Round>, pool: seq<ProviderId>, counts: Counts, s: Seats)
    decreases |rounds|
  {
    rounds == [] ||
    (IsPoolRound(rounds[0], pool, counts) && IsRun(rounds[1..], pool, After(counts, Chosen(rounds[0], s)), s))
  }

  ghost predicate PassedOver(rounds: seq<Round>, p: ProviderId, s: Seats) {
    forall i :: 0 <= i < |rounds| ==> p !in Chosen(rounds[i], s)
  }

  lemma EntryIsScored(candidates: seq<Candidate>, at: Context, weights: Weights, e: Entry)
    requires DistinctProviders(candidates) && e in RankCandidates(candidates, at, weights)
    ensures e.candidate in candidates && e.score == WeightedSum(Breakdown(e.candidate, at), weights, 9)
  {
    hide Breakdown, WeightedSum;
    RankingIsSorted(candidates, at, weights);
    SameElements(RankCandidates(candidates, at, weights), Scored(candidates, at, weights));
    ScoredEntries(candidates, at, weights);
  }

  lemma CandidateIsRanked(candidates: seq<Candidate>, at: Context, weights: Weights, c: Candidate) returns (e: Entry)
    requires DistinctProviders(candidates) && c in candidates
    ensures e in RankCandidates(candidates, at, weights) && e.candidate == c
  {
    hide Breakdown, WeightedSum;
    RankingIsSorted(candidates, at, weights);
    SameElements(RankCandidates(candidates, at, weights), Scored(candidates, at, weights));
    ScoredEntries(candidates, at, weights);
    var i :| 0 <= i < |candidates| && candidates[i] == c;
    e := Scored(candidates, at, weights)[i];
    assert e in Scored(candidates, at, weights);
  }

  lemma PoolRoundIsRound(round: Round, pool: seq<ProviderId>, counts: Counts, weights: Weights)
    requires IsPoolRound(round, pool, counts)
    ensures IsRound(RankedIn(round, weights), pool, counts)
  {
    hide RankCandidates, WeightedSum, Breakdown, MaxPast;
    RankingIsSorted(round.candidates, ContextOf(round), weights);
    hide Sorted, Scored, Outranks, DistinctIds;
    forall e | e in RankedIn(round, weights) ensures e.Id() in pool && e.Past() == counts[e.Id()] {
      EntryIsScored(round.candidates, ContextOf(round), weights, e);
    }
    forall p | p in pool ensures exists e :: e in RankedIn(round, weights) && e.Id() == p {
      var c :| c in round.candidates && c.providerId == p;
      var e := CandidateIsRanked(round.candidates, ContextOf(round), weights, c);
      assert e in RankedIn(round, weights) && e.Id() == p;
    }
  }

  function RankedAll(rounds: seq<Round>, weights: Weights): seq<seq<Entry>> {
    seq(|rounds|, i requires 0 <= i < |rounds| => RankedIn(rounds[i], weights))
  }

  lemma {:induction false} RunIsValid(rounds: seq<Round>, pool: seq<ProviderId>, counts: Counts, s: Seats)
    requires IsRun(rounds, pool, counts, s)
    ensures ValidRun(RankedAll(rounds, s.weights), pool, counts, s.batchSize, s.slots)
    decreases |rounds|
  {
    hide RankedIn, Selected, IsRound, IsPoolRound;
    if rounds != [] {
      PoolRoundIsRound(rounds[0], pool, counts, s.weights);
      RunIsValid(rounds[1..], pool, After(counts, Chosen(rounds[0], s)), s);
      assert RankedAll(rounds, s.weights)[1..] == RankedAll(rounds[1..], s.weights);
    }
  }

  /** A pool, and one of its providers waiting. */
  ghost predicate Waits(pool: seq<ProviderId>, counts: Counts, p: ProviderId) {
    p in pool && forall q :: q in pool ==> q in counts
  }

  lemma SeatBoundsWait(rounds: seq<Round>, pool: seq<ProviderId>, counts: Counts, s: Seats, p: ProviderId)
    requires s.batchSize > 0 && Reserved(s.batchSize, s.slots) > 0
    requires Waits(pool, counts, p) && IsRun(rounds, pool, counts, s) && PassedOver(rounds, p, s)
    ensures |rounds| <= Deficit(pool, counts, p)
  {
    hide RankedIn, Selected, IsRun, ValidRun;
    RunIsValid(rounds, pool, counts, s);
    BoundedWait(RankedAll(rounds, s.weights), pool, counts, s.batchSize, s.slots, p);
  }

  // ------------------------------------- without a reserved seat: the weights decide

  /** The most that distance, availability, verification and experience can add up to. */
  function MeritWeight(weights: Weights): real { WeightTotal(weights, 4) }

  function ExplorationWeight(weights: Weights): real { weights[4] }

  /** A score is a merit part, at most the merit weight, and the exploration signal. */
  lemma ScoreInTwo(c: Candidate, at: Context, weights: Weights)
    ensures var merit := WeightedSum(Breakdown(c, at), weights, 4);
      && 0.0 <= merit <= MeritWeight(weights)
      && WeightedSum(Breakdown(c, at), weights, 9)
         == merit + NormaliseExploration(c.pastDispatchCount, at.maxPastDispatchCount) * ExplorationWeight(weights)
  {
    var b := Breakdown(c, at);
    SignalsAreNormalised(c, at);
    WeightedSumInTotal(b, weights, 4);
    assert WeightedSum(b, weights, 5) == WeightedSum(b, weights, 4) + b[4] * weights[4];
    assert WeightedSum(b, weights, 7) == WeightedSum(b, weights, 5) + b[5] * weights[5] + b[6] * weights[6];
    assert WeightedSum(b, weights, 9) == WeightedSum(b, weights, 7) + b[7] * weights[7] + b[8] * weights[8];
  }

  lemma {:induction false} MaxPastIsMax(candidates: seq<Candidate>)
    ensures forall c :: c in candidates ==> c.pastDispatchCount <= MaxPast(candidates)
    ensures MaxPast(candidates) == 0 || exists c :: c in candidates && c.pastDispatchCount == MaxPast(candidates)
  {
    if candidates != [] {
      var front, last := candidates[..|candidates| - 1], candidates[|candidates| - 1];
      MaxPastIsMax(front);
      assert forall c :: c in candidates <==> c in front || c == last;
      assert last in candidates;
    }
  }

  lemma Rearranged(a: real, b: real, weight: real, merit: real, other: real, cap: real)
    requires merit + (1.0 - a) * weight >= other + (1.0 - b) * weight && merit <= cap && other >= 0.0
    ensures a * weight <= b * weight + cap
  {
    assert (1.0 - a) * weight == weight - a * weight && (1.0 - b) * weight == weight - b * weight;
  }

  lemma Scaled(x: real, y: real, m: real)
    requires x <= y && m >= 0.0
    ensures x * m <= y * m
  {
    assert (y - x) * m >= 0.0;
  }

  lemma ScaledLead(a: real, b: real, weight: real, cap: real, m: real)
    requires a * weight <= b * weight + cap && m >= 0.0
    ensures (a * m) * weight <= (b * m) * weight + cap * m
  {
    Scaled(a * weight, b * weight + cap, m);
    assert (b * weight + cap) * m == b * weight * m + cap * m;
    assert a * weight * m == (a * m) * weight && b * weight * m == (b * m) * weight;
  }

  /** The exploration signal is linear in the dispatches, up to the maximum. */
  lemma ExplorationIsLinear(n: nat, max: nat) returns (share: real)
    requires n <= max && max > 0
    ensures share * max as real == n as real && NormaliseExploration(n, max) == 1.0 - share
  {
    share := n as real / max as real;
    assert 0.0 <= share <= 1.0;
  }

  /** How far ahead in dispatches a provider may be and still outscore another. */
  lemma LeadIsBounded(ahead: nat, behind: nat, max: nat, merit: real, other: real, weight: real, cap: real)
    requires ahead <= max && behind <= max && merit <= cap && other >= 0.0
    requires merit + NormaliseExploration(ahead, max) * weight >= other + NormaliseExploration(behind, max) * weight
    ensures ahead as real * weight <= behind as real * weight + cap * max as real
  {
    hide NormaliseExploration;
    if max == 0 {
      assert ahead as real * weight == 0.0 && behind as real * weight == 0.0 && cap * max as real == 0.0;
    } else {
      var a := ExplorationIsLinear(ahead, max);
      var b := ExplorationIsLinear(behind, max);
      Rearranged(a, b, weight, merit, other, cap);
      ScaledLead(a, b, weight, cap, max as real);
    }
  }

  /** Without a reserved seat every provider selected outranks the one passed over. */
  lemma ChosenOutranks(round: Round, pool: seq<ProviderId>, counts: Counts, s: Seats, p: ProviderId, q: ProviderId)
    returns (chosen: Entry, omitted: Entry)
    requires s.batchSize > 0 && Reserved(s.batchSize, s.slots) == 0 && Waits(pool, counts, p)
    requires IsPoolRound(round, pool, counts) && p !in Chosen(round, s) && q in Chosen(round, s)
    ensures chosen in RankedIn(round, s.weights) && omitted in RankedIn(round, s.weights)
    ensures chosen.Id() == q && omitted.Id() == p && chosen.score >= omitted.score
  {
    hide RankCandidates, SelectBatch, Merit;
    var ranked := RankedIn(round, s.weights);
    var c :| c in round.candidates && c.providerId == p;
    omitted := CandidateIsRanked(round.candidates, ContextOf(round), s.weights, c);
    var batch := SelectBatch(ranked, s.batchSize, s.slots);
    chosen :| chosen in batch && chosen.Id() == q;
    assert omitted in batch ==> omitted.Id() in Ids(batch);
    RankingIsSorted(round.candidates, ContextOf(round), s.weights);
    BatchIsExact(ranked, s.batchSize, s.slots);
    BatchIsMerit(ranked, s.batchSize, s.slots);
    OmittedAreBehind(ranked, s.batchSize, s.slots, omitted);
  }

  lemma ChosenOutscore(round: Round, pool: seq<ProviderId>, counts: Counts, s: Seats, p: ProviderId, q: ProviderId)
    requires s.batchSize > 0 && Reserved(s.batchSize, s.slots) == 0 && Waits(pool, counts, p)
    requires IsPoolRound(round, pool, counts) && p !in Chosen(round, s) && q in Chosen(round, s)
    ensures q in pool && counts[q] <= MaxPast(round.candidates)
    ensures counts[q] as real * ExplorationWeight(s.weights)
      <= counts[p] as real * ExplorationWeight(s.weights) + MeritWeight(s.weights) * MaxPast(round.candidates) as real
  {
    var at := ContextOf(round);
    hide RankCandidates, WeightedSum, NormaliseExploration, Breakdown, Chosen, MaxPast, MeritWeight, ExplorationWeight,
      Reserved, DistinctProviders;
    var chosen, omitted := ChosenOutranks(round, pool, counts, s, p, q);
    EntryIsScored(round.candidates, at, s.weights, chosen);
    EntryIsScored(round.candidates, at, s.weights, omitted);
    ScoreInTwo(chosen.candidate, at, s.weights);
    ScoreInTwo(omitted.candidate, at, s.weights);
    MaxPastIsMax(round.candidates);
    LeadIsBounded(chosen.Past(), omitted.Past(), MaxPast(round.candidates),
      WeightedSum(Breakdown(chosen.candidate, at), s.weights, 4),
      WeightedSum(Breakdown(omitted.candidate, at), s.weights, 4), ExplorationWeight(s.weights),
        MeritWeight(s.weights));
  }

  lemma BatchIsMerit(ranked: seq<Entry>, batchSize: nat, slots: nat)
    requires batchSize > 0 && Reserved(batchSize, slots) == 0
    ensures SelectBatch(ranked, batchSize, slots) == Merit(ranked, batchSize, slots)
  {}

  lemma SomeoneIsChosen(round: Round, pool: seq<ProviderId>, counts: Counts, s: Seats) returns (q: ProviderId)
    requires s.batchSize > 0 && pool != [] && IsPoolRound(round, pool, counts)
    ensures q in Chosen(round, s) && q in pool
  {
    hide RankCandidates, SelectBatch;
    var ranked := RankedIn(round, s.weights);
    PoolRoundIsRound(round, pool, counts, s.weights);
    BatchIsExact(ranked, s.batchSize, s.slots);
    assert pool[0] in pool;
    var e :| e in ranked && e.Id() == pool[0];
    q := ranked[0].Id();
    assert ranked[0] in ranked && ranked[0] in SelectBatch(ranked, s.batchSize, s.slots);
  }

  /** A count nobody can reach while `p` waits at `own`, when exploration outweighs merit. */
  ghost predicate IsPeak(peak: nat, own: nat, weights: Weights) {
    peak as real * (ExplorationWeight(weights) - MeritWeight(weights)) > own as real * ExplorationWeight(weights)
  }

  ghost predicate AtMost(pool: seq<ProviderId>, counts: Counts, peak: nat) {
    forall q :: q in pool ==> q in counts && counts[q] <= peak
  }

  /** How many dispatches the others can still receive below the peak. */
  function Room(pool: seq<ProviderId>, counts: Counts, p: ProviderId, peak: nat): nat
    requires AtMost(pool, counts, peak)
  {
    if pool == [] then 0
    else
      var q := pool[|pool| - 1];
      assert forall r :: r in pool[..|pool| - 1] ==> r in pool;
      Room(pool[..|pool| - 1], counts, p, peak) + (if q == p then 0 else peak - counts[q])
  }

  lemma {:induction false} RoomFalls(pool: seq<ProviderId>, counts: Counts, later: Counts, p: ProviderId, peak: nat)
    requires AtMost(pool, counts, peak) && AtMost(pool, later, peak)
    requires forall q :: q in pool ==> counts[q] <= later[q]
    ensures Room(pool, later, p, peak) <= Room(pool, counts, p, peak)
    ensures (exists q :: q in pool && q != p && counts[q] < later[q]) ==>
      Room(pool, later, p, peak) < Room(pool, counts, p, peak)
  {
    if pool != [] {
      var front, last := pool[..|pool| - 1], pool[|pool| - 1];
      assert forall r :: r in pool <==> r in front || r == last;
      RoomFalls(front, counts, later, p, peak);
    }
  }

  lemma FactorsOrder(a: real, b: real, factor: real)
    requires a * factor < b * factor && factor >= 0.0
    ensures a < b
  {
    if a >= b { Scaled(b, a, factor); }
  }

  lemma StaysBelowPeak(ahead: nat, max: nat, peak: nat, own: nat, weights: Weights)
    requires IsPeak(peak, own, weights) && max <= peak
    requires ahead as real * ExplorationWeight(weights)
      <= own as real * ExplorationWeight(weights) + MeritWeight(weights) * max as real
    ensures ahead < peak
  {
    var e, m, top := ExplorationWeight(weights), MeritWeight(weights), peak as real;
    MeritWeightIsNatural(weights);
    Scaled(max as real, top, m);
    assert top * (e - m) == top * e - top * m;
    FactorsOrder(ahead as real, top, e);
  }

  lemma MeritWeightIsNatural(weights: Weights)
    ensures MeritWeight(weights) == weights[0] + weights[1] + weights[2] + weights[3] >= 0.0
  {
    assert WeightTotal(weights, 1) == weights[0];
    assert WeightTotal(weights, 3) == weights[0] + weights[1] + weights[2];
  }

  lemma CountsStayBelow(round: Round, pool: seq<ProviderId>, counts: Counts, s: Seats, p: ProviderId, peak: nat)
    requires s.batchSize > 0 && Reserved(s.batchSize, s.slots) == 0 && Waits(pool, counts, p)
    requires IsPoolRound(round, pool, counts) && p !in Chosen(round, s)
    requires AtMost(pool, counts, peak) && IsPeak(peak, counts[p], s.weights)
    ensures AtMost(pool, After(counts, Chosen(round, s)), peak)
  {
    hide Chosen, IsPeak;
    MaxPastIsMax(round.candidates);
    forall q | q in pool ensures After(counts, Chosen(round, s))[q] <= peak {
      if q in Chosen(round, s) {
        ChosenOutscore(round, pool, counts, s, p, q);
        StaysBelowPeak(counts[q], MaxPast(round.candidates), peak, counts[p], s.weights);
      }
    }
  }

  /** When the exploration weight exceeds the merit weights together, nobody waits for ever
      even without a reserved seat: the others cannot be dispatched to beyond the peak. */
  lemma {:induction false} WeightBoundsWait(rounds: seq<Round>, pool: seq<ProviderId>, counts: Counts, s: Seats,
        p: ProviderId, peak: nat)
    requires s.batchSize > 0 && Reserved(s.batchSize, s.slots) == 0 && Waits(pool, counts, p)
    requires IsRun(rounds, pool, counts, s) && PassedOver(rounds, p, s)
    requires AtMost(pool, counts, peak) && IsPeak(peak, counts[p], s.weights)
    ensures |rounds| <= Room(pool, counts, p, peak)
    decreases |rounds|
  {
    if rounds != [] {
      hide Chosen, IsPeak, IsPoolRound, Reserved;
      var later := After(counts, Chosen(rounds[0], s));
      CountsStayBelow(rounds[0], pool, counts, s, p, peak);
      var q := SomeoneIsChosen(rounds[0], pool, counts, s);
      RoomFalls(pool, counts, later, p, peak);
      assert forall i :: 0 <= i < |rounds[1..]| ==> rounds[1..][i] == rounds[i + 1];
      WeightBoundsWait(rounds[1..], pool, later, s, p, peak);
    }
  }

  function MaxCount(pool: seq<ProviderId>, counts: Counts): nat
    requires forall q :: q in pool ==> q in counts
  {
    if pool == [] then 0
    else
      var most := MaxCount(pool[..|pool| - 1], counts);
      if counts[pool[|pool| - 1]] > most then counts[pool[|pool| - 1]] else most
  }

  lemma {:induction false} MaxCountIsMax(pool: seq<ProviderId>, counts: Counts)
    requires forall q :: q in pool ==> q in counts
    ensures forall q :: q in pool ==> counts[q] <= MaxCount(pool, counts)
  {
    if pool != [] {
      assert forall q :: q in pool <==> q in pool[..|pool| - 1] || q == pool[|pool| - 1];
      MaxCountIsMax(pool[..|pool| - 1], counts);
    }
  }

  lemma QuotientExceeded(x: real, y: real, n: real)
    requires x >= 0.0 && y > 0.0 && n > x / y
    ensures n * y > x && x / y >= 0.0
  {
    var least := x / y;
    assert least * y == x;
    assert (n - least) * y > 0.0;
    assert (n - least) * y == n * y - least * y;
  }

  lemma DividesNatural(x: real, y: real)
    requires x >= 0.0 && y > 0.0
    ensures x / y >= 0.0
  {}

  lemma PeakExists(pool: seq<ProviderId>, counts: Counts, p: ProviderId, weights: Weights) returns (peak: nat)
    requires Waits(pool, counts, p) && ExplorationWeight(weights) > MeritWeight(weights)
    ensures AtMost(pool, counts, peak) && IsPeak(peak, counts[p], weights)
  {
    MeritWeightIsNatural(weights);
    hide ExplorationWeight, MeritWeight;
    MaxCountIsMax(pool, counts);
    var e := ExplorationWeight(weights);
    var most, gap := MaxCount(pool, counts), e - MeritWeight(weights);
    var own := counts[p] as real * e;
    Scaled(0.0, counts[p] as real, e);
    DividesNatural(own, gap);
    var least := (own / gap).Floor + 1;
    peak := if most > least then most else least;
    QuotientExceeded(own, gap, peak as real);
  }

  // -------------------------------------------------------- and when they starve one

  /** Providers 0 to `last`: all but the last are next to the request, available, verified
      and experienced; the last is at the edge of the radius and none of these. */
  function FavouredRound(last: nat, counts: Counts): Round
    requires forall p: nat :: p <= last ==> p in counts
  {
    Round(seq(last + 1, i requires 0 <= i <= last =>
      if i < last then Candidate(i, 0.0, Options.Some(10), [], true, counts[i])
      else Candidate(i, 1.0, Options.None, [Slot(0, 1, 2)], false, counts[i])), 1.0, 0, 0)
  }

  function FavouredRounds(n: nat, s: Seats, counts: Counts): (rounds: seq<Round>)
    requires forall p: nat :: p <= s.batchSize ==> p in counts
    ensures |rounds| == n
  {
    if n == 0 then []
    else
      var round := FavouredRound(s.batchSize, counts);
      [round] + FavouredRounds(n - 1, s, After(counts, Chosen(round, s)))
  }

  function FirstProviders(batchSize: nat): seq<ProviderId> { seq(batchSize + 1, i => i) }

  lemma FavouredRoundIsRound(last: nat, counts: Counts)
    requires forall p: nat :: p <= last ==> p in counts
    ensures IsPoolRound(FavouredRound(last, counts), FirstProviders(last), counts)
  {
    var round, pool := FavouredRound(last, counts), FirstProviders(last);
    forall i: nat | i <= last ensures pool[i] == i && i in pool && round.candidates[i].providerId == i {
      assert pool[i] in pool;
    }
    forall p | p in pool ensures exists c :: c in round.candidates && c.providerId == p {
      assert round.candidates[p] in round.candidates;
    }
  }

  /** The favoured score the full merit weight, the last none of it. */
  lemma FavouredScores(last: nat, counts: Counts, i: nat, weights: Weights)
    requires (forall p: nat :: p <= last ==> p in counts) && i <= last
    ensures var round := FavouredRound(last, counts);
      var score := WeightedSum(Breakdown(round.candidates[i], ContextOf(round)), weights, 9);
      if i < last then score >= MeritWeight(weights) else score <= ExplorationWeight(weights)
  {
    var round := FavouredRound(last, counts);
    var c, at := round.candidates[i], ContextOf(round);
    var b := Breakdown(c, at);
    ScoreInTwo(c, at, weights);
    SignalsAreNormalised(c, at);
    var explored := NormaliseExploration(c.pastDispatchCount, at.maxPastDispatchCount);
    assert b[4] == explored;
    ProductInWeight(explored, weights[4]);
    assert WeightedSum(b, weights, 1) == b[0] * weights[0];
    assert WeightedSum(b, weights, 3) == b[0] * weights[0] + b[1] * weights[1] + b[2] * weights[2];
    MeritWeightIsNatural(weights);
  }

  lemma FavouredRoundOmits(s: Seats, counts: Counts)
    requires s.batchSize > 0 && Reserved(s.batchSize, s.slots) == 0
    requires ExplorationWeight(s.weights) <= MeritWeight(s.weights)
    requires forall p: nat :: p <= s.batchSize ==> p in counts
    ensures s.batchSize !in Chosen(FavouredRound(s.batchSize, counts), s)
  {
    hide RankCandidates, Breakdown, WeightedSum, WeightTotal, MaxPast;
    var last, round := s.batchSize, FavouredRound(s.batchSize, counts);
    var ranked, at := RankedIn(round, s.weights), ContextOf(round);
    FavouredRoundIsRound(last, counts);
    RankingIsSorted(round.candidates, at, s.weights);
    BatchIsMerit(ranked, s.batchSize, s.slots);
    if last in Chosen(round, s) {
      var e :| e in ranked[..last] && e.Id() == last;
      var j :| 0 <= j < last && ranked[j] == e;
      var other := ranked[last];
      EntryIsScored(round.candidates, at, s.weights, e);
      EntryIsScored(round.candidates, at, s.weights, other);
      FavouredScores(last, counts, last, s.weights);
      FavouredScores(last, counts, other.Id(), s.weights);
    }
  }

  /** Without a reserved seat, and unless exploration outweighs merit, there is no bound: for
      every number of rounds, some run of the engine's own rankings never selects the last of
      a pool one larger than the batch. */
  lemma {:induction false} NoSeatNoBound(n: nat, s: Seats, counts: Counts)
    requires s.batchSize > 0 && Reserved(s.batchSize, s.slots) == 0
    requires ExplorationWeight(s.weights) <= MeritWeight(s.weights)
    requires forall p: nat :: p <= s.batchSize ==> p in counts
    ensures var rounds := FavouredRounds(n, s, counts);
      IsRun(rounds, FirstProviders(s.batchSize), counts, s) && PassedOver(rounds, s.batchSize, s)
    decreases n
  {
    hide Chosen, IsPoolRound, Reserved, FavouredRound, FirstProviders, MeritWeight, ExplorationWeight;
    if n > 0 {
      FavouredRoundIsRound(s.batchSize, counts);
      FavouredRoundOmits(s, counts);
      NoSeatNoBound(n - 1, s, After(counts, Chosen(FavouredRound(s.batchSize, counts), s)));
    }
  }

  // ------------------------------------------------------------ the exact condition

  ghost predicate WaitsAtMost(pool: seq<ProviderId>, counts: Counts, p: ProviderId, s: Seats, bound: nat) {
    forall rounds :: IsRun(rounds, pool, counts, s) && PassedOver(rounds, p, s) ==> |rounds| <= bound
  }

  /** In every pool, from every history, every provider's wait has a bound. */
  ghost predicate NobodyIsLockedOut(s: Seats) {
    forall pool, counts, p :: Waits(pool, counts, p) ==> exists bound: nat :: WaitsAtMost(pool, counts, p, s, bound)
  }

  lemma BoundExists(s: Seats, pool: seq<ProviderId>, counts: Counts, p: ProviderId) returns (bound: nat)
    requires s.batchSize > 0 && Waits(pool, counts, p)
    requires Reserved(s.batchSize, s.slots) > 0 || ExplorationWeight(s.weights) > MeritWeight(s.weights)
    ensures WaitsAtMost(pool, counts, p, s, bound)
  {
    hide IsRun, PassedOver, ExplorationWeight, MeritWeight, IsPeak;
    if Reserved(s.batchSize, s.slots) > 0 {
      bound := Deficit(pool, counts, p);
      forall rounds | IsRun(rounds, pool, counts, s) && PassedOver(rounds, p, s) ensures |rounds| <= bound {
        SeatBoundsWait(rounds, pool, counts, s, p);
      }
    } else {
      var peak := PeakExists(pool, counts, p, s.weights);
      bound := Room(pool, counts, p, peak);
      forall rounds | IsRun(rounds, pool, counts, s) && PassedOver(rounds, p, s) ensures |rounds| <= bound {
        WeightBoundsWait(rounds, pool, counts, s, p, peak);
      }
    }
  }

  /** A configuration locks nobody out exactly when it reserves a seat or weighs exploration
      more than distance, availability, verification and experience together. */
  lemma LockOutExactly(s: Seats)
    requires s.batchSize > 0
    ensures NobodyIsLockedOut(s) <==>
      Reserved(s.batchSize, s.slots) > 0 || ExplorationWeight(s.weights) > MeritWeight(s.weights)
  {
    hide IsRun, PassedOver, ExplorationWeight, MeritWeight, Reserved, WaitsAtMost;
    if Reserved(s.batchSize, s.slots) > 0 || ExplorationWeight(s.weights) > MeritWeight(s.weights) {
      forall pool, counts, p | Waits(pool, counts, p)
        ensures exists bound: nat :: WaitsAtMost(pool, counts, p, s, bound)
      {
        var bound := BoundExists(s, pool, counts, p);
      }
    } else {
      var pool := FirstProviders(s.batchSize);
      var counts: Counts := map p | p in pool :: 0;
      forall p: nat | p <= s.batchSize ensures p in counts { assert pool[p] in pool; }
      assert Waits(pool, counts, s.batchSize) by { assert pool[s.batchSize] in pool; }
      forall bound: nat ensures !WaitsAtMost(pool, counts, s.batchSize, s, bound) {
        NoSeatNoBound(bound + 1, s, counts);
        StarvedBeyond(pool, counts, s, bound, FavouredRounds(bound + 1, s, counts));
      }
    }
  }

  lemma StarvedBeyond(pool: seq<ProviderId>, counts: Counts, s: Seats, bound: nat, rounds: seq<Round>)
    requires IsRun(rounds, pool, counts, s) && PassedOver(rounds, s.batchSize, s) && |rounds| > bound
    ensures !WaitsAtMost(pool, counts, s.batchSize, s, bound)
  {}
}

/** Progressive dispatch of one request: dispatch.service.ts, the state changes of
    matching.service.ts, the job ids of matching.queue.ts and the request life cycle
    of request.service.ts. Each operation is one step; the configuration is fixed. */
module Dispatch {
  import opened Options
  import opened Ranking
  import opened Eligibility

  datatype RequestStatus = Draft | Requested | Matching | Withdrawn

  /** None stands for an absent or empty field; `urgency` holds "is it urgent". */
  datatype Fields = Fields(
    serviceId: Option<nat>, interventionTypeId: Option<nat>, complexityId: Option<nat>,
    description: Option<nat>, urgency: Option<bool>, location: Option<nat>)

  datatype Request = Request(status: RequestStatus, fields: Fields)

  datatype Mode = Auto | Direct
  datatype MatchStatus = Active | Exhausted | Cancelled
  datatype Match = Match(mode: Mode, status: MatchStatus, radiusKm: real, batchCount: nat, nextBatchAt: Option<nat>)

  datatype ContactStatus = Notified | Viewed | Declined | Expired
  /** What the ranking said of a provider when it was dispatched to. */
  datatype Offer = Offer(providerId: ProviderId, score: real, breakdown: Signals, distanceKm: Amount)
  datatype Contact = Contact(
    providerId: ProviderId, batchIndex: nat, status: ContactStatus, score: real, breakdown: Signals, distanceKm: Amount,
    declineReason: Option<nat>, expiresAt: nat)
  datatype Batch = Batch(index: nat, radiusKm: real, providerIds: seq<ProviderId>)

  /** Everything stored about one request. `jobs` holds the pending delayed jobs by the
      batch number in their id, so scheduling the same number twice changes nothing. */
  datatype State = State(
    request: Request, current: Option<Match>, contacts: seq<Contact>, batches: seq<Batch>, jobs: set<nat>)

  datatype Settings = Settings(
    defaultRadiusKm: real, range: Range, batchSize: nat, urgentBatchSize: nat, explorationSlots: nat,
    weights: Weights, maxBatches: nat, waitSeconds: nat, urgentWaitSeconds: nat, expirySeconds: nat,
    requireVerified: bool)

  type Config = c: Settings |
    && 0.0 < c.defaultRadiusKm <= c.range.maxKm && c.range.stepKm > 0.0
    && c.batchSize > 0 && c.urgentBatchSize > 0 && c.maxBatches > 0
    witness Settings(1.0, Range(1.0, 1.0), 1, 1, 0, [0.0, 0.0, 0.0, 0.0, 0.0, 0.0, 0.0, 0.0, 0.0], 1, 1, 1, 1, false)

  /** What an operation reads from outside: the providers, their history and the clock,
      and the skills the catalogue asks for the request's complexity. */
  datatype Reading = Reading(world: World, requiredSkillIds: set<nat>)
  type Moment = r: Reading | ValidWorld(r.world) witness Reading(World([], map[], 0, 0, 0), {})

  datatype Error =
    | NotEditable | Incomplete | NotMatchable | NotCancellable | NoMatch | MatchNotActive | RadiusNotWider
    | ProviderNotFound | DispatchNotFound | AlreadyDeclined

  datatype Outcome = Outcome(state: State, error: Option<Error>)

  function Accepted(s: State): Outcome { Outcome(s, None) }
  function Refused(s: State, error: Error): Outcome { Outcome(s, Some(error)) }

  // ------------------------------------------------------------------ one batch

  predicate IsComplete(f: Fields) {
    f.serviceId.Some? && f.interventionTypeId.Some? && f.complexityId.Some? && f.description.Some?
    && f.urgency.Some? && f.location.Some?
  }

  predicate IsUrgent(s: State) { s.request.fields.urgency == Some(true) }

  function Size(c: Config, s: State): nat { if IsUrgent(s) then c.urgentBatchSize else c.batchSize }
  function Wait(c: Config, s: State): nat { if IsUrgent(s) then c.urgentWaitSeconds else c.waitSeconds }

  function Providers(contacts: seq<Contact>): set<ProviderId> {
    set i | 0 <= i < |contacts| :: contacts[i].providerId
  }

  function QueryOf(c: Config, m: Moment, s: State): Option<Query> {
    var f := s.request.fields;
    if f.serviceId.None? || f.complexityId.None? || f.location.None? then None
    else Some(Query(f.serviceId.value, m.requiredSkillIds, Providers(s.contacts), c.requireVerified))
  }

  function PolicyOf(c: Config, s: State): Policy { Policy(Size(c, s), c.explorationSlots, c.weights) }

  function Lapse(contact: Contact, now: nat): Contact {
    if contact.status == Notified && contact.expiresAt < now then contact.(status := Expired) else contact
  }

  function LapseAll(contacts: seq<Contact>, now: nat): seq<Contact> {
    seq(|contacts|, i requires 0 <= i < |contacts| => Lapse(contacts[i], now))
  }

  function OffersOf(selected: seq<Entry>): seq<Offer> {
    seq(|selected|, i requires 0 <= i < |selected| =>
      Offer(selected[i].Id(), selected[i].score, selected[i].breakdown, selected[i].candidate.distanceKm))
  }

  function ProviderIds(offers: seq<Offer>): seq<ProviderId> {
    seq(|offers|, i requires 0 <= i < |offers| => offers[i].providerId)
  }

  function Contacts(offers: seq<Offer>, batchIndex: nat, expiresAt: nat): seq<Contact> {
    seq(|offers|, i requires 0 <= i < |offers| =>
      Contact(offers[i].providerId, batchIndex, Notified, offers[i].score, offers[i].breakdown, offers[i].distanceKm,
              None, expiresAt))
  }

  function Terminated(s: State, status: MatchStatus): State
    requires s.current.Some?
  {
    s.(current := Some(s.current.value.(status := status, nextBatchAt := None)))
  }

  /** persistBatch: the contacts, their batch, the match and the job for the next batch. */
  function WithBatch(c: Config, now: nat, s: State, offers: seq<Offer>, radiusKm: real): State
    requires s.current.Some?
  {
    var index := s.current.value.batchCount;
    State(s.request,
      Some(s.current.value.(batchCount := index + 1, radiusKm := radiusKm, nextBatchAt := Some(now + Wait(c, s)))),
      s.contacts + Contacts(offers, index, now + c.expirySeconds),
      s.batches + [Batch(index, radiusKm, ProviderIds(offers))],
      s.jobs + {index + 1})
  }

  predicate IsActive(s: State) { s.current.Some? && s.current.value.status == Active }

  function AfterBatch(c: Config, m: Moment, s: State): State {
    if !IsActive(s) then s
    else if s.request.status != Matching then Terminated(s, Cancelled)
    else
      var aged := s.(contacts := LapseAll(s.contacts, m.world.now));
      if s.current.value.batchCount >= c.maxBatches then Terminated(aged, Exhausted)
      else
        var (selected, radiusKm) := Search(m.world, QueryOf(c, m, s), PolicyOf(c, s), c.range,
          s.current.value.radiusKm);
        if selected == [] then Terminated(aged.(current := Some(s.current.value.(radiusKm := radiusKm))), Exhausted)
        else WithBatch(c, m.world.now, aged, OffersOf(selected), radiusKm)
  }

  // ----------------------------------------------------------------- operations

  function Edited(s: State, fields: Fields): Outcome {
    if s.request.status != Draft then Refused(s, NotEditable) else Accepted(s.(request := Request(Draft, fields)))
  }

  function Submitted(s: State): Outcome {
    if s.request.status != Draft then Refused(s, NotEditable)
    else if !IsComplete(s.request.fields) then Refused(s, Incomplete)
    else Accepted(s.(request := s.request.(status := Requested)))
  }

  function Withdrawing(s: State): Outcome {
    if s.request.status == Withdrawn then Refused(s, NotCancellable)
    else Accepted(s.(request := s.request.(status := Withdrawn)))
  }

  /** The profile of the provider named in DIRECT mode, and how near its nearest area is. */
  datatype Found = Found(providerId: ProviderId, distanceKm: Amount)

  /** A provider the client picked is not ranked: score 1, no signal. */
  function DirectOffer(found: Found): Offer {
    Offer(found.providerId, 1.0, [0.0, 0.0, 0.0, 0.0, 0.0, 0.0, 0.0, 0.0, 0.0], found.distanceKm)
  }

  /** start. `chosen` is the profile found for the provider named in DIRECT mode. A DIRECT
      start that finds none fails after the match was already stored as ACTIVE. */
  function Started(c: Config, m: Moment, s: State, mode: Mode, chosen: Option<Found>): Outcome {
    if s.current.Some? then Accepted(s)
    else if s.request.status != Requested then Refused(s, NotMatchable)
    else
      var begun := s.(request := s.request.(status := Matching),
                       current := Some(Match(mode, Active, c.defaultRadiusKm, 0, None)));
      match mode
      case Auto => Accepted(AfterBatch(c, m, begun))
      case Direct =>
        if chosen.None? then Refused(begun, ProviderNotFound)
        else Accepted(begun.(
          current := Some(Match(Direct, Exhausted, c.defaultRadiusKm, 1, None)),
          contacts := s.contacts + Contacts([DirectOffer(chosen.value)], 0, m.world.now + c.expirySeconds)))
  }

  function Widening(c: Config, m: Moment, s: State, radiusKm: real): Outcome {
    if s.current.None? then Refused(s, NoMatch)
    else if s.current.value.status != Active then Refused(s, MatchNotActive)
    else if radiusKm <= s.current.value.radiusKm then Refused(s, RadiusNotWider)
    else Accepted(AfterBatch(c, m, s.(current := Some(s.current.value.(radiusKm := MinReal(radiusKm, c.range.maxKm))))))
  }

  function WithContact(s: State, i: nat, contact: Contact): State
    requires i < |s.contacts|
  {
    s.(contacts := s.contacts[i := contact])
  }

  function Viewing(s: State, i: nat): Outcome {
    if i >= |s.contacts| then Refused(s, DispatchNotFound)
    else if s.contacts[i].status == Notified then Accepted(WithContact(s, i, s.contacts[i].(status := Viewed)))
    else Accepted(s)
  }

  function Declining(s: State, i: nat, reason: Option<nat>): Outcome {
    if i >= |s.contacts| then Refused(s, DispatchNotFound)
    else if s.contacts[i].status == Declined then Refused(s, AlreadyDeclined)
    else Accepted(WithContact(s, i, s.contacts[i].(status := Declined, declineReason := reason)))
  }

  /** A pending job runs the batch and is removed once it completes. */
  function Fired(c: Config, m: Moment, s: State, job: nat): State {
    if job in s.jobs then var t := AfterBatch(c, m, s); t.(jobs := t.jobs - {job}) else s
  }

  datatype Step =
    | Edit(fields: Fields) | Submit | Withdraw | Start(mode: Mode, chosen: Option<Found>, m: Moment)
    | Fire(job: nat, m: Moment) | Widen(radiusKm: real, m: Moment) | View(contact: nat)
    | Decline(contact: nat, reason: Option<nat>)

  function Next(c: Config, s: State, step: Step): State {
    match step
    case Edit(fields) => Edited(s, fields).state
    case Submit => Submitted(s).state
    case Withdraw => Withdrawing(s).state
    case Start(mode, chosen, m) => Started(c, m, s, mode, chosen).state
    case Fire(job, m) => Fired(c, m, s, job)
    case Widen(radiusKm, m) => Widening(c, m, s, radiusKm).state
    case View(i) => Viewing(s, i).state
    case Decline(i, reason) => Declining(s, i, reason).state
  }

  function Initial(): State {
    State(Request(Draft, Fields(None, None, None, None, None, None)), None, [], [], {})
  }

  function Run(c: Config, s: State, steps: seq<Step>): State
    decreases |steps|
  {
    if steps == [] then s else Run(c, Next(c, s, steps[0]), steps[1..])
  }

  // ------------------------------------------------------------------ invariant

  function Tagged(providerIds: seq<ProviderId>, index: nat): seq<(ProviderId, nat)> {
    seq(|providerIds|, i requires 0 <= i < |providerIds| => (providerIds[i], index))
  }

  /** Who each stored batch says was contacted, and in which batch. */
  function Flat(batches: seq<Batch>): seq<(ProviderId, nat)> {
    if batches == [] then []
    else Flat(batches[..|batches| - 1]) + Tagged(batches[|batches| - 1].providerIds, batches[|batches| - 1].index)
  }

  function Tags(contacts: seq<Contact>): seq<(ProviderId, nat)> {
    seq(|contacts|, i requires 0 <= i < |contacts| => (contacts[i].providerId, contacts[i].batchIndex))
  }

  ghost predicate NobodyTwice(contacts: seq<Contact>) {
    forall i, j :: 0 <= i < j < |contacts| ==> contacts[i].providerId != contacts[j].providerId
  }

  /** Batches are numbered from 0 without a gap, none is empty or too big. */
  ghost predicate WellBatched(batches: seq<Batch>, size: nat) {
    forall i :: 0 <= i < |batches| ==> batches[i].index == i && 1 <= |batches[i].providerIds| <= size
  }

  /** The contacts are exactly the members of the stored batches, or the one provider a
      DIRECT start named. */
  ghost predicate Accounted(c: Config, s: State, current: Match) {
    || ( && |s.batches| == current.batchCount <= c.maxBatches
         && WellBatched(s.batches, Size(c, s))
         && Tags(s.contacts) == Flat(s.batches))
    || ( && current.mode == Direct && current.status == Exhausted && current.batchCount == 1
         && s.batches == [] && |s.contacts| == 1 && s.contacts[0].batchIndex == 0)
  }

  /** An ACTIVE match that has dispatched once has its next job pending and its next date
      set; only a DIRECT one can be ACTIVE without having dispatched. */
  ghost predicate Scheduled(s: State, current: Match) {
    && (forall job :: job in s.jobs ==> 1 <= job <= current.batchCount)
    && (current.status == Active ==> (current.batchCount in s.jobs <==> current.batchCount > 0))
    && (current.status == Active && current.mode == Auto ==> current.batchCount > 0)
    && (current.nextBatchAt.Some? <==> current.status == Active && current.batchCount > 0)
  }

  ghost predicate Inv(c: Config, s: State) {
    && (s.request.status == Requested || s.request.status == Matching ==> IsComplete(s.request.fields))
    && (s.request.status == Matching ==> s.current.Some?)
    && (s.current.None? ==> s.contacts == [] && s.batches == [] && s.jobs == {})
    && (s.current.Some? ==>
        && (s.request.status == Matching || s.request.status == Withdrawn)
        && s.current.value.radiusKm <= c.range.maxKm
        && NobodyTwice(s.contacts)
        && Accounted(c, s, s.current.value)
        && Scheduled(s, s.current.value))
  }

  lemma InitialHolds(c: Config)
    ensures Inv(c, Initial())
  {}

  lemma TagsAfter(contacts: seq<Contact>, offers: seq<Offer>, index: nat, expiresAt: nat)
    ensures Tags(contacts + Contacts(offers, index, expiresAt)) == Tags(contacts) + Tagged(ProviderIds(offers), index)
  {}

  lemma FlatAfter(batches: seq<Batch>, b: Batch)
    ensures Flat(batches + [b]) == Flat(batches) + Tagged(b.providerIds, b.index)
  {
    assert (batches + [b])[..|batches|] == batches;
  }

  lemma LapsingKeeps(contacts: seq<Contact>, now: nat)
    ensures Tags(LapseAll(contacts, now)) == Tags(contacts)
    ensures NobodyTwice(contacts) ==> NobodyTwice(LapseAll(contacts, now))
    ensures Providers(LapseAll(contacts, now)) == Providers(contacts)
  {
    var lapsed := LapseAll(contacts, now);
    forall i | 0 <= i < |contacts| ensures lapsed[i].providerId == contacts[i].providerId {}
    assert Providers(lapsed) <= Providers(contacts) by {
      forall p | p in Providers(lapsed) ensures p in Providers(contacts) {
        var i :| 0 <= i < |lapsed| && lapsed[i].providerId == p;
        assert contacts[i].providerId == p;
      }
    }
    assert Providers(contacts) <= Providers(lapsed) by {
      forall p | p in Providers(contacts) ensures p in Providers(lapsed) {
        var i :| 0 <= i < |contacts| && contacts[i].providerId == p;
        assert lapsed[i].providerId == p;
      }
    }
  }

  lemma QueryAfterLapsing(c: Config, m: Moment, s: State)
    ensures var aged := s.(contacts := LapseAll(s.contacts, m.world.now));
      QueryOf(c, m, aged) == QueryOf(c, m, s) && PolicyOf(c, aged) == PolicyOf(c, s)
  {
    hide LapseAll, Providers;
    LapsingKeeps(s.contacts, m.world.now);
  }

  lemma NobodyTwiceAfter(contacts: seq<Contact>, offers: seq<Offer>, index: nat, expiresAt: nat)
    requires NobodyTwice(contacts)
    requires forall i, j :: 0 <= i < j < |offers| ==> offers[i].providerId != offers[j].providerId
    requires forall i :: 0 <= i < |offers| ==> offers[i].providerId !in Providers(contacts)
    ensures NobodyTwice(contacts + Contacts(offers, index, expiresAt))
  {
    var all := contacts + Contacts(offers, index, expiresAt);
    forall i, j | 0 <= i < j < |all| ensures all[i].providerId != all[j].providerId {
      if i < |contacts| <= j {
        assert contacts[i].providerId in Providers(contacts);
        assert all[j].providerId == offers[j - |contacts|].providerId;
      } else if |contacts| <= i {
        assert all[i].providerId == offers[i - |contacts|].providerId;
        assert all[j].providerId == offers[j - |contacts|].providerId;
      }
    }
  }

  /** What the search hands to persistBatch. */
  lemma SelectionFits(c: Config, m: Moment, s: State)
    requires Stored(c, s) && IsActive(s) && s.request.status == Matching
    ensures var (selected, radiusKm) := Search(m.world, QueryOf(c, m, s), PolicyOf(c, s), c.range,
      s.current.value.radiusKm);
      && s.current.value.radiusKm <= radiusKm <= c.range.maxKm
      && |selected| <= Size(c, s) && DistinctIds(selected)
      && (forall i :: 0 <= i < |selected| ==> selected[i].Id() !in Providers(s.contacts))
      && QueryOf(c, m, s).Some?
      && (selected == [] <==> !AnyoneEligible(m.world, QueryOf(c, m, s).value, c.range.maxKm))
  {
    hide Search, RankEligible, AnyoneEligible, Providers, Accounted, NobodyTwice;
    var query := QueryOf(c, m, s).value;
    SearchIsComplete(m.world, query, PolicyOf(c, s), c.range, s.current.value.radiusKm);
    var (selected, radiusKm) := Search(m.world, Some(query), PolicyOf(c, s), c.range, s.current.value.radiusKm);
    BatchOfTheEligible(m.world, query, PolicyOf(c, s), radiusKm);
    forall i | 0 <= i < |selected| ensures selected[i].Id() !in Providers(s.contacts) {
      assert selected[i] in selected;
    }
  }

  /** The invariant without what only `jobs` tells. */
  ghost predicate Stored(c: Config, s: State) {
    && (s.request.status == Matching ==> IsComplete(s.request.fields))
    && s.current.Some? && (s.request.status == Matching || s.request.status == Withdrawn)
    && s.current.value.radiusKm <= c.range.maxKm
    && NobodyTwice(s.contacts) && Accounted(c, s, s.current.value)
    && (forall job :: job in s.jobs ==> 1 <= job <= s.current.value.batchCount)
  }

  lemma BatchKeepsStored(c: Config, now: nat, s: State, selected: seq<Entry>, radiusKm: real)
    requires Stored(c, s) && IsActive(s) && s.current.value.batchCount < c.maxBatches && radiusKm <= c.range.maxKm
    requires 1 <= |selected| <= Size(c, s) && DistinctIds(selected)
    requires forall i :: 0 <= i < |selected| ==> selected[i].Id() !in Providers(s.contacts)
    ensures var t := WithBatch(c, now, s, OffersOf(selected), radiusKm);
      Stored(c, t) && IsActive(t) && t.current.value.batchCount in t.jobs
        && t.current.value.mode == s.current.value.mode
      && t.current.value.nextBatchAt.Some?
  {
    hide Providers, Tags, Flat, Tagged, Contacts, NobodyTwice;
    var offers, index := OffersOf(selected), s.current.value.batchCount;
    NobodyTwiceAfter(s.contacts, offers, index, now + c.expirySeconds);
    TagsAfter(s.contacts, offers, index, now + c.expirySeconds);
    FlatAfter(s.batches, Batch(index, radiusKm, ProviderIds(offers)));
  }

  /** Any batch run leaves a well-formed state, and one that is still ACTIVE has just
      dispatched and scheduled its next job. */
  lemma RunBatchKeepsStored(c: Config, m: Moment, s: State)
    requires Stored(c, s)
    ensures var t := AfterBatch(c, m, s);
      && Stored(c, t) && t.current.value.mode == s.current.value.mode
      && (IsActive(t) ==>
          t.current.value.batchCount == s.current.value.batchCount + 1 && t.current.value.batchCount in t.jobs)
      && (if IsActive(s) then t.current.value.nextBatchAt.Some? <==> IsActive(t) else t == s)
  {
    hide Search, NobodyTwice, WellBatched, Tags, Flat, Contacts, LapseAll, Providers;
    if IsActive(s) && s.request.status == Matching {
      LapsingKeeps(s.contacts, m.world.now);
      var aged := s.(contacts := LapseAll(s.contacts, m.world.now));
      if s.current.value.batchCount < c.maxBatches {
        SelectionFits(c, m, s);
        var (selected, radiusKm) := Search(m.world, QueryOf(c, m, s), PolicyOf(c, s), c.range,
          s.current.value.radiusKm);
        if selected != [] {
          BatchKeepsStored(c, m.world.now, aged, selected, radiusKm);
        }
      }
    }
  }

  lemma StartKeeps(c: Config, m: Moment, s: State, mode: Mode, chosen: Option<Found>)
    requires Inv(c, s)
    ensures Inv(c, Started(c, m, s, mode, chosen).state)
  {
    hide AfterBatch;
    if s.current.None? && s.request.status == Requested {
      var begun := s.(request := s.request.(status := Matching),
                      current := Some(Match(mode, Active, c.defaultRadiusKm, 0, None)));
      RunBatchKeepsStored(c, m, begun);
    }
  }

  lemma RunKeepsInv(c: Config, m: Moment, s: State)
    requires Stored(c, s) && (!IsActive(s) ==> s.current.value.nextBatchAt.None?)
    ensures Inv(c, AfterBatch(c, m, s))
    ensures forall job :: job in s.jobs ==> Inv(c, AfterBatch(c, m, s).(jobs := AfterBatch(c, m, s).jobs - {job}))
  {
    hide AfterBatch, Accounted, NobodyTwice;
    RunBatchKeepsStored(c, m, s);
    var t := AfterBatch(c, m, s);
    forall job | job in s.jobs ensures Inv(c, t.(jobs := t.jobs - {job})) {
      AccountedIgnoresJobs(c, t, t.(jobs := t.jobs - {job}));
    }
  }

  lemma AccountedIgnoresJobs(c: Config, s: State, t: State)
    requires t == s.(jobs := t.jobs) && s.current.Some?
    ensures Accounted(c, t, s.current.value) <==> Accounted(c, s, s.current.value)
  {}

  lemma MarkKeeps(c: Config, s: State, i: nat, contact: Contact)
    requires Inv(c, s) && i < |s.contacts|
    requires contact.providerId == s.contacts[i].providerId && contact.batchIndex == s.contacts[i].batchIndex
    ensures Inv(c, WithContact(s, i, contact))
  {
    assert Tags(WithContact(s, i, contact).contacts) == Tags(s.contacts);
  }

  lemma WidenKeeps(c: Config, m: Moment, s: State, radiusKm: real)
    requires Inv(c, s)
    ensures Inv(c, Widening(c, m, s, radiusKm).state)
  {
    hide AfterBatch;
    if IsActive(s) && radiusKm > s.current.value.radiusKm {
      var wider := s.(current := Some(s.current.value.(radiusKm := MinReal(radiusKm, c.range.maxKm))));
      assert Stored(c, wider);
      RunKeepsInv(c, m, wider);
    }
  }

  /** Every step keeps the invariant. */
  lemma StepKeeps(c: Config, s: State, step: Step)
    requires Inv(c, s)
    ensures Inv(c, Next(c, s, step))
  {
    hide AfterBatch, Started, Widening, WithContact, NobodyTwice, Accounted;
    match step
    case Edit(fields) =>
    case Submit =>
    case Withdraw => if s.current.Some? { AccountedByRequest(c, s, Next(c, s, step)); }
    case Start(mode, chosen, m) => StartKeeps(c, m, s, mode, chosen);
    case Fire(job, m) =>
      if job in s.jobs {
        RunKeepsInv(c, m, s);
      }
    case Widen(radiusKm, m) => WidenKeeps(c, m, s, radiusKm);
    case View(i) => if i < |s.contacts| { MarkKeeps(c, s, i, s.contacts[i].(status := Viewed)); }
    case Decline(i, reason) =>
      if i < |s.contacts| { MarkKeeps(c, s, i, s.contacts[i].(status := Declined, declineReason := reason)); }
  }

  lemma AccountedByRequest(c: Config, s: State, t: State)
    requires t == s.(request := t.request) && t.request.fields.urgency == s.request.fields.urgency && s.current.Some?
    ensures Accounted(c, t, s.current.value) <==> Accounted(c, s, s.current.value)
  {}

  /** Every reachable state of every request is well-formed: batches numbered without a
      gap, within their size and count, nobody contacted twice, contacts and batches in
      agreement, and the next job pending. */
  lemma {:induction false} EveryRunKeeps(c: Config, s: State, steps: seq<Step>)
    requires Inv(c, s)
    ensures Inv(c, Run(c, s, steps))
    decreases |steps|
  {
    hide Inv, Next;
    if steps != [] {
      StepKeeps(c, s, steps[0]);
      EveryRunKeeps(c, Next(c, s, steps[0]), steps[1..]);
    }
  }

  lemma {:induction false} FlatLength(batches: seq<Batch>, size: nat)
    requires WellBatched(batches, size)
    ensures |batches| <= |Flat(batches)| <= |batches| * size
  {
    if batches != [] {
      FlatLength(batches[..|batches| - 1], size);
      assert |batches| * size == (|batches| - 1) * size + size;
    }
  }

  lemma ProductGrows(a: nat, b: nat, factor: nat)
    requires a <= b
    ensures a * factor <= b * factor
  {
    assert (b - a) * factor >= 0;
  }

  /** A request is never broadcast: from its creation on, whatever happens, at most
      maxBatches batches of at most the batch size, all to different providers. */
  lemma ContactsAreBounded(c: Config, steps: seq<Step>)
    ensures var s := Run(c, Initial(), steps);
      && NobodyTwice(s.contacts)
      && |s.contacts| <= c.maxBatches * Size(c, s)
      && (s.current.Some? && s.batches != [] ==> |s.batches| == s.current.value.batchCount <= |s.contacts|)
  {
    InitialHolds(c);
    EveryRunKeeps(c, Initial(), steps);
    hide Run, Scheduled, NobodyTwice, WellBatched, Size;
    var s := Run(c, Initial(), steps);
    assert NobodyTwice([]) by { NobodyAtAll(); }
    SizeIsPositive(c, s);
    ProductGrows(1, c.maxBatches, Size(c, s));
    if s.current.Some? && WellBatched(s.batches, Size(c, s)) && Tags(s.contacts) == Flat(s.batches)
      && |s.batches| <= c.maxBatches {
      FlatLength(s.batches, Size(c, s));
      ProductGrows(|s.batches|, c.maxBatches, Size(c, s));
      assert |Tags(s.contacts)| == |s.contacts|;
    }
  }

  lemma NobodyAtAll()
    ensures NobodyTwice([])
  {}

  lemma SizeIsPositive(c: Config, s: State)
    ensures Size(c, s) >= 1
  {}

  // ------------------------------------------------------------- ends and bounds

  predicate IsOver(s: State) { s.current.Some? && s.current.value.status != Active }

  /** No further dispatch can happen: the match has ended or the request left matching. */
  predicate IsClosed(s: State) {
    s.current.Some? && (s.current.value.status != Active || s.request.status == Withdrawn)
  }

  /** How a contact may change: it stays with its provider, batch, score and expiry; only a
      NOTIFIED one expires or becomes viewed, and a declined one stays as it is, reason
      included. */
  predicate MayBecome(a: Contact, b: Contact) {
    && b == a.(status := b.status, declineReason := b.declineReason)
    && (b.status == Notified ==> a.status == Notified)
    && (b.status == Viewed ==> a.status == Notified || a.status == Viewed)
    && (b.status == Expired ==> a.status == Notified || a.status == Expired)
    && (a.status == Declined ==> b == a)
    && (b.status != Declined ==> b.declineReason == a.declineReason)
  }

  ghost predicate Grown(a: seq<Contact>, b: seq<Contact>) {
    |a| <= |b| && forall i :: 0 <= i < |a| ==> MayBecome(a[i], b[i])
  }

  /** How a state may move on: contacts and batches are only added to, and once closed
      neither is; an ended match keeps its status; the radius never shrinks. */
  ghost predicate MovesTo(s: State, t: State) {
    && Grown(s.contacts, t.contacts) && s.batches <= t.batches
    && (s.request.status == Withdrawn ==> t.request.status == Withdrawn)
    && (s.current.Some? ==>
        && t.current.Some?
        && s.current.value.radiusKm <= t.current.value.radiusKm
        && s.current.value.batchCount <= t.current.value.batchCount)
    && (IsOver(s) ==> t.current == s.current)
    && (IsClosed(s) ==> IsClosed(t) && |t.contacts| == |s.contacts| && t.batches == s.batches)
  }

  lemma MovesAreTransitive(s: State, t: State, u: State)
    requires MovesTo(s, t) && MovesTo(t, u)
    ensures MovesTo(s, u)
  {
    forall i | 0 <= i < |s.contacts| ensures MayBecome(s.contacts[i], u.contacts[i]) {
      assert MayBecome(s.contacts[i], t.contacts[i]);
      assert MayBecome(t.contacts[i], u.contacts[i]);
    }
  }

  lemma RunBatchMoves(c: Config, m: Moment, s: State)
    requires Stored(c, s)
    ensures MovesTo(s, AfterBatch(c, m, s))
  {
    hide Search, Accounted, NobodyTwice;
    if IsActive(s) && s.request.status == Matching && s.current.value.batchCount < c.maxBatches {
      SelectionFits(c, m, s);
    }
  }

  lemma StepMoves(c: Config, s: State, step: Step)
    requires Inv(c, s)
    ensures MovesTo(s, Next(c, s, step))
  {
    hide AfterBatch, Accounted, NobodyTwice;
    match step
    case Edit(fields) =>
    case Submit =>
    case Withdraw =>
    case Start(mode, chosen, m) =>
    case Fire(job, m) => if job in s.jobs { RunBatchMoves(c, m, s); }
    case Widen(radiusKm, m) =>
      if IsActive(s) && radiusKm > s.current.value.radiusKm {
        WidenMoves(c, m, s, radiusKm);
      }
    case View(i) =>
    case Decline(i, reason) =>
  }

  lemma WidenMoves(c: Config, m: Moment, s: State, radiusKm: real)
    requires Inv(c, s) && IsActive(s) && radiusKm > s.current.value.radiusKm
    ensures MovesTo(s, Widening(c, m, s, radiusKm).state)
  {
    hide AfterBatch, NobodyTwice;
    var wider := s.(current := Some(s.current.value.(radiusKm := MinReal(radiusKm, c.range.maxKm))));
    assert Accounted(c, wider, wider.current.value);
    RunBatchMoves(c, m, wider);
    assert MovesTo(s, wider);
    MovesAreTransitive(s, wider, AfterBatch(c, m, wider));
  }

  /** Over any run: nothing recorded is lost or rewritten, terminal states absorb, and
      nobody is contacted once the request has left matching. */
  lemma {:induction false} EveryRunMovesOn(c: Config, s: State, steps: seq<Step>)
    requires Inv(c, s)
    ensures MovesTo(s, Run(c, s, steps))
    decreases |steps|
  {
    hide Inv, Next;
    if steps == [] {
    } else {
      var t := Next(c, s, steps[0]);
      StepKeeps(c, s, steps[0]);
      StepMoves(c, s, steps[0]);
      EveryRunMovesOn(c, t, steps[1..]);
      hide MovesTo;
      MovesAreTransitive(s, t, Run(c, t, steps[1..]));
    }
  }

  /** A step that reaches runBatch while the match is ACTIVE. */
  predicate IsEffective(s: State, step: Step) {
    match step
    case Start(mode, _, _) => s.current.None? && s.request.status == Requested && mode == Auto
    case Fire(job, _) => job in s.jobs && IsActive(s)
    case Widen(radiusKm, _) => IsActive(s) && radiusKm > s.current.value.radiusKm
    case _ => false
  }

  function Effective(c: Config, s: State, steps: seq<Step>): nat
    decreases |steps|
  {
    if steps == [] then 0
    else (if IsEffective(s, steps[0]) then 1 else 0) + Effective(c, Next(c, s, steps[0]), steps[1..])
  }

  function RunsLeft(c: Config, s: State): int {
    if s.current.None? then c.maxBatches + 1
    else if s.current.value.status == Active then c.maxBatches - s.current.value.batchCount + 1
    else 0
  }

  lemma RunBatchSpends(c: Config, m: Moment, s: State)
    requires Stored(c, s)
    ensures if IsActive(s) then 0 <= RunsLeft(c, AfterBatch(c, m, s)) < RunsLeft(c, s) else AfterBatch(c, m, s) == s
  {
    hide Search, NobodyTwice;
    RunBatchKeepsStored(c, m, s);
  }

  lemma StartSpends(c: Config, m: Moment, s: State)
    requires Inv(c, s) && s.current.None? && s.request.status == Requested
    ensures RunsLeft(c, Started(c, m, s, Auto, None).state) < RunsLeft(c, s)
  {
    hide AfterBatch;
    RunBatchSpends(c, m, s.(request := s.request.(status := Matching),
                            current := Some(Match(Auto, Active, c.defaultRadiusKm, 0, None))));
  }

  lemma StepSpends(c: Config, s: State, step: Step)
    requires Inv(c, s)
    ensures 0 <= RunsLeft(c, Next(c, s, step)) <= RunsLeft(c, s) - (if IsEffective(s, step) then 1 else 0)
  {
    hide AfterBatch, NobodyTwice;
    StepKeeps(c, s, step);
    match step
    case Start(mode, chosen, m) =>
      if s.current.None? && s.request.status == Requested && mode == Auto {
        StartSpends(c, m, s);
      }
    case Fire(job, m) => if job in s.jobs { RunBatchSpends(c, m, s); }
    case Widen(radiusKm, m) =>
      if IsActive(s) && radiusKm > s.current.value.radiusKm {
        RunBatchSpends(c, m, s.(current := Some(s.current.value.(radiusKm := MinReal(radiusKm, c.range.maxKm)))));
      }
    case _ =>
  }

  /** However the jobs, widenings and withdrawals interleave, every batch run that does
      anything uses up one of the maxBatches - batchCount + 1 runs left. */
  lemma {:induction false} EffectiveRunsAreBounded(c: Config, s: State, steps: seq<Step>)
    requires Inv(c, s)
    ensures 0 <= RunsLeft(c, Run(c, s, steps))
    ensures Effective(c, s, steps) + RunsLeft(c, Run(c, s, steps)) <= RunsLeft(c, s)
    decreases |steps|
  {
    hide Next, IsEffective, RunsLeft;
    if steps == [] {
      NeverNegative(c, s);
    } else {
      StepKeeps(c, s, steps[0]);
      StepSpends(c, s, steps[0]);
      hide Inv;
      EffectiveRunsAreBounded(c, Next(c, s, steps[0]), steps[1..]);
    }
  }

  /** Time passes: at each of the moments the pending job fires. */
  function Drained(c: Config, s: State, moments: seq<Moment>): State
    decreases |moments|
  {
    if moments == [] || s.current.None? then s
    else Drained(c, Fired(c, moments[0], s, s.current.value.batchCount), moments[1..])
  }

  lemma FiringSpends(c: Config, m: Moment, s: State)
    requires Inv(c, s) && s.current.Some? && (IsActive(s) ==> s.current.value.batchCount > 0)
    ensures var t := Fired(c, m, s, s.current.value.batchCount);
      && Inv(c, t) && t.current.Some? && (IsActive(t) ==> t.current.value.batchCount > 0)
      && (if IsActive(s) then RunsLeft(c, t) < RunsLeft(c, s) else !IsActive(t))
  {
    hide AfterBatch, NobodyTwice, Accounted;
    var step := Fire(s.current.value.batchCount, m);
    StepKeeps(c, s, step);
    StepSpends(c, s, step);
    StepMoves(c, s, step);
  }

  /** Dispatch ends: once an ACTIVE match has dispatched, firing its pending job
      maxBatches - batchCount + 1 times always leaves it ended. */
  lemma {:induction false} DispatchEnds(c: Config, s: State, moments: seq<Moment>)
    requires Inv(c, s) && s.current.Some? && (IsActive(s) ==> s.current.value.batchCount > 0)
    requires |moments| >= RunsLeft(c, s)
    ensures IsOver(Drained(c, s, moments))
    decreases |moments|
  {
    hide Fired, Inv, RunsLeft;
    NeverNegative(c, s);
    if moments != [] {
      FiringSpends(c, moments[0], s);
      var t := Fired(c, moments[0], s, s.current.value.batchCount);
      if !IsActive(t) { NothingLeftWhenOver(c, t); }
      DispatchEnds(c, t, moments[1..]);
    } else if IsActive(s) {
      ActiveHasRunsLeft(c, s);
    }
  }

  lemma NothingLeftWhenOver(c: Config, s: State)
    requires s.current.Some? && !IsActive(s)
    ensures RunsLeft(c, s) == 0
  {}

  lemma ActiveHasRunsLeft(c: Config, s: State)
    requires Inv(c, s) && IsActive(s)
    ensures RunsLeft(c, s) >= 1
  {}

  lemma NeverNegative(c: Config, s: State)
    requires Inv(c, s)
    ensures RunsLeft(c, s) >= 0
  {}

  /** A batch run of a live search ends it exactly when the batch limit is reached or no
      provider not yet contacted is eligible within the widest radius. */
  lemma ExhaustedMeansNobodyLeft(c: Config, m: Moment, s: State)
    requires Inv(c, s) && IsActive(s) && s.request.status == Matching
    ensures QueryOf(c, m, s).Some? && QueryOf(c, m, s).value.exclude == Providers(s.contacts)
    ensures AfterBatch(c, m, s).current.value.status == Exhausted <==>
      s.current.value.batchCount >= c.maxBatches || !AnyoneEligible(m.world, QueryOf(c, m, s).value, c.range.maxKm)
    ensures AfterBatch(c, m, s).current.value.status != Cancelled
  {
    hide Search, AnyoneEligible, Providers, NobodyTwice, Accounted;
    SelectionFits(c, m, s);
  }

  // ------------------------------------------------------- who is dispatched to

  /** The provider may be asked, within the radius, to take this request: available, offering
      its service and every skill it asks for, verified if that is required, working near
      enough both for the search and by its own travel radius, and not asked before. */
  predicate Suits(c: Config, m: Moment, s: State, p: Profile, radiusKm: real) {
    && p.available
    && s.request.fields.serviceId.Some? && s.request.fields.serviceId.value in p.serviceIds
    && m.requiredSkillIds <= p.skillIds
    && (c.requireVerified ==> p.verified)
    && (exists a :: a in p.areas && a.sphereKm <= radiusKm)
    && (exists a :: a in p.areas && a.haversineKm <= a.radiusKm)
    && (forall contact :: contact in s.contacts ==> contact.providerId != p.id)
  }

  lemma SuitsExactly(c: Config, m: Moment, s: State, p: Profile, radiusKm: real)
    requires QueryOf(c, m, s).Some?
    ensures IsEligible(p, QueryOf(c, m, s).value, radiusKm) <==> Suits(c, m, s, p, radiusKm)
  {
    hide Providers;
    NeverAsked(s.contacts, p.id);
    NearExactly(p, radiusKm);
  }

  lemma NeverAsked(contacts: seq<Contact>, id: ProviderId)
    ensures id !in Providers(contacts) <==> forall contact :: contact in contacts ==> contact.providerId != id
  {
    if contact :| contact in contacts && contact.providerId == id {
      var i :| 0 <= i < |contacts| && contacts[i] == contact;
    }
  }

  lemma NearExactly(p: Profile, radiusKm: real)
    ensures WithinRadius(p, radiusKm) <==> exists a :: a in p.areas && a.sphereKm <= radiusKm
    ensures CoversPoint(p) <==> exists a :: a in p.areas && a.haversineKm <= a.radiusKm
  {
    if a :| a in p.areas && a.sphereKm <= radiusKm {
      var i :| 0 <= i < |p.areas| && p.areas[i] == a;
    }
    if a :| a in p.areas && a.haversineKm <= a.radiusKm {
      var i :| 0 <= i < |p.areas| && p.areas[i] == a;
    }
  }

  /** A contact as stored tells what the provider's profile says at that moment: its nearest
      area, full marks for being free and for being verified exactly when it is, and the score
      those marks add up to. */
  predicate Tells(c: Config, contact: Contact, p: Profile, w: World) {
    && contact.providerId == p.id
    && (forall a :: a in p.areas ==> contact.distanceKm <= a.haversineKm)
    && (exists a :: a in p.areas && contact.distanceKm == a.haversineKm)
    && contact.breakdown[1] == (if IsFree(p.availability, w.dayOfWeek, w.minuteOfDay) then 1.0 else 0.0)
    && contact.breakdown[2] == (if p.verified then 1.0 else 0.0)
    && contact.score == WeightedSum(contact.breakdown, c.weights, 9)
  }

  lemma EntrySuits(c: Config, m: Moment, s: State, e: Entry, contact: Contact, radiusKm: real)
    requires QueryOf(c, m, s).Some?
    requires e in RankEligible(m.world, QueryOf(c, m, s), PolicyOf(c, s), radiusKm)
    requires contact.providerId == e.Id() && contact.breakdown == e.breakdown && contact.score == e.score
    requires contact.distanceKm == e.candidate.distanceKm
    ensures exists p :: p in m.world.profiles && Suits(c, m, s, p, radiusKm) && Tells(c, contact, p, m.world)
  {
    hide RankEligible, IsEligible, Suits, Providers, IsFree, WeightedSum;
    var q := QueryOf(c, m, s).value;
    BatchOfTheEligible(m.world, q, PolicyOf(c, s), radiusKm);
    var p :| p in m.world.profiles && IsEligible(p, q, radiusKm) && Shows(e, p, m.world);
    SuitsExactly(c, m, s, p, radiusKm);
    assert Tells(c, contact, p, m.world);
  }

  /** Every contact a batch run adds is to a provider that suits the request within the radius
      of its batch, tells what its profile says, and is NOTIFIED for the set time. */
  lemma AddedContactSuits(c: Config, m: Moment, s: State, k: nat)
    requires Stored(c, s) && |s.contacts| <= k < |AfterBatch(c, m, s).contacts|
    ensures var t := AfterBatch(c, m, s);
      && |t.batches| == |s.batches| + 1
      && t.contacts[k].status == Notified && t.contacts[k].expiresAt == m.world.now + c.expirySeconds
      && exists p :: p in m.world.profiles && Suits(c, m, s, p, t.batches[|s.batches|].radiusKm)
                     && Tells(c, t.contacts[k], p, m.world)
  {
    hide Search, NobodyTwice, Accounted, RankEligible, Suits, Tells, Providers;
    var query, policy := QueryOf(c, m, s), PolicyOf(c, s);
    var (selected, radiusKm) := Search(m.world, query, policy, c.range, s.current.value.radiusKm);
    SearchIsComplete(m.world, query.value, policy, c.range, s.current.value.radiusKm);
    var e := selected[k - |s.contacts|];
    assert e in selected;
    EntrySuits(c, m, s, e, AfterBatch(c, m, s).contacts[k], radiusKm);
  }

  lemma AddedFrom(c: Config, m: Moment, s: State, begun: State, k: nat)
    requires Stored(c, begun)
    requires begun.contacts == s.contacts && begun.batches == s.batches && begun.request.fields == s.request.fields
    requires |s.contacts| <= k < |AfterBatch(c, m, begun).contacts|
    ensures var t := AfterBatch(c, m, begun);
      && |t.batches| == |s.batches| + 1
      && exists p :: p in m.world.profiles && Suits(c, m, s, p, t.batches[|s.batches|].radiusKm)
                     && Tells(c, t.contacts[k], p, m.world)
  {
    hide AfterBatch, NobodyTwice, Accounted, Tells;
    AddedContactSuits(c, m, begun, k);
    var t := AfterBatch(c, m, begun);
    var p :| p in m.world.profiles && Suits(c, m, begun, p, t.batches[|s.batches|].radiusKm)
             && Tells(c, t.contacts[k], p, m.world);
    assert Suits(c, m, s, p, t.batches[|s.batches|].radiusKm);
  }

  lemma WiderIsStored(c: Config, s: State, radiusKm: real)
    requires Inv(c, s) && s.current.Some?
    ensures Stored(c, s.(current := Some(s.current.value.(radiusKm := MinReal(radiusKm, c.range.maxKm)))))
  {
    hide NobodyTwice;
  }

  lemma BegunIsStored(c: Config, s: State)
    requires Inv(c, s) && s.current.None? && s.request.status == Requested
    ensures Stored(c, s.(request := s.request.(status := Matching),
                         current := Some(Match(Auto, Active, c.defaultRadiusKm, 0, None))))
  {}

  /** Whatever step adds a contact, it is the provider a DIRECT start named, or one that suits
      the request at that moment and within the radius of its batch. */
  lemma ContactIsEarned(c: Config, s: State, step: Step, k: nat)
    requires Inv(c, s) && |s.contacts| <= k < |Next(c, s, step).contacts|
    ensures var t := Next(c, s, step);
      || (step.Start? && step.mode == Direct && step.chosen.Some?
          && t.contacts[k].providerId == step.chosen.value.providerId)
      || (&& (step.Start? || step.Fire? || step.Widen?) && |t.batches| == |s.batches| + 1
          && exists p :: p in step.m.world.profiles && Suits(c, step.m, s, p, t.batches[|s.batches|].radiusKm)
                         && Tells(c, t.contacts[k], p, step.m.world))
  {
    hide AfterBatch, NobodyTwice, Accounted, Suits, Tells;
    match step
    case Start(mode, chosen, m) =>
      if s.current.None? && s.request.status == Requested && mode == Auto {
        var begun := s.(request := s.request.(status := Matching),
                        current := Some(Match(Auto, Active, c.defaultRadiusKm, 0, None)));
        BegunIsStored(c, s);
        AddedFrom(c, m, s, begun, k);
      }
    case Fire(job, m) => AddedContactSuits(c, m, s, k);
    case Widen(radiusKm, m) =>
      var wider := s.(current := Some(s.current.value.(radiusKm := MinReal(radiusKm, c.range.maxKm))));
      WiderIsStored(c, s, radiusKm);
      AddedFrom(c, m, s, wider, k);
    case Edit(fields) =>
    case Submit =>
    case Withdraw =>
    case View(i) =>
    case Decline(i, reason) =>
  }

  /** And nobody who suits is given up on: a batch run of an ACTIVE match cancels it exactly when
      the request was withdrawn, and ends it exactly when the batch limit is reached or no provider
      suits within the widest radius; else someone is dispatched to. */
  lemma EndsExactly(c: Config, m: Moment, s: State)
    requires Inv(c, s) && IsActive(s)
    ensures var t := AfterBatch(c, m, s);
      && t.current.Some?
      && (t.current.value.status == Cancelled <==> s.request.status == Withdrawn)
      && (t.current.value.status == Exhausted <==>
            && s.request.status == Matching
            && (|| s.current.value.batchCount >= c.maxBatches
                || !exists p :: p in m.world.profiles && Suits(c, m, s, p, c.range.maxKm)))
      && (t.current.value.status == Active <==> |t.contacts| > |s.contacts|)
  {
    hide IsEligible, Suits, NobodyTwice, Accounted, Search, Providers;
    if s.request.status != Matching { return; }
    ExhaustedMeansNobodyLeft(c, m, s);
    forall p | p in m.world.profiles
      ensures IsEligible(p, QueryOf(c, m, s).value, c.range.maxKm) <==> Suits(c, m, s, p, c.range.maxKm)
    {
      SuitsExactly(c, m, s, p, c.range.maxKm);
    }
  }

  /** A dispatch keeps the pace of its request: an urgent one has its own batch size and its own
      delay before the next batch; and no batch run leaves a contact NOTIFIED past its expiry. */
  lemma BatchKeepsPace(c: Config, m: Moment, s: State)
    requires Inv(c, s) && IsActive(s) && s.request.status == Matching
    ensures var t, now, urgent := AfterBatch(c, m, s), m.world.now, s.request.fields.urgency == Some(true);
      && t.current.Some? && QueryOf(c, m, s).Some?
      && (forall contact :: contact in t.contacts && contact.status == Notified ==> contact.expiresAt >= now)
      && (IsActive(t) ==>
            && t.current.value.nextBatchAt == Some(now + if urgent then c.urgentWaitSeconds else c.waitSeconds)
            && |t.contacts| - |s.contacts| ==
                 Min(if urgent then c.urgentBatchSize else c.batchSize,
                     NumberEligible(m.world.profiles, QueryOf(c, m, s).value, t.current.value.radiusKm)))
  {
    hide Search, NobodyTwice, Accounted, RankEligible, AnyoneEligible, NumberEligible, Providers;
    var query, policy := QueryOf(c, m, s), PolicyOf(c, s);
    SearchIsComplete(m.world, query.value, policy, c.range, s.current.value.radiusKm);
    var (selected, radiusKm) := Search(m.world, query, policy, c.range, s.current.value.radiusKm);
    BatchOfTheEligible(m.world, query.value, policy, radiusKm);
  }

  /** A start leaves an ACTIVE match without its next job exactly when it is DIRECT and names
      a provider that does not exist. */
  lemma StallsExactly(c: Config, m: Moment, s: State, mode: Mode, chosen: Option<Found>)
    requires Inv(c, s) && s.current.None? && s.request.status == Requested
    ensures var t := Started(c, m, s, mode, chosen).state;
      IsActive(t) && t.current.value.batchCount !in t.jobs <==> mode == Direct && chosen.None?
  {
    hide AfterBatch;
    RunBatchKeepsStored(c, m, s.(request := s.request.(status := Matching),
                                 current := Some(Match(mode, Active, c.defaultRadiusKm, 0, None))));
  }

  /** No job advances such a match; widening the radius does, and then it has its job again. */
  lemma DirectCanStall(c: Config, m: Moment, s: State, later: Moment, radiusKm: real)
    requires Inv(c, s) && s.current.None? && s.request.status == Requested && radiusKm > c.defaultRadiusKm
    ensures var outcome := Started(c, m, s, Direct, None);
      var woken := Widening(c, later, outcome.state, radiusKm);
      && outcome.error == Some(ProviderNotFound) && IsActive(outcome.state) && outcome.state.jobs == {}
      && woken.error == None && woken.state.current.Some?
      && (IsActive(woken.state) ==> woken.state.current.value.batchCount in woken.state.jobs)
  {
    hide AfterBatch, NobodyTwice;
    var stalled := Started(c, m, s, Direct, None).state;
    StartKeeps(c, m, s, Direct, None);
    RunBatchKeepsStored(c, later,
      stalled.(current := Some(stalled.current.value.(radiusKm := MinReal(radiusKm, c.range.maxKm)))));
  }

  // ------------------------------------------------------------------ live contacts

  /** isLiveCandidacy: still a legitimate conversation partner at a moment. */
  predicate IsLive(contact: Contact, now: nat) {
    contact.status == Viewed || (contact.status == Notified && contact.expiresAt > now)
  }

  /** A batch run writes what a reader at that moment already sees: it cuts off nobody who
      is live and revives nobody who is not. */
  lemma BatchKeepsLive(c: Config, m: Moment, s: State, i: nat)
    requires i < |s.contacts|
    ensures var t := AfterBatch(c, m, s);
      i < |t.contacts| && (IsLive(t.contacts[i], m.world.now) <==> IsLive(s.contacts[i], m.world.now))
  {
    hide Search;
  }

  /** Liveness is not monotone: viewing makes a contact live again exactly when it is still
      NOTIFIED although its expiry has passed. */
  lemma ViewingRevives(s: State, i: nat, now: nat)
    requires i < |s.contacts|
    ensures var after := Viewing(s, i).state.contacts[i];
      IsLive(after, now) && !IsLive(s.contacts[i], now) <==>
        s.contacts[i].status == Notified && s.contacts[i].expiresAt <= now
  {}

  // ------------------------------------------------------- what each request gets

  /** A request is edited and submitted only as a draft, submitted only complete, and withdrawn
      once; an edit shows the new fields, and none of them touches match, contacts or jobs. */
  lemma RequestChangesExactly(s: State, fields: Fields)
    ensures var edited, submitted, withdrawn := Edited(s, fields), Submitted(s), Withdrawing(s);
      && (edited.error.None? <==> s.request.status == Draft)
      && edited.state == s.(request := if s.request.status == Draft then Request(Draft, fields) else s.request)
      && (submitted.error.None? <==> s.request.status == Draft && IsComplete(s.request.fields))
      && (s.request.status == Draft && !IsComplete(s.request.fields) ==> submitted.error == Some(Incomplete))
      && submitted.state == s.(request := Request(
           if submitted.error.None? then Requested else s.request.status, s.request.fields))
      && (withdrawn.error.None? <==> s.request.status != Withdrawn)
      && withdrawn.state == s.(request := Request(Withdrawn, s.request.fields))
  {}

  /** Viewing and declining change the one contact named and nothing else: viewing a NOTIFIED one
      marks it, declining records the reason, and a second decline is refused. */
  lemma AnswersExactly(s: State, i: nat, reason: Option<nat>)
    ensures var viewed, declined := Viewing(s, i), Declining(s, i, reason);
      && (viewed.error.None? <==> i < |s.contacts|)
      && (declined.error.None? <==> i < |s.contacts| && s.contacts[i].status != Declined)
      && (viewed.error.Some? ==> viewed.state == s) && (declined.error.Some? ==> declined.state == s)
      && (viewed.error.None? ==>
            && |viewed.state.contacts| == |s.contacts| && viewed.state == s.(contacts := viewed.state.contacts)
            && viewed.state.contacts[i].status ==
                 (if s.contacts[i].status == Notified then Viewed else s.contacts[i].status)
            && MayBecome(s.contacts[i], viewed.state.contacts[i])
            && forall k :: 0 <= k < |s.contacts| && k != i ==> viewed.state.contacts[k] == s.contacts[k])
      && (declined.error.None? ==>
            && |declined.state.contacts| == |s.contacts| && declined.state == s.(contacts := declined.state.contacts)
            && declined.state.contacts[i].status == Declined && declined.state.contacts[i].declineReason == reason
            && MayBecome(s.contacts[i], declined.state.contacts[i])
            && forall k :: 0 <= k < |s.contacts| && k != i ==> declined.state.contacts[k] == s.contacts[k])
  {
    hide MayBecome;
    if i < |s.contacts| {
      MayBeAnswered(s.contacts[i], reason);
    }
  }

  lemma MayBeAnswered(contact: Contact, reason: Option<nat>)
    ensures MayBecome(contact, contact)
    ensures contact.status == Notified ==> MayBecome(contact, contact.(status := Viewed))
    ensures contact.status != Declined ==>
      MayBecome(contact, contact.(status := Declined, declineReason := reason))
  {}

  /** A DIRECT start asks the one provider named, at its distance and for the set time, and ends
      the match at once; a start already made changes nothing. */
  lemma DirectStartExactly(c: Config, m: Moment, s: State, chosen: Found)
    requires Inv(c, s)
    ensures var outcome := Started(c, m, s, Direct, Some(chosen));
      && (outcome.error.None? <==> s.current.Some? || s.request.status == Requested)
      && (s.current.Some? || outcome.error.Some? ==> outcome.state == s)
      && (s.current.None? && s.request.status == Requested ==>
            && outcome.state.request == Request(Matching, s.request.fields)
            && outcome.state.current == Some(Match(Direct, Exhausted, c.defaultRadiusKm, 1, None))
            && outcome.state.batches == [] && outcome.state.jobs == {} && |outcome.state.contacts| == 1
            && var contact := outcome.state.contacts[0];
            && contact.providerId == chosen.providerId && contact.distanceKm == chosen.distanceKm
            && contact.status == Notified && contact.score == 1.0
            && (forall i :: 0 <= i < 9 ==> contact.breakdown[i] == 0.0)
            && contact.expiresAt == m.world.now + c.expirySeconds)
  {}

  // ---------------------------------------------------------------- the service

  /** The stored documents and the queue of one request, updated in place. */
  class Dispatcher {
    const config: Config
    var request: Request
    var current: Option<Match>
    var contacts: seq<Contact>
    var batches: seq<Batch>
    var jobs: set<nat>

    ghost function Snapshot(): State
      reads this
    {
      State(request, current, contacts, batches, jobs)
    }

    constructor (config: Config)
      ensures this.config == config && Snapshot() == Initial()
    {
      this.config := config;
      request := Request(Draft, Fields(None, None, None, None, None, None));
      current, contacts, batches, jobs := None, [], [], {};
    }

    method ExpireStaleCandidates(now: nat)
      modifies this`contacts
      ensures contacts == LapseAll(old(contacts), now)
    {
      var updated: seq<Contact> := [];
      for i := 0 to |contacts|
        invariant contacts == old(contacts) && updated == LapseAll(contacts, now)[..i]
      {
        var contact := contacts[i];
        if contact.status == Notified && contact.expiresAt < now {
          contact := contact.(status := Expired);
        }
        updated := updated + [contact];
      }
      contacts := updated;
    }

    method Terminate(status: MatchStatus)
      requires current.Some?
      modifies this`current
      ensures Snapshot() == Terminated(old(Snapshot()), status)
    {
      current := Some(current.value.(status := status, nextBatchAt := None));
    }

    method ScheduleNextBatch(batchIndex: nat)
      modifies this`jobs
      ensures jobs == old(jobs) + {batchIndex}
    {
      jobs := jobs + {batchIndex};
    }

    method PersistBatch(now: nat, selected: seq<Entry>, radiusKm: real)
      requires current.Some?
      modifies this
      ensures Snapshot() == WithBatch(config, now, old(Snapshot()), OffersOf(selected), radiusKm)
    {
      var batchIndex := current.value.batchCount;
      contacts := contacts + Contacts(OffersOf(selected), batchIndex, now + config.expirySeconds);
      batches := batches + [Batch(batchIndex, radiusKm, ProviderIds(OffersOf(selected)))];
      var urgent := request.fields.urgency == Some(true);
      var waitSeconds := if urgent then config.urgentWaitSeconds else config.waitSeconds;
      var nextBatchAt := Some(now + waitSeconds);
      current := Some(current.value.(batchCount := batchIndex + 1, radiusKm := radiusKm, nextBatchAt := nextBatchAt));
      ScheduleNextBatch(current.value.batchCount);
    }

    method RunBatch(m: Moment)
      modifies this
      ensures Snapshot() == AfterBatch(config, m, old(Snapshot()))
    {
      hide LapseAll, Search, RankEligible, RadiusAfter, StepsLeft, QueryOf, PolicyOf, OffersOf, Contacts, Providers,
        ValidWorld;
      ghost var s := Snapshot();
      if current.None? || current.value.status != Active {
        return;
      }
      if request.status != Matching {
        Terminate(Cancelled);
        return;
      }
      ExpireStaleCandidates(m.world.now);
      if current.value.batchCount >= config.maxBatches {
        Terminate(Exhausted);
        return;
      }
      QueryAfterLapsing(config, m, s);
      var stored := State(request, current, contacts, batches, jobs);
      var query, policy := QueryOf(config, m, stored), PolicyOf(config, stored);
      var selected, radiusKm, tries := SelectNextBatch(m.world, query, policy, config.range, current.value.radiusKm);
      current := Some(current.value.(radiusKm := radiusKm));
      if |selected| == 0 {
        Terminate(Exhausted);
        return;
      }
      PersistBatch(m.world.now, selected, radiusKm);
    }

    method Edit(fields: Fields) returns (error: Option<Error>)
      modifies this
      ensures Outcome(Snapshot(), error) == Edited(old(Snapshot()), fields)
    {
      if request.status != Draft { return Some(NotEditable); }
      request := Request(Draft, fields);
      error := None;
    }

    method Submit() returns (error: Option<Error>)
      modifies this
      ensures Outcome(Snapshot(), error) == Submitted(old(Snapshot()))
    {
      if request.status != Draft { return Some(NotEditable); }
      if !IsComplete(request.fields) { return Some(Incomplete); }
      request := request.(status := Requested);
      error := None;
    }

    method Withdraw() returns (error: Option<Error>)
      modifies this
      ensures Outcome(Snapshot(), error) == Withdrawing(old(Snapshot()))
    {
      if request.status == Withdrawn { return Some(NotCancellable); }
      request := request.(status := Withdrawn);
      error := None;
    }

    method Start(m: Moment, mode: Mode, chosen: Option<Found>) returns (error: Option<Error>)
      modifies this
      ensures Outcome(Snapshot(), error) == Started(config, m, old(Snapshot()), mode, chosen)
    {
      hide AfterBatch;
      if current.Some? { return None; }
      if request.status != Requested { return Some(NotMatchable); }
      current := Some(Match(mode, Active, config.defaultRadiusKm, 0, None));
      request := request.(status := Matching);
      if mode == Direct {
        if chosen.None? { return Some(ProviderNotFound); }
        contacts := contacts + Contacts([DirectOffer(chosen.value)], 0, m.world.now + config.expirySeconds);
        current := Some(current.value.(batchCount := 1, status := Exhausted, nextBatchAt := None));
      } else {
        RunBatch(m);
      }
      error := None;
    }

    method ExpandRadius(m: Moment, radiusKm: real) returns (error: Option<Error>)
      modifies this
      ensures Outcome(Snapshot(), error) == Widening(config, m, old(Snapshot()), radiusKm)
    {
      hide AfterBatch;
      if current.None? { return Some(NoMatch); }
      if current.value.status != Active { return Some(MatchNotActive); }
      if radiusKm <= current.value.radiusKm { return Some(RadiusNotWider); }
      current := Some(current.value.(radiusKm := MinReal(radiusKm, config.range.maxKm)));
      RunBatch(m);
      error := None;
    }

    method MarkViewed(i: nat) returns (error: Option<Error>)
      modifies this
      ensures Outcome(Snapshot(), error) == Viewing(old(Snapshot()), i)
    {
      if i >= |contacts| { return Some(DispatchNotFound); }
      if contacts[i].status == Notified {
        contacts := contacts[i := contacts[i].(status := Viewed)];
      }
      error := None;
    }

    method Decline(i: nat, reason: Option<nat>) returns (error: Option<Error>)
      modifies this
      ensures Outcome(Snapshot(), error) == Declining(old(Snapshot()), i, reason)
    {
      if i >= |contacts| { return Some(DispatchNotFound); }
      if contacts[i].status == Declined { return Some(AlreadyDeclined); }
      contacts := contacts[i := contacts[i].(status := Declined, declineReason := reason)];
      error := None;
    }

    /** The worker takes a due job, runs the batch and drops the job when it completes. */
    method FireJob(m: Moment, job: nat)
      modifies this
      ensures Snapshot() == Fired(config, m, old(Snapshot()), job)
    {
      hide AfterBatch;
      if job in jobs {
        RunBatch(m);
        jobs := jobs - {job};
      }
    }
  }
}

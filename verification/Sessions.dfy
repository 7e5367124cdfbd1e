/** Refresh-token rotation on the server, under any interleaving of rotations, their
    explanations and revocations: session.service.ts and the token issuing of
    auth.service.ts. A token is its claims: a session id and a version. This is the reuse
    detection described in section 10.4 of RFC 6749. */
module Sessions {
  import opened Options

  datatype Reason = Logout | LogoutAll | ReuseDetected | RevokedByUser
  datatype Status = Active | Revoked(reason: Reason)
  datatype Session = Session(userId: nat, version: nat, status: Status, expiresAt: nat, lastUsedAt: nat)

  type Store = map<nat, Session>

  datatype Result = Success(version: nat) | NotFound | WasRevoked | WasExpired | Reused

  /** The conditional update of rotate matches. */
  predicate MayRotate(session: Session, presented: nat, now: nat) {
    session.status == Active && session.version == presented && session.expiresAt > now
  }

  predicate Matches(store: Store, sid: nat, presented: nat, now: nat) {
    sid in store && MayRotate(store[sid], presented, now)
  }

  function Rotated(store: Store, sid: nat, now: nat): Store
    requires sid in store
  {
    store[sid := store[sid].(version := store[sid].version + 1, lastUsedAt := now)]
  }

  /** explainFailedRotation as it reads the session; Reused still has to revoke it. */
  function Explain(store: Store, sid: nat, now: nat): Result {
    if sid !in store then NotFound
    else if store[sid].status.Revoked? then WasRevoked
    else if store[sid].expiresAt <= now then WasExpired
    else Reused
  }

  /** Only an ACTIVE session is ever revoked, so the first reason stays. */
  function RevokedIn(store: Store, sid: nat, reason: Reason): Store {
    if sid in store && store[sid].status == Active then store[sid := store[sid].(status := Revoked(reason))] else store
  }

  predicate IsRevocable(session: Session, sid: nat, userId: nat, except: Option<nat>) {
    session.userId == userId && session.status == Active && except != Some(sid)
  }

  function RevokedFor(store: Store, userId: nat, reason: Reason, except: Option<nat>): Store {
    map sid | sid in store ::
      if IsRevocable(store[sid], sid, userId, except) then store[sid].(status := Revoked(reason)) else store[sid]
  }

  // ------------------------------------------------------------- interleavings

  /** A rotate call with the moment it captured. From its conditional update on it also
      records, for the proofs, what that update saw. */
  datatype Phase =
    | Begun
    | Missed(seen: Option<Session>)
    | Condemning(seen: Option<Session>)
    | Answered(result: Result, seen: Option<Session>)

  datatype Call = Call(sid: nat, presented: nat, now: nat, phase: Phase)

  /** `versions` remembers the version of every session ever created, and `issued` every
      token handed out. */
  datatype State = State(store: Store, calls: map<nat, Call>, issued: set<(nat, nat)>, versions: map<nat, nat>,
    clock: nat)

  datatype Step =
    | Create(sid: nat, userId: nat, expiresAt: nat)
    | Begin(id: nat, sid: nat, presented: nat)
    | Swap(id: nat)
    | Explanation(id: nat)
    | Condemn(id: nat)
    | Revoke(sid: nat, reason: Reason)
    | RevokeAll(userId: nat, reason: Reason, except: Option<nat>)
    | Purge(sid: nat)
    | Tick

  function Lookup(store: Store, sid: nat): Option<Session> {
    if sid in store then Some(store[sid]) else None
  }

  function At(s: State, id: nat, phase: Phase): State
    requires id in s.calls
  {
    s.(calls := s.calls[id := s.calls[id].(phase := phase)])
  }

  function Created(s: State, sid: nat, userId: nat, expiresAt: nat): State {
    if sid in s.versions then s
    else s.(store := s.store[sid := Session(userId, 0, Active, expiresAt, s.clock)],
            issued := s.issued + {(sid, 0)}, versions := s.versions[sid := 0])
  }

  /** Only a token that was issued verifies. */
  function Beginning(s: State, id: nat, sid: nat, presented: nat): State {
    if id in s.calls || (sid, presented) !in s.issued then s
    else s.(calls := s.calls[id := Call(sid, presented, s.clock, Begun)])
  }

  function Swapped(s: State, id: nat): State {
    if id !in s.calls || !s.calls[id].phase.Begun? then s
    else
      var c := s.calls[id];
      var seen := Lookup(s.store, c.sid);
      if Matches(s.store, c.sid, c.presented, c.now)
      then
        At(s.(store := Rotated(s.store, c.sid, c.now), issued := s.issued + {(c.sid, c.presented + 1)},
              versions := s.versions[c.sid := c.presented + 1]),
           id, Answered(Success(c.presented + 1), seen))
      else At(s, id, Missed(seen))
  }

  function Explained(s: State, id: nat): State {
    if id !in s.calls || !s.calls[id].phase.Missed? then s
    else
      var c := s.calls[id];
      var result := Explain(s.store, c.sid, c.now);
      At(s, id, if result == Reused then Condemning(c.phase.seen) else Answered(result, c.phase.seen))
  }

  function Condemned(s: State, id: nat): State {
    if id !in s.calls || !s.calls[id].phase.Condemning? then s
    else
      At(s.(store := RevokedIn(s.store, s.calls[id].sid, ReuseDetected)), id, Answered(Reused, s.calls[id].phase.seen))
  }

  function Next(s: State, step: Step): State {
    match step
    case Create(sid, userId, expiresAt) => Created(s, sid, userId, expiresAt)
    case Begin(id, sid, presented) => Beginning(s, id, sid, presented)
    case Swap(id) => Swapped(s, id)
    case Explanation(id) => Explained(s, id)
    case Condemn(id) => Condemned(s, id)
    case Revoke(sid, reason) => s.(store := RevokedIn(s.store, sid, reason))
    case RevokeAll(userId, reason, except) => s.(store := RevokedFor(s.store, userId, reason, except))
    case Purge(sid) => if sid in s.store && s.store[sid].expiresAt <= s.clock then s.(store := s.store - {sid}) else s
    case Tick => s.(clock := s.clock + 1)
  }

  function Initial(): State { State(map[], map[], {}, map[], 0) }

  function Run(s: State, steps: seq<Step>): State
    decreases |steps|
  {
    if steps == [] then s else Run(Next(s, steps[0]), steps[1..])
  }

  // ------------------------------------------------------------------ invariant

  /** What a stored session and what a call saw of it earlier have in common: a session
      that is still ACTIVE was ACTIVE then, its expiry never moved, its version never fell. */
  predicate Follows(seen: Session, now: Session) {
    && now.expiresAt == seen.expiresAt && now.userId == seen.userId
    && seen.version <= now.version
    && (seen.status.Revoked? ==> now == seen)
  }

  ghost predicate StoreHolds(s: State) {
    && (forall sid :: sid in s.store ==> sid in s.versions && s.store[sid].version == s.versions[sid])
    && (forall t :: t in s.issued ==> t.0 in s.versions && t.1 <= s.versions[t.0])
    && (forall sid :: sid in s.versions ==> (sid, s.versions[sid]) in s.issued)
  }

  /** What a call's conditional update saw, against the store now. */
  ghost predicate SeenHolds(s: State, c: Call, seen: Option<Session>) {
    && !(seen.Some? && MayRotate(seen.value, c.presented, c.now))
    && (seen.None? ==> c.sid !in s.store)
    && (seen.Some? && c.sid in s.store ==> Follows(seen.value, s.store[c.sid]))
    && (seen.Some? ==> c.presented <= seen.value.version)
  }

  ghost predicate WasReuse(c: Call, seen: Option<Session>) {
    seen.Some? && seen.value.status == Active && seen.value.expiresAt > c.now && c.presented < seen.value.version
  }

  predicate IsDead(s: State, sid: nat) {
    sid in s.versions && (sid in s.store ==> s.store[sid].status.Revoked?)
  }

  ghost predicate CallHolds(s: State, c: Call) {
    && c.sid in s.versions && c.now <= s.clock && c.presented <= s.versions[c.sid]
    && match c.phase
       case Begun => true
       case Missed(seen) => SeenHolds(s, c, seen)
       case Condemning(seen) => WasReuse(c, seen)
       case Answered(Success(version), seen) =>
         && version == c.presented + 1 <= s.versions[c.sid]
         && seen.Some? && seen.value.status == Active && seen.value.version == c.presented
           && seen.value.expiresAt > c.now
         && (c.sid in s.store ==> Follows(seen.value, s.store[c.sid]))
       case Answered(Reused, seen) => WasReuse(c, seen) && IsDead(s, c.sid)
       case Answered(_, _) => true
  }

  predicate Succeeded(c: Call) { c.phase.Answered? && c.phase.result.Success? }

  ghost predicate OneWinner(calls: map<nat, Call>) {
    forall a, b :: a in calls && b in calls && a != b && Succeeded(calls[a]) && Succeeded(calls[b]) ==>
      calls[a].sid != calls[b].sid || calls[a].presented != calls[b].presented
  }

  ghost predicate CallsHold(s: State) {
    forall id :: id in s.calls ==> CallHolds(s, s.calls[id])
  }

  ghost predicate Inv(s: State) { StoreHolds(s) && CallsHold(s) && OneWinner(s.calls) }

  /** How the store moves at any step, seen from one session. */
  ghost predicate StoreMoves(s: State, t: State) {
    && s.clock <= t.clock
    && (forall sid :: sid in s.versions ==> sid in t.versions && s.versions[sid] <= t.versions[sid])
    && (forall sid :: sid in t.store ==> (sid in s.store && Follows(s.store[sid], t.store[sid])) || sid !in s.versions)
    && (forall sid :: IsDead(s, sid) ==> IsDead(t, sid) && t.versions[sid] == s.versions[sid])
  }

  lemma CallSurvives(s: State, t: State, c: Call)
    requires StoreHolds(s) && StoreMoves(s, t) && CallHolds(s, c)
    ensures CallHolds(t, c)
  {}

  lemma InitialHolds()
    ensures Inv(Initial())
  {}

  lemma CallsSurvive(s: State, t: State)
    requires StoreHolds(s) && StoreMoves(s, t) && CallsHold(s) && t.calls == s.calls
    ensures CallsHold(t)
  {
    hide CallHolds, StoreMoves, StoreHolds;
    forall id | id in t.calls ensures CallHolds(t, t.calls[id]) {
      CallSurvives(s, t, s.calls[id]);
    }
  }

  lemma RevokeAllMoves(s: State, userId: nat, reason: Reason, except: Option<nat>)
    requires StoreHolds(s)
    ensures var t := s.(store := RevokedFor(s.store, userId, reason, except)); StoreMoves(s, t) && StoreHolds(t)
  {}

  lemma CreateMoves(s: State, sid: nat, userId: nat, expiresAt: nat)
    requires StoreHolds(s)
    ensures StoreMoves(s, Created(s, sid, userId, expiresAt)) && StoreHolds(Created(s, sid, userId, expiresAt))
  {}

  /** The steps outside any call: they move the store and nothing else. */
  lemma StoreStepMoves(s: State, step: Step)
    requires StoreHolds(s)
    requires step.Create? || step.Revoke? || step.RevokeAll? || step.Purge? || step.Tick?
    ensures StoreMoves(s, Next(s, step)) && StoreHolds(Next(s, step)) && Next(s, step).calls == s.calls
  {
    hide RevokedFor;
    match step
    case Create(sid, userId, expiresAt) => CreateMoves(s, sid, userId, expiresAt);
    case RevokeAll(userId, reason, except) => RevokeAllMoves(s, userId, reason, except);
    case _ =>
  }

  lemma SwapMoves(s: State, id: nat)
    requires Inv(s) && id in s.calls && s.calls[id].phase.Begun?
    ensures StoreMoves(s, Swapped(s, id)) && StoreHolds(Swapped(s, id))
  {
    hide OneWinner;
    assert CallHolds(s, s.calls[id]);
  }

  lemma CondemnMoves(s: State, id: nat)
    requires StoreHolds(s)
    ensures StoreMoves(s, Condemned(s, id)) && StoreHolds(Condemned(s, id))
  {}

  /** One call moves on while the store moves with it. */
  lemma CallMovesOn(s: State, t: State, id: nat)
    requires Inv(s) && StoreHolds(t) && StoreMoves(s, t) && t.calls.Keys == s.calls.Keys + {id}
    requires forall other :: other in s.calls && other != id ==> t.calls[other] == s.calls[other]
    requires CallHolds(t, t.calls[id])
    requires Succeeded(t.calls[id]) ==>
      forall other :: other in s.calls && other != id && Succeeded(s.calls[other]) ==>
        s.calls[other].sid != t.calls[id].sid || s.calls[other].presented != t.calls[id].presented
    ensures Inv(t)
  {
    hide CallHolds, StoreMoves, StoreHolds, Succeeded;
    forall other | other in t.calls ensures CallHolds(t, t.calls[other]) {
      if other != id { CallSurvives(s, t, s.calls[other]); }
    }
  }

  lemma SwapKeeps(s: State, id: nat)
    requires Inv(s)
    ensures Inv(Swapped(s, id))
  {
    if id in s.calls && s.calls[id].phase.Begun? {
      var t, c := Swapped(s, id), s.calls[id];
      assert CallHolds(s, c);
      SwapMoves(s, id);
      assert CallHolds(t, t.calls[id]) by { hide OneWinner, StoreMoves, CallsHold; }
      forall other | other in s.calls && other != id && Succeeded(s.calls[other]) && Succeeded(t.calls[id])
        ensures s.calls[other].sid != c.sid || s.calls[other].presented != c.presented
      {
        assert CallHolds(s, s.calls[other]);
      }
      hide StoreMoves, StoreHolds, CallHolds, Inv;
      CallMovesOn(s, t, id);
    }
  }

  lemma ExplainKeeps(s: State, id: nat)
    requires Inv(s)
    ensures Inv(Explained(s, id))
  {
    if id in s.calls && s.calls[id].phase.Missed? {
      var t := Explained(s, id);
      assert CallHolds(s, s.calls[id]);
      assert StoreMoves(s, t);
      CallMovesOn(s, t, id);
    }
  }

  lemma CondemnKeeps(s: State, id: nat)
    requires Inv(s)
    ensures Inv(Condemned(s, id))
  {
    if id in s.calls && s.calls[id].phase.Condemning? {
      var t := Condemned(s, id);
      assert CallHolds(s, s.calls[id]);
      CondemnMoves(s, id);
      CallMovesOn(s, t, id);
    }
  }

  lemma BeginKeeps(s: State, id: nat, sid: nat, presented: nat)
    requires Inv(s)
    ensures Inv(Beginning(s, id, sid, presented))
  {
    if id !in s.calls && (sid, presented) in s.issued {
      var t := Beginning(s, id, sid, presented);
      assert StoreMoves(s, t);
      CallMovesOn(s, t, id);
    }
  }

  lemma StepKeeps(s: State, step: Step)
    requires Inv(s)
    ensures Inv(Next(s, step))
  {
    hide CallHolds, StoreHolds, StoreMoves, OneWinner, CallsHold, Swapped, Explained, Condemned, Beginning;
    match step
    case Begin(id, sid, presented) => BeginKeeps(s, id, sid, presented);
    case Swap(id) => SwapKeeps(s, id);
    case Explanation(id) => ExplainKeeps(s, id);
    case Condemn(id) => CondemnKeeps(s, id);
    case _ => StoreStepMoves(s, step); CallsSurvive(s, Next(s, step));
  }

  lemma {:induction false} EveryRunKeeps(s: State, steps: seq<Step>)
    requires Inv(s)
    ensures Inv(Run(s, steps))
    decreases |steps|
  {
    hide Inv, Next;
    if steps != [] {
      StepKeeps(s, steps[0]);
      EveryRunKeeps(Next(s, steps[0]), steps[1..]);
    }
  }

  // ------------------------------------------------------------------- theorems

  /** Whatever interleaves, a (session, version) is rotated away by at most one call, and
      only by one that began before the expiry the session had, and has as long as it is
      stored. */
  lemma AtMostOneRotation(steps: seq<Step>, a: nat, b: nat)
    ensures var s := Run(Initial(), steps);
      && (a in s.calls && b in s.calls && a != b && Succeeded(s.calls[a]) && Succeeded(s.calls[b]) ==>
          s.calls[a].sid != s.calls[b].sid || s.calls[a].presented != s.calls[b].presented)
      && (a in s.calls && Succeeded(s.calls[a]) ==>
          var seen := s.calls[a].phase.seen;
          && seen.Some? && s.calls[a].now < seen.value.expiresAt
          && (s.calls[a].sid in s.store ==> s.store[s.calls[a].sid].expiresAt == seen.value.expiresAt))
  {
    hide Run, StoreHolds;
    InitialHolds();
    EveryRunKeeps(Initial(), steps);
    var s := Run(Initial(), steps);
    if a in s.calls { assert CallHolds(s, s.calls[a]); }
  }

  /** A call answered with reuse really presented an older version than the live session
      held when its conditional update ran, and the session is dead. */
  lemma ReuseIsReal(steps: seq<Step>, id: nat)
    ensures var s := Run(Initial(), steps);
      id in s.calls && s.calls[id].phase.Answered? && s.calls[id].phase.result == Reused ==>
        WasReuse(s.calls[id], s.calls[id].phase.seen) && IsDead(s, s.calls[id].sid)
  {
    hide Run, StoreHolds;
    InitialHolds();
    EveryRunKeeps(Initial(), steps);
    var s := Run(Initial(), steps);
    if id in s.calls { assert CallHolds(s, s.calls[id]); }
  }

  lemma StepMoves(s: State, step: Step)
    requires Inv(s)
    ensures StoreMoves(s, Next(s, step))
  {
    hide CallHolds, OneWinner;
    match step
    case Swap(id) => if id in s.calls && s.calls[id].phase.Begun? { SwapMoves(s, id); }
    case Condemn(id) => CondemnMoves(s, id);
    case Begin(id, sid, presented) =>
    case Explanation(id) =>
    case _ => StoreStepMoves(s, step);
  }

  /** The successful rotations of one session. */
  function Wins(s: State, sid: nat): set<nat> {
    set id | id in s.calls && Succeeded(s.calls[id]) && s.calls[id].sid == sid
  }

  /** No call wins a dead session: its conditional update cannot match. */
  lemma NoWinAfterDeath(s: State, step: Step, sid: nat)
    requires IsDead(s, sid)
    ensures Wins(Next(s, step), sid) == Wins(s, sid)
  {
    hide Rotated, RevokedFor, RevokedIn;
    if step.Swap? && step.id in s.calls && s.calls[step.id].sid == sid {
      assert !Matches(s.store, sid, s.calls[step.id].presented, s.calls[step.id].now);
    }
  }

  lemma DeadStepKeeps(s: State, step: Step, sid: nat)
    requires Inv(s) && IsDead(s, sid)
    ensures IsDead(Next(s, step), sid) && Wins(Next(s, step), sid) == Wins(s, sid)
    ensures Next(s, step).versions[sid] == s.versions[sid]
  {
    hide Next, Wins, Inv;
    StepMoves(s, step);
    NoWinAfterDeath(s, step, sid);
  }

  /** A revoked or deleted session is never rotated again: after a logout, a revocation or
      a detected reuse no further rotation succeeds, and its version stands still. */
  lemma {:induction false} DeadStaysDead(s: State, steps: seq<Step>, sid: nat)
    requires Inv(s) && IsDead(s, sid)
    ensures IsDead(Run(s, steps), sid) && Wins(Run(s, steps), sid) == Wins(s, sid)
    ensures Run(s, steps).versions[sid] == s.versions[sid]
    decreases |steps|
  {
    hide Inv, Next, Wins, IsDead;
    if steps != [] {
      StepKeeps(s, steps[0]);
      DeadStepKeeps(s, steps[0], sid);
      DeadStaysDead(Next(s, steps[0]), steps[1..], sid);
    }
  }

  /** Over any run versions never fall, expiries never move, and a revocation keeps its
      first reason. */
  lemma {:induction false} VersionsNeverFall(s: State, steps: seq<Step>, sid: nat)
    requires Inv(s) && sid in s.versions
    ensures var t := Run(s, steps);
      && sid in t.versions && s.versions[sid] <= t.versions[sid]
      && (sid in t.store ==> sid in s.store && Follows(s.store[sid], t.store[sid]))
    decreases |steps|
  {
    hide Inv, Next;
    if steps == [] {
      InvOf(s);
    } else {
      StepKeeps(s, steps[0]);
      StepMoves(s, steps[0]);
      VersionsNeverFall(Next(s, steps[0]), steps[1..], sid);
    }
  }

  /** Signing a user out everywhere: from then on, whatever follows, every session the user had,
      but the one kept, is dead and never rotated again; those already revoked keep their
      reason, the others have this one; and nobody else's session, nor the one kept, is touched. */
  lemma RevokeAllIsFinal(s: State, userId: nat, reason: Reason, except: Option<nat>, later: seq<Step>, sid: nat)
    requires Inv(s) && sid in s.store
    ensures var t := Next(s, RevokeAll(userId, reason, except));
      && t.store.Keys == s.store.Keys && t.calls == s.calls
      && if s.store[sid].userId == userId && except != Some(sid)
         then
           && t.store[sid].status == Revoked(
                if s.store[sid].status.Revoked? then s.store[sid].status.reason else reason)
           && t.store[sid].version == s.store[sid].version && t.store[sid].expiresAt == s.store[sid].expiresAt
           && IsDead(Run(t, later), sid) && Run(t, later).versions[sid] == s.versions[sid]
         else t.store[sid] == s.store[sid]
  {
    var step := RevokeAll(userId, reason, except);
    StepKeeps(s, step);
    var t := Next(s, step);
    if s.store[sid].userId == userId && except != Some(sid) {
      assert IsDead(t, sid);
      DeadStaysDead(t, later, sid);
    }
  }

  lemma InvOf(s: State)
    requires Inv(s)
    ensures StoreHolds(s)
  {}

  // ---------------------------------------------------------------- the service

  /** A rotation that nothing interrupts. */
  function RotateAlone(store: Store, sid: nat, presented: nat, now: nat): (Store, Result) {
    if Matches(store, sid, presented, now) then (Rotated(store, sid, now), Success(presented + 1))
    else
      var result := Explain(store, sid, now);
      (if result == Reused then RevokedIn(store, sid, ReuseDetected) else store, result)
  }

  /** What an uninterrupted rotation answers, and what it leaves behind: one condition for each
      answer, the session's death before its expiry and both before reuse. */
  lemma AnswersExactly(store: Store, sid: nat, presented: nat, now: nat)
    ensures var (after, result) := RotateAlone(store, sid, presented, now);
      && (result == NotFound <==> sid !in store)
      && (result == WasRevoked <==> sid in store && store[sid].status != Active)
      && (result == WasExpired <==> sid in store && store[sid].status == Active && store[sid].expiresAt <= now)
      && (result.Success? <==> sid in store && store[sid].status == Active && store[sid].expiresAt > now
                                && store[sid].version == presented)
      && (result.Success? ==> result.version == presented + 1)
      && after.Keys == store.Keys && (forall other :: other in store && other != sid ==> after[other] == store[other])
      && (sid in store ==>
            && after[sid].version == (if result.Success? then presented + 1 else store[sid].version)
            && after[sid].status == (if result == Reused then Revoked(ReuseDetected) else store[sid].status)
            && after[sid].userId == store[sid].userId && after[sid].expiresAt == store[sid].expiresAt)
  {}

  /** The steps of one call, run without interruption, do what RotateAlone says. */
  lemma AloneIsTheSteps(s: State, id: nat, sid: nat, presented: nat)
    requires id !in s.calls && (sid, presented) in s.issued
    ensures var t := Run(s, [Begin(id, sid, presented), Swap(id), Explanation(id), Condemn(id)]);
      var (store, result) := RotateAlone(s.store, sid, presented, s.clock);
      t.store == store && id in t.calls && t.calls[id].phase.Answered? && t.calls[id].phase.result == result
  {
    hide Run, Matches, Rotated, Explain, RevokedIn;
    var t1 := Beginning(s, id, sid, presented);
    var t2 := Swapped(t1, id);
    var t3 := Explained(t2, id);
    FourSteps(s, Begin(id, sid, presented), Swap(id), Explanation(id), Condemn(id));
    assert Next(Next(Next(Next(s, Begin(id, sid, presented)), Swap(id)), Explanation(id)), Condemn(id)) ==
      Condemned(t3, id);
  }

  lemma FourSteps(s: State, a: Step, b: Step, c: Step, d: Step)
    ensures Run(s, [a, b, c, d]) == Next(Next(Next(Next(s, a), b), c), d)
  {
    hide Next;
    var one, two, three := Next(s, a), Next(Next(s, a), b), Next(Next(Next(s, a), b), c);
    assert Run(s, [a, b, c, d]) == Run(one, [b, c, d]);
    assert Run(one, [b, c, d]) == Run(two, [c, d]);
    assert Run(two, [c, d]) == Run(three, [d]);
    assert Run(three, [d]) == Run(Next(three, d), []);
  }

  /** The session collection, updated in place. */
  class SessionStore {
    var sessions: Store

    constructor ()
      ensures sessions == map[]
    {
      sessions := map[];
    }

    method CreateSession(sid: nat, userId: nat, expiresAt: nat, now: nat)
      requires sid !in sessions
      modifies this
      ensures sessions == old(sessions)[sid := Session(userId, 0, Active, expiresAt, now)]
      ensures forall s: State :: s.store == old(sessions) && s.clock == now && sid !in s.versions ==>
        sessions == Created(s, sid, userId, expiresAt).store
    {
      sessions := sessions[sid := Session(userId, 0, Active, expiresAt, now)];
    }

    method Rotate(sid: nat, presented: nat, now: nat) returns (result: Result)
      modifies this
      ensures (sessions, result) == RotateAlone(old(sessions), sid, presented, now)
    {
      if sid in sessions {
        var session := sessions[sid];
        if session.status == Active && session.version == presented && session.expiresAt > now {
          sessions := sessions[sid := session.(version := session.version + 1, lastUsedAt := now)];
          return Success(session.version + 1);
        }
      }
      result := ExplainFailedRotation(sid, now);
    }

    method ExplainFailedRotation(sid: nat, now: nat) returns (result: Result)
      modifies this
      ensures result == Explain(old(sessions), sid, now)
      ensures sessions == if result == Reused then RevokedIn(old(sessions), sid, ReuseDetected) else old(sessions)
    {
      if sid !in sessions { return NotFound; }
      var session := sessions[sid];
      if session.status.Revoked? { return WasRevoked; }
      if session.expiresAt <= now { return WasExpired; }
      Revoke(sid, ReuseDetected);
      result := Reused;
    }

    method Revoke(sid: nat, reason: Reason)
      modifies this
      ensures sessions == RevokedIn(old(sessions), sid, reason)
    {
      if sid in sessions && sessions[sid].status == Active {
        sessions := sessions[sid := sessions[sid].(status := Revoked(reason))];
      }
    }

    method RevokeAllForUser(userId: nat, reason: Reason, except: Option<nat>)
      modifies this
      ensures sessions == RevokedFor(old(sessions), userId, reason, except)
    {
      ghost var before, goal := sessions, RevokedFor(sessions, userId, reason, except);
      var left := sessions.Keys;
      while left != {}
        invariant left <= sessions.Keys == before.Keys
        invariant forall sid :: sid in before ==> sessions[sid] == if sid in left then before[sid] else goal[sid]
        decreases |left|
      {
        var sid :| sid in left;
        left := left - {sid};
        if IsRevocable(sessions[sid], sid, userId, except) {
          sessions := sessions[sid := sessions[sid].(status := Revoked(reason))];
        }
      }
    }
  }
}

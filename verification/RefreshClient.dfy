/** One browser tab refreshing its tokens: api-client.ts, realtime.ts and auth-store.ts,
    composed with the server of Sessions. Replies are not lost; other tabs and devices
    use other sessions. */
module RefreshClient {
  import opened Options
  import S = Sessions

  datatype Token = Token(sid: nat, version: nat)

  /** refreshInFlight: not started, request on its way, at the server under a call number,
      or settled and about to be cleared. */
  datatype Flight = Idle | Sent(token: Token) | AtServer(call: nat) | Settled(ok: bool)

  /** An authenticated API call: what access token it was sent with, waiting for the shared
      refresh, told its result, or past it. */
  datatype ApiCall = Sending(sentWith: Option<nat>) | Waiting | Told(ok: bool) | Retried | SignedOut

  /** The chat socket: whether this refusal already asked for a refresh, and its wait. */
  datatype Socket = Socket(attempted: bool, wait: Wait)
  datatype Wait = NotWaiting | WaitingToo | ToldToo(ok: bool)

  /** The tab. Access tokens are numbered as they come; `next` is the next number. */
  datatype Tab = Tab(
    held: Option<Token>, access: Option<nat>, next: nat, flight: Flight, calls: map<nat, ApiCall>, socket: Socket)

  // ---------------------------------------------------------------- client steps

  function Stored(tab: Tab, token: Token): Tab {
    tab.(held := Some(token), access := Some(tab.next), next := tab.next + 1)
  }

  function Cleared(tab: Tab): Tab { tab.(held := None, access := None) }

  /** refreshSession: join the refresh in flight, or start one. */
  function Joined(tab: Tab): Tab {
    if tab.flight != Idle then tab
    else if tab.held.None? then tab.(flight := Settled(false))
    else tab.(flight := Sent(tab.held.value))
  }

  function Called(tab: Tab, id: nat): Tab {
    if id in tab.calls then tab else tab.(calls := tab.calls[id := Sending(tab.access)])
  }

  /** The 401 branch of apiFetch. */
  function Refused(tab: Tab, id: nat): Tab {
    if id !in tab.calls || !tab.calls[id].Sending? then tab
    else if tab.access.Some? && tab.access != tab.calls[id].sentWith then tab.(calls := tab.calls[id := Retried])
    else Joined(tab.(calls := tab.calls[id := Waiting]))
  }

  function SocketRefused(tab: Tab): Tab {
    if tab.socket.attempted then tab else Joined(tab.(socket := Socket(true, WaitingToo)))
  }

  function SocketConnected(tab: Tab): Tab { tab.(socket := tab.socket.(attempted := false)) }

  /** The reply of performRefresh. */
  function Replied(tab: Tab, sid: nat, result: S.Result): Tab {
    if result.Success? then Stored(tab, Token(sid, result.version)).(flight := Settled(true))
    else tab.(flight := Settled(false))
  }

  function Tell(call: ApiCall, ok: bool): ApiCall { if call == Waiting then Told(ok) else call }

  /** The promise settles: refreshInFlight is cleared and everyone waiting learns the result. */
  function Finished(tab: Tab): Tab {
    if !tab.flight.Settled? then tab
    else
      var ok := tab.flight.ok;
      tab.(flight := Idle,
           calls := map id | id in tab.calls :: Tell(tab.calls[id], ok),
           socket := if tab.socket.wait == WaitingToo then tab.socket.(wait := ToldToo(ok)) else tab.socket)
  }

  function Resumed(tab: Tab, id: nat): Tab {
    if id !in tab.calls || !tab.calls[id].Told? then tab
    else if tab.calls[id].ok then tab.(calls := tab.calls[id := Retried])
    else Cleared(tab.(calls := tab.calls[id := SignedOut]))
  }

  function SocketResumed(tab: Tab): Tab {
    if !tab.socket.wait.ToldToo? then tab
    else
      var rest := tab.(socket := tab.socket.(wait := NotWaiting));
      if tab.socket.wait.ok then rest else Cleared(rest)
  }

  // ------------------------------------------------------------ tab and server

  /** `mine` holds the sessions this tab logged into. */
  datatype World = World(server: S.State, tab: Tab, mine: set<nat>)

  datatype Step =
    | Call(id: nat) | Unauthorized(id: nat) | SocketError | SocketUp | Finish | Resume(id: nat) | ResumeSocket
    | LogOut
    | LogIn(sid: nat, userId: nat, expiresAt: nat)
    | Arrive(call: nat)
    | Reply
    | Server(step: S.Step)

  function LoggedIn(w: World, sid: nat, userId: nat, expiresAt: nat): World {
    if sid in w.server.versions then w
    else World(S.Created(w.server, sid, userId, expiresAt), Stored(w.tab, Token(sid, 0)), w.mine + {sid})
  }

  function Arrived(w: World, call: nat): World {
    if !w.tab.flight.Sent? || call in w.server.calls then w
    else
      var token := w.tab.flight.token;
      w.(server := S.Beginning(w.server, call, token.sid, token.version), tab := w.tab.(flight := AtServer(call)))
  }

  function ReplyArrives(w: World): World {
    if w.tab.flight.AtServer? && w.tab.flight.call in w.server.calls
      && w.server.calls[w.tab.flight.call].phase.Answered?
    then
      var c := w.server.calls[w.tab.flight.call];
      w.(tab := Replied(w.tab, c.sid, c.phase.result))
    else w
  }

  /** The server may do anything but take tokens of this tab's sessions from elsewhere. */
  predicate IsAllowed(w: World, step: S.Step) { step.Begin? ==> step.sid !in w.mine }

  function Next(w: World, step: Step): World {
    match step
    case Call(id) => w.(tab := Called(w.tab, id))
    case Unauthorized(id) => w.(tab := Refused(w.tab, id))
    case SocketError => w.(tab := SocketRefused(w.tab))
    case SocketUp => w.(tab := SocketConnected(w.tab))
    case Finish => w.(tab := Finished(w.tab))
    case Resume(id) => w.(tab := Resumed(w.tab, id))
    case ResumeSocket => w.(tab := SocketResumed(w.tab))
    case LogOut => w.(tab := Cleared(w.tab))
    case LogIn(sid, userId, expiresAt) => LoggedIn(w, sid, userId, expiresAt)
    case Arrive(call) => Arrived(w, call)
    case Reply => ReplyArrives(w)
    case Server(s) => if IsAllowed(w, s) then w.(server := S.Next(w.server, s)) else w
  }

  function Initial(): World {
    World(S.Initial(), Tab(None, None, 0, Idle, map[], Socket(false, NotWaiting)), {})
  }

  function Run(w: World, steps: seq<Step>): World
    decreases |steps|
  {
    if steps == [] then w else Run(Next(w, steps[0]), steps[1..])
  }

  // ------------------------------------------------------------------ invariant

  /** The token's version is the one the server stores. */
  predicate IsCurrent(w: World, token: Token) {
    token.sid in w.mine && token.sid in w.server.versions && token.version == w.server.versions[token.sid]
  }

  predicate HasEnded(server: S.State, sid: nat) {
    S.IsDead(server, sid) || (sid in server.store && server.store[sid].expiresAt <= server.clock)
  }

  /** How far the tab's own call may be at the server. */
  ghost predicate CallIsSound(w: World, c: S.Call) {
    match c.phase
    case Begun => IsCurrent(w, Token(c.sid, c.presented))
    case Missed(_) => IsCurrent(w, Token(c.sid, c.presented))
    case Condemning(_) => false
    case Answered(Success(version), _) => IsCurrent(w, Token(c.sid, version))
    case Answered(Reused, _) => false
    case Answered(_, _) => HasEnded(w.server, c.sid)
  }

  /** The only token held that may be out of date is the one whose replacement is on its way. */
  ghost predicate HeldIsSound(w: World, held: Token) {
    || IsCurrent(w, held)
    || (&& w.tab.flight.AtServer? && w.tab.flight.call in w.server.calls
        && var c := w.server.calls[w.tab.flight.call]; S.Succeeded(c) && held == Token(c.sid, c.presented))
  }

  ghost predicate FlightIsSound(w: World) {
    match w.tab.flight
    case Sent(token) => IsCurrent(w, token)
    case AtServer(call) => call in w.server.calls && w.server.calls[call].sid in w.mine
      && CallIsSound(w, w.server.calls[call])
    case _ => true
  }

  /** Calls of this tab other than the one in flight are over, and none was taken for reuse. */
  ghost predicate OthersAreOver(w: World) {
    forall id :: id in w.server.calls && w.server.calls[id].sid in w.mine && w.tab.flight != AtServer(id) ==>
      w.server.calls[id].phase.Answered? && w.server.calls[id].phase.result != S.Reused
  }

  ghost predicate Inv(w: World) {
    && S.Inv(w.server)
    && (forall sid :: sid in w.mine ==> sid in w.server.versions)
    && (w.tab.held.Some? ==> HeldIsSound(w, w.tab.held.value))
    && FlightIsSound(w) && OthersAreOver(w)
  }

  lemma InitialHolds()
    ensures Inv(Initial())
  {
    S.InitialHolds();
  }

  /** A step of the tab alone may drop the token, settle or clear a refresh, or start one
      with the token it holds. */
  lemma TabKeeps(w: World, tab: Tab)
    requires Inv(w) && (tab.held == w.tab.held || tab.held == None)
    requires tab.flight == w.tab.flight
      || ((w.tab.flight == Idle || w.tab.flight.Settled?)
          && (tab.flight == Idle || tab.flight.Settled? || (tab.flight.Sent? && w.tab.held == Some(tab.flight.token))))
    ensures Inv(w.(tab := tab))
  {
    hide S.Inv;
  }

  lemma ReplyKeeps(w: World)
    requires Inv(w)
    ensures Inv(ReplyArrives(w))
  {
    hide S.Inv;
  }

  lemma ArriveKeeps(w: World, call: nat)
    requires Inv(w)
    ensures Inv(Arrived(w, call))
  {
    if w.tab.flight.Sent? && call !in w.server.calls {
      var token := w.tab.flight.token;
      assert (token.sid, token.version) in w.server.issued;
      S.BeginKeeps(w.server, call, token.sid, token.version);
      hide S.Inv;
    }
  }

  lemma CreateKeeps(server: S.State, sid: nat, userId: nat, expiresAt: nat)
    requires S.Inv(server)
    ensures S.Inv(S.Created(server, sid, userId, expiresAt))
  {
    hide S.Inv;
    S.StepKeeps(server, S.Create(sid, userId, expiresAt));
  }

  lemma LogInKeeps(w: World, sid: nat, userId: nat, expiresAt: nat)
    requires Inv(w)
    ensures Inv(LoggedIn(w, sid, userId, expiresAt))
  {
    hide S.Inv;
    CreateKeeps(w.server, sid, userId, expiresAt);
    CallsKnowTheirSession(w.server);
  }

  lemma CallsKnowTheirSession(server: S.State)
    requires S.Inv(server)
    ensures forall id :: id in server.calls ==> server.calls[id].sid in server.versions
  {
    forall id | id in server.calls ensures server.calls[id].sid in server.versions {
      assert S.CallHolds(server, server.calls[id]);
    }
  }

  /** Only the conditional update of a call on a session changes its version. */
  lemma VersionStands(server: S.State, step: S.Step, sid: nat)
    requires S.Inv(server) && sid in server.versions
    requires step.Swap? && step.id in server.calls && server.calls[step.id].phase.Begun? ==>
      server.calls[step.id].sid != sid
    ensures sid in S.Next(server, step).versions && S.Next(server, step).versions[sid] == server.versions[sid]
  {
    hide S.CallHolds, S.CallsHold, S.OneWinner, S.StoreHolds, S.RevokedFor;
  }

  /** A step leaves every call but its own alone, and an answer is final. */
  lemma CallsStand(server: S.State, step: S.Step, id: nat)
    requires id in server.calls
    ensures var after := S.Next(server, step);
      && id in after.calls && after.calls[id].sid == server.calls[id].sid
        && after.calls[id].presented == server.calls[id].presented
      && (server.calls[id].phase.Answered? ==> after.calls[id] == server.calls[id])
      && (after.calls[id] == server.calls[id] || step == S.Swap(id) || step == S.Explanation(id)
        || step == S.Condemn(id))
  {
    hide S.RevokedFor, S.RevokedIn, S.Rotated, S.Explain, S.Matches;
  }

  lemma EndIsFinal(server: S.State, after: S.State, sid: nat)
    requires S.StoreHolds(server) && S.StoreMoves(server, after) && HasEnded(server, sid)
    ensures HasEnded(after, sid)
  {}

  /** A call that missed with the current version missed because the session had ended. */
  lemma MissMeansEnded(w: World, call: nat)
    requires Inv(w) && w.tab.flight == AtServer(call) && w.server.calls[call].phase.Missed?
    ensures S.Explain(w.server.store, w.server.calls[call].sid, w.server.calls[call].now) != S.Reused
    ensures HasEnded(w.server, w.server.calls[call].sid)
  {
    assert S.CallHolds(w.server, w.server.calls[call]);
  }

  lemma FlightCallKeeps(w: World, step: S.Step, call: nat)
    requires Inv(w) && w.tab.flight == AtServer(call)
    ensures FlightIsSound(w.(server := S.Next(w.server, step)))
  {
    var c := w.server.calls[call];
    CallsStand(w.server, step, call);
    S.StepMoves(w.server, step);
    if step == S.Swap(call) && c.phase.Begun? {
      SwapIsSound(w, call);
    } else {
      VersionStandsFor(w, step, c.sid);
      hide S.Inv, S.StoreMoves;
      if step == S.Explanation(call) && c.phase.Missed? {
        MissMeansEnded(w, call);
      } else if c.phase.Answered? && HasEnded(w.server, c.sid) {
        EndPersists(w, step, c.sid);
      }
    }
  }

  lemma EndPersists(w: World, step: S.Step, sid: nat)
    requires Inv(w) && HasEnded(w.server, sid)
    ensures HasEnded(S.Next(w.server, step), sid)
  {
    S.StepMoves(w.server, step);
    EndIsFinal(w.server, S.Next(w.server, step), sid);
  }

  lemma SwapIsSound(w: World, call: nat)
    requires Inv(w) && w.tab.flight == AtServer(call) && w.server.calls[call].phase.Begun?
    ensures FlightIsSound(w.(server := S.Swapped(w.server, call)))
  {
    hide S.Inv;
  }

  /** The version of one of this tab's sessions moves only by the tab's own refresh. */
  lemma VersionStandsFor(w: World, step: S.Step, sid: nat)
    requires Inv(w) && sid in w.mine
    requires w.tab.flight.AtServer? && w.server.calls[w.tab.flight.call].phase.Begun? ==>
      step != S.Swap(w.tab.flight.call)
    ensures sid in S.Next(w.server, step).versions && S.Next(w.server, step).versions[sid] == w.server.versions[sid]
  {
    VersionStands(w.server, step, sid);
  }

  lemma ServerKeepsHeld(w: World, step: S.Step)
    requires Inv(w) && IsAllowed(w, step) && w.tab.held.Some?
    ensures HeldIsSound(w.(server := S.Next(w.server, step)), w.tab.held.value)
  {
    var held := w.tab.held.value;
    var flight := w.tab.flight;
    if flight.AtServer? && step == S.Swap(flight.call) && w.server.calls[flight.call].phase.Begun? {
      SwapHeld(w, flight.call);
    } else {
      VersionStandsFor(w, step, held.sid);
      if flight.AtServer? { CallsStand(w.server, step, flight.call); }
    }
  }

  lemma SwapHeld(w: World, call: nat)
    requires Inv(w) && w.tab.flight == AtServer(call) && w.server.calls[call].phase.Begun? && w.tab.held.Some?
    ensures HeldIsSound(w.(server := S.Swapped(w.server, call)), w.tab.held.value)
  {
    hide S.Inv;
  }

  lemma ServerKeepsOthers(w: World, step: S.Step)
    requires Inv(w) && IsAllowed(w, step)
    ensures OthersAreOver(w.(server := S.Next(w.server, step)))
  {
    hide S.Inv;
    var after := w.(server := S.Next(w.server, step));
    forall id | id in after.server.calls && after.server.calls[id].sid in w.mine && w.tab.flight != AtServer(id)
      ensures after.server.calls[id].phase.Answered? && after.server.calls[id].phase.result != S.Reused
    {
      if id in w.server.calls { CallsStand(w.server, step, id); }
    }
  }

  lemma ServerKeeps(w: World, step: S.Step)
    requires Inv(w) && IsAllowed(w, step)
    ensures Inv(w.(server := S.Next(w.server, step)))
  {
    var after := w.(server := S.Next(w.server, step));
    S.StepKeeps(w.server, step);
    S.StepMoves(w.server, step);
    ServerKeepsOthers(w, step);
    if w.tab.held.Some? { ServerKeepsHeld(w, step); }
    if w.tab.flight.AtServer? {
      FlightCallKeeps(w, step, w.tab.flight.call);
    } else if w.tab.flight.Sent? {
      VersionStandsFor(w, step, w.tab.flight.token.sid);
    }
    hide S.Inv, S.Next, HeldIsSound, OthersAreOver;
  }

  lemma StepKeeps(w: World, step: Step)
    requires Inv(w)
    ensures Inv(Next(w, step))
  {
    hide Inv, Arrived, ReplyArrives, LoggedIn, S.Next;
    match step
    case LogIn(sid, userId, expiresAt) => LogInKeeps(w, sid, userId, expiresAt);
    case Arrive(call) => ArriveKeeps(w, call);
    case Reply => ReplyKeeps(w);
    case Server(s) => if IsAllowed(w, s) { ServerKeeps(w, s); }
    case _ => TabKeeps(w, Next(w, step).tab);
  }

  lemma {:induction false} EveryRunKeeps(w: World, steps: seq<Step>)
    requires Inv(w)
    ensures Inv(Run(w, steps))
    decreases |steps|
  {
    hide Inv, Next;
    if steps != [] {
      StepKeeps(w, steps[0]);
      EveryRunKeeps(Next(w, steps[0]), steps[1..]);
    }
  }

  /** Single flight composed with rotation: however many calls meet a 401 and however the
      socket, logins, logouts and the server interleave, no refresh of this tab is ever
      taken for reuse, and one is refused only when its session has ended. */
  lemma NeverTakenForReuse(steps: seq<Step>, id: nat)
    ensures var w := Run(Initial(), steps);
      id in w.server.calls && w.server.calls[id].sid in w.mine && w.server.calls[id].phase.Answered? ==>
        w.server.calls[id].phase.result != S.Reused
    ensures var w := Run(Initial(), steps);
      w.tab.flight == AtServer(id) && id in w.server.calls && w.server.calls[id].phase.Answered?
        && !S.Succeeded(w.server.calls[id]) ==>
        HasEnded(w.server, w.server.calls[id].sid)
  {
    hide Run, S.Inv;
    InitialHolds();
    EveryRunKeeps(Initial(), steps);
  }

  /** Whenever no refresh is in flight the tab holds the current token of its session. */
  lemma HeldIsCurrentAtRest(steps: seq<Step>)
    ensures var w := Run(Initial(), steps);
      w.tab.flight == Idle && w.tab.held.Some? ==> IsCurrent(w, w.tab.held.value)
  {
    hide Run, S.Inv;
    InitialHolds();
    EveryRunKeeps(Initial(), steps);
  }

  /** Why replies must not be lost: presenting a rotated token once more revokes the session. */
  lemma ReplayIsReuse(store: S.Store, sid: nat, version: nat, now: nat, later: nat)
    requires S.Matches(store, sid, version, now) && store[sid].expiresAt > later
    ensures var (rotated, first) := S.RotateAlone(store, sid, version, now);
      var (revoked, second) := S.RotateAlone(rotated, sid, version, later);
      first == S.Success(version + 1) && second == S.Reused && revoked[sid].status == S.Revoked(S.ReuseDetected)
  {}

  // ---------------------------------------------------- what everyone waiting gets

  /** Once the server has answered the refresh on its way, the tab has only to hear of it: a
      call waiting for it is replayed with the new pair held, or signed out with nothing held. */
  lemma WaitingCallGets(w: World, call: nat, id: nat)
    requires w.tab.flight == AtServer(call) && call in w.server.calls && w.server.calls[call].phase.Answered?
    requires id in w.tab.calls && w.tab.calls[id] == Waiting
    ensures var c := w.server.calls[call];
      var after := Run(w, [Reply, Finish, Resume(id)]).tab;
      id in after.calls &&
      if c.phase.result.Success?
      then after.calls[id] == Retried && after.held == Some(Token(c.sid, c.phase.result.version)) && after.access.Some?
      else after.calls[id] == SignedOut && after.held.None? && after.access.None?
  {
    var replied := Next(w, Reply);
    var told := Next(replied, Finish);
    assert Run(w, [Reply, Finish, Resume(id)]) == Next(told, Resume(id)) by {
      RunOfThree(w, Reply, Finish, Resume(id));
    }
    assert id in replied.tab.calls && replied.tab.calls[id] == Waiting;
    assert id in told.tab.calls && told.tab.calls[id] == Told(w.server.calls[call].phase.result.Success?);
  }

  /** The same for the socket. */
  lemma WaitingSocketGets(w: World, call: nat)
    requires w.tab.flight == AtServer(call) && call in w.server.calls && w.server.calls[call].phase.Answered?
    requires w.tab.socket.wait == WaitingToo
    ensures var c := w.server.calls[call];
      var after := Run(w, [Reply, Finish, ResumeSocket]).tab;
      && after.socket.wait == NotWaiting && after.socket.attempted == w.tab.socket.attempted
      && if c.phase.result.Success?
         then after.held == Some(Token(c.sid, c.phase.result.version)) && after.access.Some?
         else after.held.None? && after.access.None?
  {
    var replied := Next(w, Reply);
    var told := Next(replied, Finish);
    assert Run(w, [Reply, Finish, ResumeSocket]) == Next(told, ResumeSocket) by {
      RunOfThree(w, Reply, Finish, ResumeSocket);
    }
    assert told.tab.socket.wait == ToldToo(w.server.calls[call].phase.result.Success?);
  }

  /** Asking is not forgotten: a refused call or socket waits on a refresh, which starts with the
      token held if none is under way; and a socket that was up again may ask again. */
  lemma RefusalAsks(w: World, id: nat)
    ensures var up := Next(Next(w, SocketUp), SocketError).tab;
      && up.socket == Socket(true, WaitingToo)
      && (w.tab.flight == Idle ==>
            up.flight == if w.tab.held.Some? then Sent(w.tab.held.value) else Settled(false))
      && (w.tab.flight != Idle ==> up.flight == w.tab.flight)
    ensures id in w.tab.calls && w.tab.calls[id].Sending? ==>
      var after := Next(w, Unauthorized(id)).tab;
      && id in after.calls && (after.calls[id] == Waiting || after.calls[id] == Retried)
      && (after.calls[id] == Waiting <==> w.tab.access.None? || w.tab.access == w.tab.calls[id].sentWith)
      && after.flight ==
         if after.calls[id] == Waiting && w.tab.flight == Idle
         then if w.tab.held.Some? then Sent(w.tab.held.value) else Settled(false)
         else w.tab.flight
  {}

  lemma RunOfThree(w: World, a: Step, b: Step, c: Step)
    ensures Run(w, [a, b, c]) == Next(Next(Next(w, a), b), c)
  {
    hide Next;
    assert [a, b, c][1..] == [b, c] && [b, c][1..] == [c] && [c][1..] == [];
    assert Run(w, [a, b, c]) == Run(Next(w, a), [b, c]) == Run(Next(Next(w, a), b), [c]);
  }

  lemma {:induction false} RunThenStep(w: World, steps: seq<Step>, last: Step)
    ensures Run(w, steps + [last]) == Next(Run(w, steps), last)
    decreases |steps|
  {
    hide Next;
    if steps == [] {
      assert [last][1..] == [];
    } else {
      assert (steps + [last])[1..] == steps[1..] + [last];
      RunThenStep(Next(w, steps[0]), steps[1..], last);
    }
  }

  /** Where a run from the start stands before its step `j`. */
  function At(steps: seq<Step>, j: nat): World
    requires j <= |steps|
  {
    Run(Initial(), steps[..j])
  }

  /** A step that concludes a refresh: the server's answer, a success storing its pair; or
      asking for one without a token. */
  predicate Concludes(w: World, step: Step, ok: bool) {
    && !w.tab.flight.Settled? && Next(w, step).tab.flight == Settled(ok)
    && (ok ==> step.Reply?)
    && (step.Reply? ==>
          && w.tab.flight.AtServer? && w.tab.flight.call in w.server.calls
          && var c := w.server.calls[w.tab.flight.call];
          && c.phase.Answered? && ok == c.phase.result.Success?
          && (ok ==> Next(w, step).tab.held == Some(Token(c.sid, c.phase.result.version))))
    && (!step.Reply? ==> w.tab.held.None?)
  }

  /** Step `k` concluded the refresh that is still settled before step `m`. */
  ghost predicate SettledSince(steps: seq<Step>, k: nat, m: nat, ok: bool) {
    && k < m <= |steps| && Concludes(At(steps, k), steps[k], ok)
    && forall j :: k < j <= m ==> At(steps, j).tab.flight == Settled(ok)
  }

  /** The call, or the socket, was waiting when step `m` told everyone how that refresh ended. */
  ghost predicate CallHeard(steps: seq<Step>, id: nat, k: nat, m: nat, ok: bool) {
    && m < |steps| && steps[m] == Finish && SettledSince(steps, k, m, ok)
    && id in At(steps, m).tab.calls && At(steps, m).tab.calls[id] == Waiting
  }

  ghost predicate SocketHeard(steps: seq<Step>, k: nat, m: nat, ok: bool) {
    && m < |steps| && steps[m] == Finish && SettledSince(steps, k, m, ok)
    && At(steps, m).tab.socket.wait == WaitingToo
  }

  lemma AtBefore(steps: seq<Step>, last: Step, j: nat)
    requires j <= |steps|
    ensures At(steps + [last], j) == At(steps, j)
    ensures At(steps + [last], |steps| + 1) == Next(At(steps, |steps|), last)
    ensures At(steps, |steps|) == Run(Initial(), steps)
    ensures Run(Initial(), steps + [last]) == At(steps + [last], |steps| + 1)
  {
    hide Next, Run;
    assert (steps + [last])[..j] == steps[..j];
    assert (steps + [last])[..|steps| + 1] == steps + [last] && steps[..|steps|] == steps;
    RunThenStep(Initial(), steps, last);
  }

  lemma SettledStays(steps: seq<Step>, last: Step, k: nat, m: nat, ok: bool)
    requires SettledSince(steps, k, m, ok)
    ensures SettledSince(steps + [last], k, m, ok)
  {
    hide Next, At, Concludes;
    forall j: nat | j <= |steps| ensures At(steps + [last], j) == At(steps, j) { AtBefore(steps, last, j); }
  }

  /** Only a conclusion settles a refresh, and only its clearing unsettles it. */
  lemma SettlesByConclusion(w: World, step: Step, ok: bool)
    requires Next(w, step).tab.flight == Settled(ok)
    ensures w.tab.flight == Settled(ok) || Concludes(w, step, ok)
  {
    hide S.Next, S.Beginning, S.Created;
  }

  lemma {:induction false} SettledByConclusion(steps: seq<Step>, ok: bool) returns (k: nat)
    requires Run(Initial(), steps).tab.flight == Settled(ok)
    ensures SettledSince(steps, k, |steps|, ok)
    decreases |steps|
  {
    hide Next, At, Concludes;
    if steps == [] {
      assert false;
    } else {
      var front, last := steps[..|steps| - 1], steps[|steps| - 1];
      assert front + [last] == steps;
      AtBefore(front, last, |front|);
      SettlesByConclusion(At(front, |front|), last, ok);
      if At(front, |front|).tab.flight == Settled(ok) {
        k := SettledByConclusion(front, ok);
        SettledStays(front, last, k, |front|, ok);
      } else {
        k := |front|;
      }
      assert At(steps, |steps|).tab.flight == Settled(ok);
    }
  }

  /** A call is told only by the clearing of a settled refresh, while it waits. */
  lemma ToldByFinish(w: World, step: Step, id: nat, ok: bool)
    requires var after := Next(w, step).tab; id in after.calls && after.calls[id] == Told(ok)
    ensures id in w.tab.calls
    ensures w.tab.calls[id] == Told(ok) || (w.tab.calls[id] == Waiting && step == Finish && w.tab.flight == Settled(ok))
  {
    hide S.Next, S.Beginning, S.Created;
  }

  lemma SocketToldByFinish(w: World, step: Step, ok: bool)
    requires Next(w, step).tab.socket.wait == ToldToo(ok)
    ensures w.tab.socket.wait == ToldToo(ok)
      || (w.tab.socket.wait == WaitingToo && step == Finish && w.tab.flight == Settled(ok))
  {
    hide S.Next, S.Beginning, S.Created, Tell;
  }

  /** What a call is told is how the refresh it waited for ended. */
  lemma {:induction false} CallHearsTheOutcome(steps: seq<Step>, id: nat, ok: bool) returns (k: nat, m: nat)
    requires var tab := Run(Initial(), steps).tab; id in tab.calls && tab.calls[id] == Told(ok)
    ensures CallHeard(steps, id, k, m, ok)
    decreases |steps|
  {
    hide Next, At, Concludes;
    if steps == [] {
      assert false;
    } else {
      var front, last := steps[..|steps| - 1], steps[|steps| - 1];
      assert front + [last] == steps;
      AtBefore(front, last, |front|);
      ToldByFinish(At(front, |front|), last, id, ok);
      if At(front, |front|).tab.calls[id] == Told(ok) {
        k, m := CallHearsTheOutcome(front, id, ok);
        AtBefore(front, last, m);
      } else {
        m := |front|;
        k := SettledByConclusion(front, ok);
      }
      SettledStays(front, last, k, m, ok);
    }
  }

  lemma {:induction false} SocketHearsTheOutcome(steps: seq<Step>, ok: bool) returns (k: nat, m: nat)
    requires Run(Initial(), steps).tab.socket.wait == ToldToo(ok)
    ensures SocketHeard(steps, k, m, ok)
    decreases |steps|
  {
    hide Next, At, Concludes;
    if steps == [] {
      assert false;
    } else {
      var front, last := steps[..|steps| - 1], steps[|steps| - 1];
      assert front + [last] == steps;
      AtBefore(front, last, |front|);
      SocketToldByFinish(At(front, |front|), last, ok);
      if At(front, |front|).tab.socket.wait == ToldToo(ok) {
        k, m := SocketHearsTheOutcome(front, ok);
        AtBefore(front, last, m);
      } else {
        m := |front|;
        k := SettledByConclusion(front, ok);
      }
      SettledStays(front, last, k, m, ok);
    }
  }

  /** In any interleaving the tokens are dropped only by a logout, or by a call or the socket
      that had waited for a refresh which did not succeed. */
  lemma DroppedOnlyAfterRefusal(steps: seq<Step>, step: Step)
    requires var w := Run(Initial(), steps); w.tab.held.Some? && Next(w, step).tab.held.None?
    ensures step == LogOut
      || (step.Resume? && exists k: nat, m: nat :: CallHeard(steps, step.id, k, m, false))
      || (step.ResumeSocket? && exists k: nat, m: nat :: SocketHeard(steps, k, m, false))
  {
    hide S.Next, S.Beginning, S.Created, CallHeard, SocketHeard, Run;
    var tab := Run(Initial(), steps).tab;
    if step.Resume? && step.id in tab.calls && tab.calls[step.id] == Told(false) {
      var k, m := CallHearsTheOutcome(steps, step.id, false);
    } else if step.ResumeSocket? && tab.socket.wait == ToldToo(false) {
      var k, m := SocketHearsTheOutcome(steps, false);
    }
  }

  /** And a call is replayed only when the access token changed while it was on its way, or
      after a refresh it had waited for and that stored a new pair; it is signed out only
      after one that did not succeed. */
  lemma RetriedOnlyAfterSuccess(steps: seq<Step>, step: Step, id: nat)
    requires var tab := Run(Initial(), steps).tab;
      id in tab.calls && !tab.calls[id].Retried? && !tab.calls[id].SignedOut?
    ensures var tab, after := Run(Initial(), steps).tab, Next(Run(Initial(), steps), step).tab;
      && id in after.calls
      && (after.calls[id].Retried? ==>
            || (tab.calls[id].Sending? && tab.access.Some? && tab.access != tab.calls[id].sentWith)
            || exists k: nat, m: nat :: CallHeard(steps, id, k, m, true))
      && (after.calls[id].SignedOut? ==> exists k: nat, m: nat :: CallHeard(steps, id, k, m, false))
  {
    hide S.Next, S.Beginning, S.Created, CallHeard, Run;
    var tab := Run(Initial(), steps).tab;
    if tab.calls[id].Told? {
      var k, m := CallHearsTheOutcome(steps, id, tab.calls[id].ok);
    }
  }

  // --------------------------------------------------------------------- a burst

  /** The store holds both tokens or neither, and access tokens are numbered in order. */
  ghost predicate PairHolds(tab: Tab) {
    && (tab.held.None? <==> tab.access.None?)
    && (tab.access.Some? ==> tab.access.value < tab.next)
  }

  lemma {:induction false} PairsStay(w: World, steps: seq<Step>)
    requires PairHolds(w.tab)
    ensures PairHolds(Run(w, steps).tab)
    decreases |steps|
  {
    hide S.Next, S.Beginning, S.Created, Tell;
    if steps != [] { PairsStay(Next(w, steps[0]), steps[1..]); }
  }

  /** No new call or login: what is in flight plays itself out, socket refusals included. */
  predicate IsBurst(step: Step) { !step.Call? && !step.LogIn? }

  /** The socket asks for a refresh only on the first refusal since it last connected. */
  function Asks(w: World, steps: seq<Step>): nat
    decreases |steps|
  {
    if steps == [] then 0
    else (if steps[0].SocketError? && !w.tab.socket.attempted then 1 else 0) + Asks(Next(w, steps[0]), steps[1..])
  }

  ghost predicate SentWith(tab: Tab, access: Option<nat>) {
    forall id :: id in tab.calls && tab.calls[id].Sending? ==> tab.calls[id].sentWith == access
  }

  /** A refresh that may still store a pair. */
  function Pending(tab: Tab): nat { if tab.flight.Sent? || tab.flight.AtServer? then 1 else 0 }

  /** Pairs stored since `next` was `n`, and one that may still come, never exceed one for
      all the calls and one for each time the socket asked. */
  ghost predicate BurstHolds(tab: Tab, access: Option<nat>, n: nat, asked: nat) {
    && PairHolds(tab) && SentWith(tab, access) && (access.Some? ==> access.value < n)
    && (tab.next == n ==> tab.access.None? || tab.access == access)
    && (tab.next > n ==> tab.access.None? || tab.access.value >= n)
    && n <= tab.next && tab.next + Pending(tab) <= n + 1 + asked
  }

  lemma BurstStep(w: World, step: Step, access: Option<nat>, n: nat, asked: nat)
    requires BurstHolds(w.tab, access, n, asked) && IsBurst(step)
    ensures BurstHolds(Next(w, step).tab, access, n,
      asked + if step.SocketError? && !w.tab.socket.attempted then 1 else 0)
  {
    hide S.Next, S.Beginning, S.Created;
  }

  lemma {:induction false} BurstStays(w: World, steps: seq<Step>, access: Option<nat>, n: nat, asked: nat)
    requires BurstHolds(w.tab, access, n, asked) && forall step :: step in steps ==> IsBurst(step)
    ensures Run(w, steps).tab.next <= n + 1 + asked + Asks(w, steps)
    decreases |steps|
  {
    if steps != [] {
      var more := if steps[0].SocketError? && !w.tab.socket.attempted then 1 else 0;
      BurstStep(w, steps[0], access, n, asked);
      hide BurstHolds, Next;
      BurstStays(Next(w, steps[0]), steps[1..], access, n, asked + more);
    }
  }

  /** However many calls sent with one access token come back with a 401, in whatever order
      and around whatever the server does, the tab rotates its tokens at most once for all
      of them, and once more for each time a refused socket asks for it. */
  lemma BurstRotatesOnce(before: seq<Step>, burst: seq<Step>)
    requires SentWith(Run(Initial(), before).tab, Run(Initial(), before).tab.access)
    requires forall step :: step in burst ==> IsBurst(step)
    ensures var w := Run(Initial(), before); Run(w, burst).tab.next <= w.tab.next + 1 + Asks(w, burst)
  {
    hide Run;
    PairsStay(Initial(), before);
    var w := Run(Initial(), before);
    BurstStays(w, burst, w.tab.access, w.tab.next, 0);
  }

  // --------------------------------------------------------------------- the tab

  /** The module variables and the auth store of the tab, updated by its callbacks. */
  class BrowserTab {
    var held: Option<Token>
    var access: Option<nat>
    var next: nat
    var refreshInFlight: Flight
    var calls: map<nat, ApiCall>
    var socket: Socket

    ghost function Snapshot(): Tab
      reads this
    {
      Tab(held, access, next, refreshInFlight, calls, socket)
    }

    constructor ()
      ensures Snapshot() == Initial().tab
    {
      held, access, next, refreshInFlight, calls, socket := None, None, 0, Idle, map[], Socket(false, NotWaiting);
    }

    method SetTokens(token: Token)
      modifies this
      ensures Snapshot() == Stored(old(Snapshot()), token)
    {
      held, access, next := Some(token), Some(next), next + 1;
    }

    method ClearSession()
      modifies this
      ensures Snapshot() == Cleared(old(Snapshot()))
    {
      held, access := None, None;
    }

    method RefreshSession()
      modifies this
      ensures Snapshot() == Joined(old(Snapshot()))
    {
      if refreshInFlight == Idle {
        refreshInFlight := if held.None? then Settled(false) else Sent(held.value);
      }
    }

    method OnUnauthorized(id: nat)
      modifies this
      ensures Snapshot() == Refused(old(Snapshot()), id)
    {
      if id !in calls || !calls[id].Sending? { return; }
      var alreadyRefreshed := access.Some? && access != calls[id].sentWith;
      if alreadyRefreshed {
        calls := calls[id := Retried];
      } else {
        calls := calls[id := Waiting];
        RefreshSession();
      }
    }

    method OnConnectError()
      modifies this
      ensures Snapshot() == SocketRefused(old(Snapshot()))
    {
      if socket.attempted { return; }
      socket := Socket(true, WaitingToo);
      RefreshSession();
    }

    method OnReply(sid: nat, result: S.Result)
      modifies this
      ensures Snapshot() == Replied(old(Snapshot()), sid, result)
    {
      if result.Success? {
        SetTokens(Token(sid, result.version));
        refreshInFlight := Settled(true);
      } else {
        refreshInFlight := Settled(false);
      }
    }

    method Settle()
      modifies this
      ensures Snapshot() == Finished(old(Snapshot()))
    {
      if !refreshInFlight.Settled? { return; }
      var ok := refreshInFlight.ok;
      refreshInFlight := Idle;
      calls := map id | id in calls :: Tell(calls[id], ok);
      if socket.wait == WaitingToo { socket := socket.(wait := ToldToo(ok)); }
    }

    method Continue(id: nat)
      modifies this
      ensures Snapshot() == Resumed(old(Snapshot()), id)
    {
      if id !in calls || !calls[id].Told? { return; }
      if calls[id].ok {
        calls := calls[id := Retried];
      } else {
        calls := calls[id := SignedOut];
        ClearSession();
      }
    }
  }
}

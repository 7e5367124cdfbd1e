/** The fixed-window limiter and the one-time codes it protects: rate-limit.service.ts and
    otp.service.ts. Times are whole seconds; a key is gone once its expiry is reached.
    Hashes are taken to be faithful, so a stored hash stands for its code. */
module OneTimeCodes {
  import opened Options

  function Min(a: nat, b: nat): nat { if a <= b then a else b }

  // ------------------------------------------------------------------ the limiter

  datatype Counter = Counter(count: nat, expiresAt: nat)
  datatype Verdict = Verdict(allowed: bool, remaining: nat, retryAfter: nat)

  /** The counter as Redis shows it at a moment. */
  function Alive(counter: Option<Counter>, now: nat): Option<Counter> {
    if counter.Some? && counter.value.expiresAt > now then counter else None
  }

  /** INCR, and EXPIRE on the first hit of a window. */
  function Consumed(counter: Option<Counter>, window: nat, now: nat): (consumed: Counter)
    ensures window > 0 ==> consumed.expiresAt > now
  {
    var alive := Alive(counter, now);
    if alive.None? then Counter(1, now + window) else Counter(alive.value.count + 1, alive.value.expiresAt)
  }

  predicate IsAllowed(counter: Option<Counter>, limit: nat, window: nat, now: nat) {
    Consumed(counter, window, now).count <= limit
  }

  function AfterAll(counter: Option<Counter>, window: nat, times: seq<nat>): Option<Counter> {
    if times == [] then counter
    else Some(Consumed(AfterAll(counter, window, times[..|times| - 1]), window, times[|times| - 1]))
  }

  /** How many of the calls at these times are allowed. */
  function Allowed(counter: Option<Counter>, limit: nat, window: nat, times: seq<nat>): nat {
    if times == [] then 0
    else
      var front := times[..|times| - 1];
      Allowed(counter, limit, window, front)
        + (if IsAllowed(AfterAll(counter, window, front), limit, window, times[|times| - 1]) then 1 else 0)
  }

  ghost predicate Ascending(times: seq<nat>, start: nat) {
    && (forall i :: 0 <= i < |times| ==> times[i] >= start)
    && (forall i, j :: 0 <= i < j < |times| ==> times[i] <= times[j])
  }

  /** Within one window exactly the first `limit` calls pass. */
  lemma {:induction false} WindowIsExact(limit: nat, window: nat, start: nat, times: seq<nat>)
    requires Ascending(times, start) && forall i :: 0 <= i < |times| ==> times[i] < start + window
    requires times != [] ==> times[0] == start
    ensures Allowed(None, limit, window, times) == Min(|times|, limit)
    ensures AfterAll(None, window, times) == if times == [] then None else Some(Counter(|times|, start + window))
  {
    if times != [] {
      var front := times[..|times| - 1];
      WindowIsExact(limit, window, start, front);
    }
  }

  // ------------------------------------------------- stretches across an edge

  /** All calls fall in the `window` seconds from `start` on. */
  ghost predicate Within(times: seq<nat>, start: nat, window: nat) {
    forall i :: 0 <= i < |times| ==> start <= times[i] < start + window
  }

  /** A counter as earlier calls leave it: it counted the call that opened its window. */
  ghost predicate IsLeft(counter: Option<Counter>, window: nat, start: nat) {
    counter.Some? ==> counter.value.count >= 1 && counter.value.expiresAt <= start + window
  }

  lemma {:induction false} EarlierCallsLeave(window: nat, start: nat, earlier: seq<nat>)
    requires forall i :: 0 <= i < |earlier| ==> earlier[i] <= start
    ensures IsLeft(AfterAll(None, window, earlier), window, start)
  {
    if earlier != [] { EarlierCallsLeave(window, start, earlier[..|earlier| - 1]); }
  }

  /** How many calls the counter alive at `now` has counted. */
  function Counted(counter: Option<Counter>, now: nat): nat {
    if Alive(counter, now).Some? then counter.value.count else 0
  }

  /** The window open at `start` lapses inside the stretch with allowance left. */
  predicate Spills(counter: Option<Counter>, limit: nat, window: nat, start: nat) {
    Alive(counter, start).Some? && counter.value.count < limit && counter.value.expiresAt < start + window
  }

  /** The calls of a stretch before the old window lapses share what is left of its
      allowance; the others fall in one new window that outlasts the stretch. */
  lemma {:induction false} StretchAllows(counter: Option<Counter>, limit: nat, window: nat, start: nat, times: seq<nat>)
    requires Within(times, start, window) && IsLeft(counter, window, start)
    ensures var after, allowed := AfterAll(counter, window, times), Allowed(counter, limit, window, times);
      var spent := Min(Counted(counter, start), limit);
      || (times == [] && after == counter && allowed == 0)
      || (&& Alive(counter, start).Some? && after.Some? && after.value.expiresAt == counter.value.expiresAt
          && allowed + spent <= Min(after.value.count, limit))
      || (&& after.Some? && after.value.expiresAt >= start + window
          && (Alive(counter, start).Some? ==> counter.value.expiresAt < start + window)
          && allowed <= Min(after.value.count, limit) + (if Alive(counter, start).Some? then limit - spent else 0))
  {
    if times != [] {
      StretchAllows(counter, limit, window, start, times[..|times| - 1]);
    }
  }

  /** Whatever calls came before, a stretch no longer than a window sees at most
      2 * limit - 1 allowed calls, and at most `limit` unless an open window spills into it. */
  lemma StretchIsBounded(limit: nat, window: nat, start: nat, earlier: seq<nat>, times: seq<nat>)
    requires (forall i :: 0 <= i < |earlier| ==> earlier[i] <= start) && Within(times, start, window)
    ensures var left := AfterAll(None, window, earlier);
      && Allowed(left, limit, window, times) <= (if limit == 0 then 0 else 2 * limit - 1)
      && (!Spills(left, limit, window, start) ==> Allowed(left, limit, window, times) <= limit)
  {
    EarlierCallsLeave(window, start, earlier);
    StretchAllows(AfterAll(None, window, earlier), limit, window, start, times);
  }

  function Repeat(t: nat, n: nat): seq<nat> { seq(n, _ => t) }

  lemma {:induction false} RepeatAllows(counter: Option<Counter>, limit: nat, window: nat, t: nat, n: nat)
    requires window > 0
    ensures var counted := Counted(counter, t);
      && Allowed(counter, limit, window, Repeat(t, n)) + Min(counted, limit) == Min(counted + n, limit)
      && AfterAll(counter, window, Repeat(t, n)) ==
         (if n == 0 then counter
          else Some(Counter(counted + n, if Alive(counter, t).Some? then counter.value.expiresAt else t + window)))
  {
    if n > 0 {
      assert Repeat(t, n)[..n - 1] == Repeat(t, n - 1);
      RepeatAllows(counter, limit, window, t, n - 1);
    }
  }

  lemma {:induction false} AllowedInTwo(counter: Option<Counter>, limit: nat, window: nat, a: seq<nat>, b: seq<nat>)
    ensures AfterAll(counter, window, a + b) == AfterAll(AfterAll(counter, window, a), window, b)
    ensures Allowed(counter, limit, window, a + b)
      == Allowed(counter, limit, window, a) + Allowed(AfterAll(counter, window, a), limit, window, b)
  {
    if b == [] {
      assert a + b == a;
    } else {
      assert (a + b)[..|a + b| - 1] == a + b[..|b| - 1];
      AllowedInTwo(counter, limit, window, a, b[..|b| - 1]);
    }
  }

  /** The fullest stretch: what is left of the old window at once, then a whole new one. */
  function SpillTimes(counter: Counter, limit: nat, start: nat): seq<nat>
    requires counter.count <= limit
  {
    Repeat(start, limit - counter.count) + Repeat(counter.expiresAt, limit)
  }

  lemma SpillAllows(counter: Counter, limit: nat, window: nat, start: nat)
    requires counter.count <= limit && start < counter.expiresAt < start + window
    ensures Within(SpillTimes(counter, limit, start), start, window)
    ensures Allowed(Some(counter), limit, window, SpillTimes(counter, limit, start)) == 2 * limit - counter.count
  {
    hide AfterAll, Allowed;
    var rest := limit - counter.count;
    RepeatAllows(Some(counter), limit, window, start, rest);
    var after := AfterAll(Some(counter), window, Repeat(start, rest));
    RepeatAllows(after, limit, window, counter.expiresAt, limit);
    AllowedInTwo(Some(counter), limit, window, Repeat(start, rest), Repeat(counter.expiresAt, limit));
  }

  /** Exactly when a stretch is safe: none of its call patterns gets more than `limit`
      through if and only if no open window spills into it. */
  lemma OneLimitExactly(limit: nat, window: nat, start: nat, earlier: seq<nat>)
    requires forall i :: 0 <= i < |earlier| ==> earlier[i] <= start
    ensures var left := AfterAll(None, window, earlier);
      (forall times :: Within(times, start, window) ==> Allowed(left, limit, window, times) <= limit)
      <==> !Spills(left, limit, window, start)
  {
    hide Allowed, Within;
    var left := AfterAll(None, window, earlier);
    EarlierCallsLeave(window, start, earlier);
    if Spills(left, limit, window, start) {
      SpillAllows(left.value, limit, window, start);
      assert Within(SpillTimes(left.value, limit, start), start, window);
    } else {
      forall times | Within(times, start, window) ensures Allowed(left, limit, window, times) <= limit {
        StretchIsBounded(limit, window, start, earlier, times);
      }
    }
  }

  /** The bound is reached for every limit: one call opens a window at 0, the rest of its
      allowance goes a second later, and the whole next one when it lapses. */
  lemma BoundIsReached(limit: nat, window: nat)
    requires limit >= 1 && window >= 2
    ensures AfterAll(None, window, [0]) == Some(Counter(1, window))
    ensures Within(SpillTimes(Counter(1, window), limit, 1), 1, window)
    ensures Allowed(AfterAll(None, window, [0]), limit, window, SpillTimes(Counter(1, window), limit, 1)) ==
      2 * limit - 1
  {
    assert [0][..0] == [];
    SpillAllows(Counter(1, window), limit, window, 1);
  }

  // -------------------------------------------------------------------- the codes

  datatype Settings = Settings(ttl: nat, cooldown: nat, maxPerHour: nat, maxAttempts: nat)

  datatype Code = Code(code: nat, attempts: nat, expiresAt: nat)

  /** What Redis holds for one subject. */
  datatype Record = Record(counter: Option<Counter>, code: Option<Code>, cooldownUntil: nat)

  /** Each answer to a request for a code carries the seconds to wait before the next. */
  datatype Issue = Issued(code: nat, retryAfter: nat) | OnCooldown(retryAfter: nat) | RateLimited(retryAfter: nat)
  datatype Check = Valid | NotFound | Mismatch | TooManyAttempts

  const HOUR: nat := 3600

  function IssueCode(r: Record, o: Settings, code: nat, now: nat): (Record, Issue) {
    if r.cooldownUntil > now then (r, OnCooldown(r.cooldownUntil - now))
    else
      var counter := Consumed(r.counter, HOUR, now);
      var consumed := r.(counter := Some(counter));
      if !IsAllowed(r.counter, o.maxPerHour, HOUR, now) then (consumed, RateLimited(counter.expiresAt - now))
      else
        (consumed.(code := Some(Code(code, 0, now + o.ttl)), cooldownUntil := now + o.cooldown),
         Issued(code, o.cooldown))
  }

  function Present(r: Record, now: nat): Option<Code> {
    if r.code.Some? && r.code.value.expiresAt > now then r.code else None
  }

  function VerifyCode(r: Record, o: Settings, candidate: nat, now: nat): (Record, Check) {
    var present := Present(r, now);
    if present.None? then (r, NotFound)
    else
      var stored := present.value;
      if stored.attempts >= o.maxAttempts then (r.(code := None), TooManyAttempts)
      else if candidate == stored.code then (r.(code := None), Valid)
      else if stored.attempts + 1 >= o.maxAttempts then (r.(code := None), TooManyAttempts)
      else (r.(code := Some(stored.(attempts := stored.attempts + 1))), Mismatch)
  }

  datatype Step = DoIssue(code: nat, now: nat) | DoVerify(candidate: nat, now: nat)

  function Next(r: Record, o: Settings, step: Step): Record {
    match step
    case DoIssue(code, now) => IssueCode(r, o, code, now).0
    case DoVerify(candidate, now) => VerifyCode(r, o, candidate, now).0
  }

  function Run(r: Record, o: Settings, steps: seq<Step>): Record {
    if steps == [] then r else Next(Run(r, o, steps[..|steps| - 1]), o, steps[|steps| - 1])
  }

  predicate Issues(r: Record, o: Settings, step: Step) {
    step.DoIssue? && IssueCode(r, o, step.code, step.now).1.Issued?
  }

  predicate Accepts(r: Record, o: Settings, step: Step) {
    step.DoVerify? && VerifyCode(r, o, step.candidate, step.now).1 == Valid
  }

  /** A verification that really compares a candidate with the stored code. */
  predicate Guesses(r: Record, o: Settings, step: Step) {
    step.DoVerify? && Present(r, step.now).Some? && Present(r, step.now).value.attempts < o.maxAttempts
  }

  datatype Tally = Tally(issued: nat, accepted: nat, guessed: nat)

  function Count(r: Record, o: Settings, steps: seq<Step>): Tally {
    if steps == [] then Tally(0, 0, 0)
    else
      var before, last := Run(r, o, steps[..|steps| - 1]), steps[|steps| - 1];
      var t := Count(r, o, steps[..|steps| - 1]);
      Tally(
        t.issued + (if Issues(before, o, last) then 1 else 0),
        t.accepted + (if Accepts(before, o, last) then 1 else 0),
        t.guessed + (if Guesses(before, o, last) then 1 else 0))
  }

  /** How many guesses the stored code still allows. */
  function GuessesLeft(r: Record, o: Settings): nat {
    if r.code.Some? && r.code.value.attempts < o.maxAttempts then o.maxAttempts - r.code.value.attempts else 0
  }

  function CodesLeft(r: Record): nat { if r.code.Some? then 1 else 0 }

  lemma StepSpends(r: Record, o: Settings, step: Step)
    ensures var t := Next(r, o, step);
      && (if Issues(r, o, step) then GuessesLeft(t, o) <= o.maxAttempts && CodesLeft(t) == 1
          else
            && GuessesLeft(t, o) + (if Guesses(r, o, step) then 1 else 0) <= GuessesLeft(r, o)
            && CodesLeft(t) + (if Accepts(r, o, step) then 1 else 0) <= CodesLeft(r))
      && (Issues(r, o, step) ==> !Guesses(r, o, step) && !Accepts(r, o, step))
  {}

  /** Every issued code is accepted at most once and guessed at most maxAttempts times. */
  lemma {:induction false} CodesAreSpent(r: Record, o: Settings, steps: seq<Step>)
    ensures Count(r, o, steps).accepted + CodesLeft(Run(r, o, steps)) <= CodesLeft(r) + Count(r, o, steps).issued
    ensures Count(r, o, steps).guessed + GuessesLeft(Run(r, o, steps), o)
      <= GuessesLeft(r, o) + Count(r, o, steps).issued * o.maxAttempts
  {
    hide Next, Issues, Accepts, Guesses, GuessesLeft, CodesLeft;
    if steps != [] {
      var front, last := steps[..|steps| - 1], steps[|steps| - 1];
      CodesAreSpent(r, o, front);
      StepSpends(Run(r, o, front), o, last);
      var before := Count(r, o, front).issued;
      assert (before + 1) * o.maxAttempts == before * o.maxAttempts + o.maxAttempts;
    }
  }

  // -------------------------------------------------------- how fast one can guess

  /** The moments at which a run's requests for a code got past the cooldown. */
  function Attempts(r: Record, o: Settings, steps: seq<Step>): seq<nat> {
    if steps == [] then []
    else
      var front, last := steps[..|steps| - 1], steps[|steps| - 1];
      Attempts(r, o, front) + (if last.DoIssue? && Run(r, o, front).cooldownUntil <= last.now then [last.now] else [])
  }

  /** The codes issued are exactly the attempts the hourly limiter allows. */
  lemma {:induction false} IssuesAreAllowed(r: Record, o: Settings, steps: seq<Step>)
    ensures Run(r, o, steps).counter == AfterAll(r.counter, HOUR, Attempts(r, o, steps))
    ensures Count(r, o, steps).issued == Allowed(r.counter, o.maxPerHour, HOUR, Attempts(r, o, steps))
  {
    if steps != [] {
      var front, last := steps[..|steps| - 1], steps[|steps| - 1];
      IssuesAreAllowed(r, o, front);
      var attempts := Attempts(r, o, steps);
      assert attempts == Attempts(r, o, front) || attempts[..|attempts| - 1] == Attempts(r, o, front);
    }
  }

  ghost predicate Between(steps: seq<Step>, first: nat, until: nat) {
    forall i :: 0 <= i < |steps| ==> first <= steps[i].now < until
  }

  lemma {:induction false} AttemptsBetween(r: Record, o: Settings, steps: seq<Step>, first: nat, until: nat)
    requires Between(steps, first, until)
    ensures forall i :: 0 <= i < |Attempts(r, o, steps)| ==> first <= Attempts(r, o, steps)[i] < until
  {
    hide Run;
    if steps != [] {
      assert forall i :: 0 <= i < |steps| - 1 ==> steps[..|steps| - 1][i] == steps[i];
      AttemptsBetween(r, o, steps[..|steps| - 1], first, until);
    }
  }

  function Fresh(): Record { Record(None, None, 0) }

  /** Codes in any hour at all: whatever was requested before, at most 2 * maxPerHour - 1,
      and at most maxPerHour when no window of the limiter spills into the hour. */
  lemma IssuingIsBounded(o: Settings, earlier: seq<Step>, steps: seq<Step>, start: nat)
    requires Between(earlier, 0, start + 1) && Between(steps, start, start + HOUR)
    ensures var r := Run(Fresh(), o, earlier);
      && Count(r, o, steps).issued <= (if o.maxPerHour == 0 then 0 else 2 * o.maxPerHour - 1)
      && (!Spills(r.counter, o.maxPerHour, HOUR, start) ==> Count(r, o, steps).issued <= o.maxPerHour)
  {
    hide Run, Count, Allowed, AfterAll, Attempts;
    var r := Run(Fresh(), o, earlier);
    IssuesAreAllowed(Fresh(), o, earlier);
    IssuesAreAllowed(r, o, steps);
    AttemptsBetween(Fresh(), o, earlier, 0, start + 1);
    AttemptsBetween(r, o, steps, start, start + HOUR);
    StretchIsBounded(o.maxPerHour, HOUR, start, Attempts(Fresh(), o, earlier), Attempts(r, o, steps));
  }

  lemma ProductGrows(a: nat, b: nat, factor: nat)
    requires a <= b
    ensures a * factor <= b * factor
  {
    assert (b - a) * factor >= 0;
  }

  /** Brute force is bounded: in any hour, whatever the requests before and in it, the
      candidates compared are those an older code still allowed and at most
      (2 * maxPerHour - 1) * maxAttempts more; maxPerHour * maxAttempts when no window of the
      limiter spills into the hour. */
  lemma GuessingIsBounded(o: Settings, earlier: seq<Step>, steps: seq<Step>, start: nat)
    requires Between(earlier, 0, start + 1) && Between(steps, start, start + HOUR)
    ensures var r := Run(Fresh(), o, earlier);
      var codes := if o.maxPerHour == 0 then 0 else 2 * o.maxPerHour - 1;
      && Count(r, o, steps).guessed <= GuessesLeft(r, o) + codes * o.maxAttempts
      && (!Spills(r.counter, o.maxPerHour, HOUR, start) ==>
          Count(r, o, steps).guessed <= GuessesLeft(r, o) + o.maxPerHour * o.maxAttempts)
  {
    hide Run, Count, GuessesLeft, Spills, Between;
    var r := Run(Fresh(), o, earlier);
    var codes := if o.maxPerHour == 0 then 0 else 2 * o.maxPerHour - 1;
    IssuingIsBounded(o, earlier, steps, start);
    CodesAreSpent(r, o, steps);
    ProductGrows(Count(r, o, steps).issued, codes, o.maxAttempts);
    if !Spills(r.counter, o.maxPerHour, HOUR, start) {
      ProductGrows(Count(r, o, steps).issued, o.maxPerHour, o.maxAttempts);
    }
  }

  // ------------------------------------------ exactly when an hour keeps its cap

  function Max(a: nat, b: nat): nat { if a >= b then a else b }

  /** The earliest moment from `start` on that is past the cooldown. */
  function FirstFree(r: Record, start: nat): nat { Max(start, r.cooldownUntil) }

  /** When the next window's first code can go out after `j` codes in the old one. */
  function NextWindow(r: Record, o: Settings, start: nat, j: nat): nat
    requires r.counter.Some?
  {
    Max(r.counter.value.expiresAt, FirstFree(r, start) + j * o.cooldown)
  }

  /** With `j` codes in the old window, as early as the cooldown lets them, there is time left
      in the hour for one code more than the cap. */
  predicate OneTooMany(r: Record, o: Settings, start: nat, j: nat) {
    && Spills(r.counter, o.maxPerHour, HOUR, start)
    && 1 <= j <= o.maxPerHour - r.counter.value.count
    && FirstFree(r, start) + (j - 1) * o.cooldown < r.counter.value.expiresAt
    && NextWindow(r, o, start, j) + (o.maxPerHour - j) * o.cooldown < start + HOUR
  }

  lemma OneMore(n: nat, factor: nat)
    ensures (n + 1) * factor == n * factor + factor
  {}

  /** Where a run within the hour stands while the old window is open: its codes are at least
      a cooldown apart. */
  ghost predicate InOldWindow(r: Record, o: Settings, start: nat, t: Record, issued: nat) {
    && r.counter.Some? && t.counter.Some?
    && t.counter.value.expiresAt == r.counter.value.expiresAt && t.counter.value.count >= r.counter.value.count + issued
    && issued <= o.maxPerHour - r.counter.value.count
    && (issued == 0 ==> t.cooldownUntil == r.cooldownUntil)
    && (issued > 0 ==> && t.cooldownUntil >= FirstFree(r, start) + issued * o.cooldown
                       && FirstFree(r, start) + (issued - 1) * o.cooldown < r.counter.value.expiresAt)
  }

  /** And once a new one has opened, `j` codes having gone out in the old. */
  ghost predicate InNewWindow(r: Record, o: Settings, start: nat, t: Record, issued: nat, j: nat) {
    && r.counter.Some? && t.counter.Some? && t.counter.value.expiresAt >= start + HOUR
    && j < issued && j <= o.maxPerHour - r.counter.value.count
    && issued - j <= t.counter.value.count && issued - j <= o.maxPerHour
    && (j > 0 ==> FirstFree(r, start) + (j - 1) * o.cooldown < r.counter.value.expiresAt)
    && t.cooldownUntil >= NextWindow(r, o, start, j) + (issued - j) * o.cooldown
    && NextWindow(r, o, start, j) + (issued - j - 1) * o.cooldown < start + HOUR
  }

  lemma OldWindowStep(r: Record, o: Settings, start: nat, t: Record, issued: nat, step: Step) returns (j: nat)
    requires Spills(r.counter, o.maxPerHour, HOUR, start) && start <= step.now < start + HOUR
    requires InOldWindow(r, o, start, t, issued)
    ensures var u, n := Next(t, o, step), issued + if Issues(t, o, step) then 1 else 0;
      InOldWindow(r, o, start, u, n) || InNewWindow(r, o, start, u, n, j)
  {
    j := issued;
    OneMore(issued, o.cooldown);
    OneMore(0, o.cooldown);
    assert 0 * o.cooldown == 0;
    assert step.DoIssue? && t.cooldownUntil <= step.now ==> step.now >= FirstFree(r, start) + j * o.cooldown;
  }

  lemma NewWindowStep(r: Record, o: Settings, start: nat, t: Record, issued: nat, j: nat, step: Step)
    requires Spills(r.counter, o.maxPerHour, HOUR, start) && start <= step.now < start + HOUR
    requires InNewWindow(r, o, start, t, issued, j)
    ensures var u, n := Next(t, o, step), issued + if Issues(t, o, step) then 1 else 0;
      InNewWindow(r, o, start, u, n, j)
  {
    OneMore(issued - j, o.cooldown);
    OneMore(0, o.cooldown);
  }

  lemma {:induction false} WhereARunStands(r: Record, o: Settings, steps: seq<Step>, start: nat) returns (j: nat)
    requires Spills(r.counter, o.maxPerHour, HOUR, start) && Between(steps, start, start + HOUR)
    ensures var t, n := Run(r, o, steps), Count(r, o, steps).issued;
      InOldWindow(r, o, start, t, n) || InNewWindow(r, o, start, t, n, j)
  {
    hide Next, Issues, Spills, InOldWindow, InNewWindow;
    if steps == [] {
      j := 0;
      StandsAtTheStart(r, o, start);
    } else {
      var front, last := steps[..|steps| - 1], steps[|steps| - 1];
      assert forall i :: 0 <= i < |front| ==> front[i] == steps[i];
      j := WhereARunStands(r, o, front, start);
      var t, n := Run(r, o, front), Count(r, o, front).issued;
      if InNewWindow(r, o, start, t, n, j) {
        NewWindowStep(r, o, start, t, n, j, last);
      } else {
        j := OldWindowStep(r, o, start, t, n, last);
      }
    }
  }

  lemma StandsAtTheStart(r: Record, o: Settings, start: nat)
    requires Spills(r.counter, o.maxPerHour, HOUR, start)
    ensures InOldWindow(r, o, start, r, 0)
  {}

  lemma CapHolds(r: Record, o: Settings, steps: seq<Step>, start: nat)
    requires Spills(r.counter, o.maxPerHour, HOUR, start) && Between(steps, start, start + HOUR)
    requires Count(r, o, steps).issued > o.maxPerHour
    ensures exists j: nat :: OneTooMany(r, o, start, j)
  {
    hide Count, Run;
    var j := WhereARunStands(r, o, steps, start);
    var n := Count(r, o, steps).issued;
    ProductGrows(o.maxPerHour - j, n - j - 1, o.cooldown);
    assert OneTooMany(r, o, start, j);
  }

  /** Requests a cooldown apart. */
  function Steady(t: nat, cooldown: nat, n: nat): seq<Step> {
    seq(n, i requires 0 <= i < n => DoIssue(0, t + i * cooldown))
  }

  lemma SteadyNext(t: nat, cooldown: nat, n: nat)
    requires n > 0
    ensures Steady(t, cooldown, n)[..n - 1] == Steady(t, cooldown, n - 1)
    ensures Steady(t, cooldown, n)[n - 1] == DoIssue(0, t + (n - 1) * cooldown)
  {}

  /** They all get a code while their window has allowance and stays open. */
  lemma {:induction false} SteadyIssues(r: Record, o: Settings, t: nat, n: nat)
    requires r.cooldownUntil <= t && Counted(r.counter, t) + n <= o.maxPerHour
    requires n > 0 && Alive(r.counter, t).Some? ==> t + (n - 1) * o.cooldown < r.counter.value.expiresAt
    requires n > 0 && Alive(r.counter, t).None? ==> t + (n - 1) * o.cooldown < t + HOUR
    ensures var steps := Steady(t, o.cooldown, n);
      && Count(r, o, steps).issued == n
      && Run(r, o, steps).cooldownUntil <= t + n * o.cooldown
      && Run(r, o, steps).counter ==
         (if n == 0 then r.counter
          else Some(Counter(Counted(r.counter, t) + n,
                            if Alive(r.counter, t).Some? then r.counter.value.expiresAt else t + HOUR)))
  {
    if n > 0 {
      if n > 1 {
        OneMore(n - 2, o.cooldown);
        assert t + (n - 2) * o.cooldown <= t + (n - 1) * o.cooldown;
      }
      SteadyIssues(r, o, t, n - 1);
      SteadyNext(t, o.cooldown, n);
      OneMore(n - 1, o.cooldown);
    }
  }

  lemma {:induction false} CountInTwo(r: Record, o: Settings, a: seq<Step>, b: seq<Step>)
    ensures Run(r, o, a + b) == Run(Run(r, o, a), o, b)
    ensures Count(r, o, a + b).issued == Count(r, o, a).issued + Count(Run(r, o, a), o, b).issued
  {
    hide Next, Issues, Accepts, Guesses;
    if b == [] {
      assert a + b == a;
    } else {
      assert (a + b)[..|a + b| - 1] == a + b[..|b| - 1];
      CountInTwo(r, o, a, b[..|b| - 1]);
    }
  }

  /** Steps in the order of the clock, within an hour. */
  ghost predicate InHour(steps: seq<Step>, start: nat) {
    Between(steps, start, start + HOUR) && forall i, j :: 0 <= i < j < |steps| ==> steps[i].now <= steps[j].now
  }

  /** The old window's codes as early as possible, then the new window's. */
  function TooMany(r: Record, o: Settings, start: nat, j: nat): seq<Step>
    requires r.counter.Some? && j <= o.maxPerHour
  {
    Steady(FirstFree(r, start), o.cooldown, j) + Steady(NextWindow(r, o, start, j), o.cooldown, o.maxPerHour + 1 - j)
  }

  lemma {:induction false} SteadyIsOrdered(t: nat, cooldown: nat, n: nat)
    ensures forall i :: 0 <= i < n ==>
      t <= Steady(t, cooldown, n)[i].now && (n > 0 ==> Steady(t, cooldown, n)[i].now <= t + (n - 1) * cooldown)
    ensures forall i, j :: 0 <= i < j < n ==> Steady(t, cooldown, n)[i].now <= Steady(t, cooldown, n)[j].now
  {
    var steps := Steady(t, cooldown, n);
    forall i, j | 0 <= i <= j < n ensures steps[i].now <= steps[j].now { ProductGrows(i, j, cooldown); }
    forall i | 0 <= i < n ensures t <= steps[i].now <= t + (n - 1) * cooldown { ProductGrows(i, n - 1, cooldown); }
  }

  lemma TooManyInHour(r: Record, o: Settings, start: nat, j: nat)
    requires OneTooMany(r, o, start, j)
    ensures InHour(TooMany(r, o, start, j), start)
  {
    var t, u, rest := FirstFree(r, start), NextWindow(r, o, start, j), o.maxPerHour + 1 - j;
    SteadyIsOrdered(t, o.cooldown, j);
    SteadyIsOrdered(u, o.cooldown, rest);
    hide Steady, Spills;
    var a, b := Steady(t, o.cooldown, j), Steady(u, o.cooldown, rest);
    SteadyLength(t, o.cooldown, j);
    SteadyLength(u, o.cooldown, rest);
    assert t + (j - 1) * o.cooldown < r.counter.value.expiresAt <= u;
    assert u + (rest - 1) * o.cooldown < start + HOUR;
    var all: seq<Step> := a + b;
    forall i | 0 <= i < |all| ensures start <= all[i].now < start + HOUR {
      if i >= j { assert all[i] == b[i - j]; }
    }
    forall i, k | 0 <= i < k < |all| ensures all[i].now <= all[k].now {
      if i >= j { assert all[i] == b[i - j]; }
      if k >= j { assert all[k] == b[k - j]; }
    }
  }

  lemma SteadyLength(t: nat, cooldown: nat, n: nat)
    ensures |Steady(t, cooldown, n)| == n
  {}

  lemma TooManyAreIssued(r: Record, o: Settings, start: nat, j: nat)
    requires OneTooMany(r, o, start, j) && IsLeft(r.counter, HOUR, start)
    ensures Count(r, o, TooMany(r, o, start, j)).issued == o.maxPerHour + 1
  {
    var t, u, rest := FirstFree(r, start), NextWindow(r, o, start, j), o.maxPerHour + 1 - j;
    OldStillOpen(o.cooldown, t, j, r.counter.value.expiresAt);
    hide Run, Count, Steady;
    SteadyIssues(r, o, t, j);
    SteadyIssues(Run(r, o, Steady(t, o.cooldown, j)), o, u, rest);
    CountInTwo(r, o, Steady(t, o.cooldown, j), Steady(u, o.cooldown, rest));
  }

  lemma OldStillOpen(cooldown: nat, t: nat, j: nat, expiresAt: nat)
    requires j >= 1 && t + (j - 1) * cooldown < expiresAt
    ensures t < expiresAt
  {
    assert (j - 1) * cooldown >= 0;
  }

  /** The cap on codes in an hour, exactly: after any earlier requests, every run of the hour
      from `start` keeps it if and only if no number of codes in the old window leaves time,
      cooldowns included, for one too many. */
  lemma HourlyCapExactly(o: Settings, earlier: seq<Step>, start: nat)
    requires Between(earlier, 0, start + 1)
    ensures var r := Run(Fresh(), o, earlier);
      (forall steps: seq<Step> :: InHour(steps, start) ==> Count(r, o, steps).issued <= o.maxPerHour)
      <==> !exists j: nat :: OneTooMany(r, o, start, j)
  {
    hide Run, Count, OneTooMany, Between, TooMany, Spills;
    var r := Run(Fresh(), o, earlier);
    LeftByRequests(o, earlier, start);
    if j: nat :| OneTooMany(r, o, start, j) {
      OneTooManySpills(r, o, start, j);
      TooManyInHour(r, o, start, j);
      TooManyAreIssued(r, o, start, j);
      assert InHour(TooMany(r, o, start, j), start);
    } else {
      forall steps: seq<Step> | InHour(steps, start) ensures Count(r, o, steps).issued <= o.maxPerHour {
        if Spills(r.counter, o.maxPerHour, HOUR, start) {
          if Count(r, o, steps).issued > o.maxPerHour { CapHolds(r, o, steps, start); }
        } else {
          IssuingIsBounded(o, earlier, steps, start);
        }
      }
    }
  }

  lemma OneTooManySpills(r: Record, o: Settings, start: nat, j: nat)
    requires OneTooMany(r, o, start, j)
    ensures r.counter.Some? && j <= o.maxPerHour
  {}

  lemma LeftByRequests(o: Settings, earlier: seq<Step>, start: nat)
    requires Between(earlier, 0, start + 1)
    ensures IsLeft(Run(Fresh(), o, earlier).counter, HOUR, start)
  {
    hide Run, Count, Attempts, AfterAll;
    IssuesAreAllowed(Fresh(), o, earlier);
    AttemptsBetween(Fresh(), o, earlier, 0, start + 1);
    EarlierCallsLeave(HOUR, start, Attempts(Fresh(), o, earlier));
  }

  /** At the program's own settings, a minute's cooldown and a cap of five: a code at 0, four
      from 3400 on and five from 3640 on put nine into one hour. */
  lemma NineInOneHour(o: Settings)
    requires o.maxPerHour == 5 && o.cooldown == 60
    ensures var r := Run(Fresh(), o, Steady(0, 60, 1));
      var steps := Steady(3400, 60, 4) + Steady(3640, 60, 5);
      InHour(steps, 3400) && Count(r, o, steps).issued == 9
  {
    SteadyIssues(Fresh(), o, 0, 1);
    var r := Run(Fresh(), o, Steady(0, 60, 1));
    SteadyIssues(r, o, 3400, 4);
    SteadyIssues(Run(r, o, Steady(3400, 60, 4)), o, 3640, 5);
    hide Run, Count;
    CountInTwo(r, o, Steady(3400, 60, 4), Steady(3640, 60, 5));
  }

  /** The latest code issued in a run, with its expiry. */
  function LastIssued(r: Record, o: Settings, steps: seq<Step>): Option<(nat, nat)> {
    if steps == [] then if r.code.Some? then Some((r.code.value.code, r.code.value.expiresAt)) else None
    else
      var front, last := steps[..|steps| - 1], steps[|steps| - 1];
      if Issues(Run(r, o, front), o, last) then Some((last.code, last.now + o.ttl)) else LastIssued(r, o, front)
  }

  lemma {:induction false} StoredIsLastIssued(r: Record, o: Settings, steps: seq<Step>)
    ensures var t := Run(r, o, steps);
      t.code.Some? ==> LastIssued(r, o, steps) == Some((t.code.value.code, t.code.value.expiresAt))
  {
    if steps != [] { StoredIsLastIssued(r, o, steps[..|steps| - 1]); }
  }

  /** Only the latest issued code is ever accepted, and only before its expiry: wrong
      attempts do not extend it. */
  lemma OnlyTheLatestIsAccepted(r: Record, o: Settings, steps: seq<Step>, candidate: nat, now: nat)
    requires VerifyCode(Run(r, o, steps), o, candidate, now).1 == Valid
    ensures var latest := LastIssued(r, o, steps); latest.Some? && latest.value.0 == candidate && now < latest.value.1
  {
    StoredIsLastIssued(r, o, steps);
  }

  /** The seconds a request is told to wait are exact: asked again sooner, it is refused for the
      same reason; after the wait, not for that reason. A refusal costs the stored code nothing. */
  lemma WaitIsExact(r: Record, o: Settings, code: nat, now: nat, again: nat, later: nat)
    requires now <= later
    ensures var (after, issue) := IssueCode(r, o, code, now);
      var next := IssueCode(after, o, again, later).1;
      match issue
      case Issued(sent, wait) =>
        && sent == code && after.code == Some(Code(code, 0, now + o.ttl))
        && (next.OnCooldown? <==> later < now + wait)
      case OnCooldown(wait) => after == r && wait > 0 && (next.OnCooldown? <==> later < now + wait)
      case RateLimited(wait) =>
        && after.code == r.code && wait > 0
        && (later < now + wait ==> next == RateLimited(now + wait - later))
        && (later >= now + wait && o.maxPerHour > 0 ==> next.Issued?)
  {}

  /** How many wrong candidates were tried before the code lapsed. */
  function WrongTries(code: nat, expiresAt: nat, steps: seq<Step>): nat {
    if steps == [] then 0
    else
      var last := steps[|steps| - 1];
      WrongTries(code, expiresAt, steps[..|steps| - 1])
        + (if last.DoVerify? && last.candidate != code && last.now < expiresAt then 1 else 0)
  }

  /** The code stands, counting its wrong tries, until there are too many of them. */
  predicate StandsAt(r: Record, o: Settings, code: nat, expiresAt: nat, tries: nat) {
    if tries < o.maxAttempts then r.code == Some(Code(code, tries, expiresAt))
    else r.code.None? || r.code.value.attempts >= o.maxAttempts
  }

  lemma StandsStep(r: Record, o: Settings, code: nat, expiresAt: nat, tries: nat, step: Step)
    requires StandsAt(r, o, code, expiresAt, tries) && !Issues(r, o, step) && !Accepts(r, o, step)
    ensures StandsAt(Next(r, o, step), o, code, expiresAt,
      tries + if step.DoVerify? && step.candidate != code && step.now < expiresAt then 1 else 0)
  {}

  lemma {:induction false} CodeStands(r: Record, o: Settings, code: nat, expiresAt: nat, steps: seq<Step>)
    requires StandsAt(r, o, code, expiresAt, 0)
    requires Count(r, o, steps).issued == 0 && Count(r, o, steps).accepted == 0
    ensures StandsAt(Run(r, o, steps), o, code, expiresAt, WrongTries(code, expiresAt, steps))
  {
    hide StandsAt, Next, Issues, Accepts, Guesses;
    if steps != [] {
      var front, last := steps[..|steps| - 1], steps[|steps| - 1];
      CodeStands(r, o, code, expiresAt, front);
      StandsStep(Run(r, o, front), o, code, expiresAt, WrongTries(code, expiresAt, front), last);
    }
  }

  /** The right code is accepted, exactly: once a code has gone out, after any steps that issue no
      other and accept none, a candidate is accepted if and only if it is that code, the code has
      not lapsed, and fewer than maxAttempts wrong ones were tried before; a wrong one is a mere
      mismatch as long as it is not the last one allowed. */
  lemma AcceptedExactly(r: Record, o: Settings, code: nat, t: nat, later: seq<Step>, candidate: nat, now: nat)
    requires IssueCode(r, o, code, t).1.Issued?
    requires var issued := IssueCode(r, o, code, t).0;
      Count(issued, o, later).issued == 0 && Count(issued, o, later).accepted == 0
    ensures var check := VerifyCode(Run(IssueCode(r, o, code, t).0, o, later), o, candidate, now).1;
      var tries := WrongTries(code, t + o.ttl, later);
      && (check == Valid <==> candidate == code && now < t + o.ttl && tries < o.maxAttempts)
      && (check == Mismatch <==> candidate != code && now < t + o.ttl && tries + 1 < o.maxAttempts)
      && (now >= t + o.ttl && tries < o.maxAttempts ==> check == NotFound)
  {
    hide Run, Count, WrongTries;
    CodeStands(IssueCode(r, o, code, t).0, o, code, t + o.ttl, later);
  }

  // ---------------------------------------------------------------- the services

  /** The keys of one subject, updated in place. */
  class SubjectKeys {
    var counter: Option<Counter>
    var code: Option<Code>
    var cooldownUntil: nat

    ghost function Snapshot(): Record
      reads this
    {
      Record(counter, code, cooldownUntil)
    }

    constructor ()
      ensures Snapshot() == Record(None, None, 0)
    {
      counter, code, cooldownUntil := None, None, 0;
    }

    method Consume(limit: nat, window: nat, now: nat) returns (verdict: Verdict)
      modifies this`counter
      ensures counter == Some(Consumed(old(counter), window, now))
      ensures verdict.allowed == IsAllowed(old(counter), limit, window, now)
      ensures verdict.allowed ==> verdict.remaining == limit - counter.value.count
      ensures !verdict.allowed ==> verdict.remaining == 0
      ensures !verdict.allowed && counter.value.expiresAt > now ==> now + verdict.retryAfter == counter.value.expiresAt
    {
      if counter.Some? && counter.value.expiresAt > now {
        counter := Some(counter.value.(count := counter.value.count + 1));
      } else {
        counter := Some(Counter(1, now + window));
      }
      var count := counter.value.count;
      if count > limit {
        var left := counter.value.expiresAt - now;
        return Verdict(false, 0, if left > 0 then left else window);
      }
      verdict := Verdict(true, limit - count, 0);
    }

    method Issue(o: Settings, newCode: nat, now: nat) returns (result: Issue)
      modifies this
      ensures (Snapshot(), result) == IssueCode(old(Snapshot()), o, newCode, now)
    {
      if cooldownUntil > now { return OnCooldown(cooldownUntil - now); }
      var hourly := Consume(o.maxPerHour, HOUR, now);
      if !hourly.allowed { return RateLimited(hourly.retryAfter); }
      code := Some(Code(newCode, 0, now + o.ttl));
      cooldownUntil := now + o.cooldown;
      result := Issued(newCode, o.cooldown);
    }

    method Verify(o: Settings, candidate: nat, now: nat) returns (result: Check)
      modifies this
      ensures (Snapshot(), result) == VerifyCode(old(Snapshot()), o, candidate, now)
    {
      if code.None? || code.value.expiresAt <= now { return NotFound; }
      var stored := code.value;
      if stored.attempts >= o.maxAttempts { code := None; return TooManyAttempts; }
      if candidate == stored.code { code := None; return Valid; }
      var attempts := stored.attempts + 1;
      if attempts >= o.maxAttempts { code := None; return TooManyAttempts; }
      code := Some(stored.(attempts := attempts));
      result := Mismatch;
    }
  }
}

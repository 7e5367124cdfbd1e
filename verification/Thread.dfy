/** The web client's copy of a conversation: use-chat-thread.ts, against the delivery
    status of message-view.ts and the pages of message.service.ts. */
module Thread {
  import opened Options

  datatype Tick = Sent | Delivered | Read

  /** `content` stands for everything else a message shows. */
  datatype Message = Message(id: nat, seqNo: nat, sender: nat, version: nat, content: nat, tick: Option<Tick>)

  type MessageMap = map<nat, Message>

  datatype Receipt = Receipt(userId: nat, delivered: nat, read: nat)

  function Max(a: nat, b: nat): nat { if a >= b then a else b }

  // ------------------------------------------------------------------- merging

  function Upsert(current: MessageMap, m: Message): MessageMap {
    if m.id !in current || m.version >= current[m.id].version then current[m.id := m] else current
  }

  function UpsertAll(current: MessageMap, incoming: seq<Message>): MessageMap {
    if incoming == [] then current
    else Upsert(UpsertAll(current, incoming[..|incoming| - 1]), incoming[|incoming| - 1])
  }

  method UpsertMessages(current: MessageMap, incoming: seq<Message>) returns (next: MessageMap)
    ensures next == UpsertAll(current, incoming)
  {
    next := current;
    for i := 0 to |incoming|
      invariant next == UpsertAll(current, incoming[..i])
    {
      assert incoming[..i + 1][..i] == incoming[..i];
      var message := incoming[i];
      if message.id !in next || message.version >= next[message.id].version {
        next := next[message.id := message];
      }
    }
    assert incoming[..|incoming|] == incoming;
  }

  function Ids(messages: seq<Message>): set<nat> { set i | 0 <= i < |messages| :: messages[i].id }

  ghost predicate Keyed(current: MessageMap) { forall id :: id in current ==> current[id].id == id }

  lemma {:induction false} UpsertKeys(current: MessageMap, incoming: seq<Message>)
    requires Keyed(current)
    ensures Keyed(UpsertAll(current, incoming)) && UpsertAll(current, incoming).Keys == current.Keys + Ids(incoming)
  {
    hide Ids;
    if incoming == [] {
      assert Ids(incoming) == {} by { NoIds(); }
    } else {
      var front, last := incoming[..|incoming| - 1], incoming[|incoming| - 1];
      UpsertKeys(current, front);
      IdsAfter(front, last);
      assert incoming == front + [last];
    }
  }

  lemma NoIds()
    ensures Ids([]) == {}
  {}

  lemma {:induction false} UpsertVersions(current: MessageMap, incoming: seq<Message>)
    requires Keyed(current)
    ensures var merged := UpsertAll(current, incoming);
      && (forall id :: id in current ==> id in merged && current[id].version <= merged[id].version)
      && (forall m :: m in incoming ==> m.id in merged && m.version <= merged[m.id].version)
      && (forall id :: id in merged ==> merged[id] in incoming || (id in current && merged[id] == current[id]))
  {
    if incoming == [] {
    } else {
      var front, last := incoming[..|incoming| - 1], incoming[|incoming| - 1];
      UpsertVersions(current, front);
      var before := UpsertAll(current, front);
      hide UpsertAll;
      assert forall m :: m in incoming <==> m in front || m == last;
      assert UpsertAll(current, incoming) == Upsert(before, last) by { UpsertLast(current, incoming); }
    }
  }

  lemma UpsertLast(current: MessageMap, incoming: seq<Message>)
    requires incoming != []
    ensures UpsertAll(current, incoming)
      == Upsert(UpsertAll(current, incoming[..|incoming| - 1]), incoming[|incoming| - 1])
  {}

  /** Merging keeps, for each id ever seen, one of its messages with the highest version. */
  lemma UpsertIsLatest(current: MessageMap, incoming: seq<Message>)
    requires Keyed(current)
    ensures var merged := UpsertAll(current, incoming);
      && Keyed(merged) && merged.Keys == current.Keys + Ids(incoming)
      && (forall id :: id in current ==> current[id].version <= merged[id].version)
      && (forall m :: m in incoming ==> m.id in merged && m.version <= merged[m.id].version)
      && (forall id :: id in merged ==> merged[id] in incoming || (id in current && merged[id] == current[id]))
  {
    hide UpsertAll, Ids;
    UpsertKeys(current, incoming);
    UpsertVersions(current, incoming);
  }

  lemma IdsAfter(front: seq<Message>, last: Message)
    ensures Ids(front + [last]) == Ids(front) + {last.id}
  {
    var all := front + [last];
    assert all[|front|] == last;
    forall id | id in Ids(front) ensures id in Ids(all) {
      var i :| 0 <= i < |front| && front[i].id == id;
      assert all[i].id == id;
    }
  }

  /** Among equal versions the one that came last is shown. */
  lemma {:induction false} LastOfEqualsWins(current: MessageMap, incoming: seq<Message>, i: nat)
    requires i < |incoming|
    requires incoming[i].id in current ==> current[incoming[i].id].version <= incoming[i].version
    requires forall j :: 0 <= j < i && incoming[j].id == incoming[i].id ==> incoming[j].version <= incoming[i].version
    requires forall j :: i < j < |incoming| && incoming[j].id == incoming[i].id ==>
      incoming[j].version < incoming[i].version
    ensures incoming[i].id in UpsertAll(current, incoming)
      && UpsertAll(current, incoming)[incoming[i].id] == incoming[i]
  {
    var front := incoming[..|incoming| - 1];
    if i < |front| {
      LastOfEqualsWins(current, front, i);
    } else {
      NotAbove(current, front, incoming[i]);
    }
  }

  lemma {:induction false} NotAbove(current: MessageMap, incoming: seq<Message>, m: Message)
    requires m.id in current ==> current[m.id].version <= m.version
    requires forall n :: n in incoming && n.id == m.id ==> n.version <= m.version
    ensures m.id in UpsertAll(current, incoming) ==> UpsertAll(current, incoming)[m.id].version <= m.version
  {
    if incoming != [] {
      assert incoming[|incoming| - 1] in incoming;
      assert forall n :: n in incoming[..|incoming| - 1] ==> n in incoming;
      NotAbove(current, incoming[..|incoming| - 1], m);
    }
  }

  /** A message without its tick, which a merge of equal versions may overwrite. */
  function Core(m: Message): Message { m.(tick := None) }

  function Seen(current: MessageMap, incoming: seq<Message>): set<Message> {
    (set id | id in current :: Core(current[id])) + (set i | 0 <= i < |incoming| :: Core(incoming[i]))
  }

  /** The server never gives two contents the same version. */
  ghost predicate Consistent(seen: set<Message>) {
    forall a, b :: a in seen && b in seen && a.id == b.id && a.version == b.version ==> a == b
  }

  lemma LatestIsSeen(current: MessageMap, incoming: seq<Message>, id: nat)
    requires Keyed(current) && id in UpsertAll(current, incoming)
    ensures var m := Core(UpsertAll(current, incoming)[id]); m in Seen(current, incoming) && m.id == id
    ensures forall m :: m in Seen(current, incoming) && m.id == id ==>
      m.version <= UpsertAll(current, incoming)[id].version
  {
    UpsertIsLatest(current, incoming);
    hide UpsertAll;
    var m := UpsertAll(current, incoming)[id];
    if m in incoming {
      var i :| 0 <= i < |incoming| && incoming[i] == m;
      assert Core(incoming[i]) == Core(m);
    } else {
      assert Core(current[id]) == Core(m);
    }
  }

  lemma SeenIds(current: MessageMap, incoming: seq<Message>, id: nat)
    requires Keyed(current)
    ensures id in UpsertAll(current, incoming) <==> exists m :: m in Seen(current, incoming) && m.id == id
  {
    UpsertIsLatest(current, incoming);
    if id in UpsertAll(current, incoming) {
      LatestIsSeen(current, incoming, id);
    }
  }

  /** Two threads that have seen the same messages, in whatever order, however often and
      in whatever batches, hold the same ids with the same latest content. */
  lemma ThreadsConverge(a: MessageMap, b: MessageMap, fromA: seq<Message>, fromB: seq<Message>)
    requires Keyed(a) && Keyed(b) && Seen(a, fromA) == Seen(b, fromB) && Consistent(Seen(a, fromA))
    ensures UpsertAll(a, fromA).Keys == UpsertAll(b, fromB).Keys
    ensures forall id :: id in UpsertAll(a, fromA) ==> Core(UpsertAll(a, fromA)[id]) == Core(UpsertAll(b, fromB)[id])
  {
    hide UpsertAll, Seen;
    forall id ensures id in UpsertAll(a, fromA) <==> id in UpsertAll(b, fromB) {
      SeenIds(a, fromA, id);
      SeenIds(b, fromB, id);
    }
    forall id | id in UpsertAll(a, fromA) ensures Core(UpsertAll(a, fromA)[id]) == Core(UpsertAll(b, fromB)[id]) {
      LatestIsSeen(a, fromA, id);
      LatestIsSeen(b, fromB, id);
    }
  }

  /** Merging batch after batch is merging their concatenation. */
  lemma {:induction false} BatchesCompose(current: MessageMap, a: seq<Message>, b: seq<Message>)
    ensures UpsertAll(UpsertAll(current, a), b) == UpsertAll(current, a + b)
  {
    if b == [] {
      assert a + b == a;
    } else {
      BatchesCompose(current, a, b[..|b| - 1]);
      assert (a + b)[..|a + b| - 1] == a + b[..|b| - 1];
    }
  }

  // ------------------------------------------------------------------ receipts

  function Rank(t: Tick): nat { match t case Sent => 0 case Delivered => 1 case Read => 2 }

  /** deliveryStatusFor: what the server shows the sender at given watermarks. */
  function StatusAt(seqNo: nat, delivered: nat, read: nat): Tick {
    if read >= seqNo then Read else if delivered >= seqNo then Delivered else Sent
  }

  function Reached(m: Message, e: Receipt): Option<Tick> {
    if m.seqNo <= e.read then Some(Read) else if m.seqNo <= e.delivered then Some(Delivered) else None
  }

  function Ticked(m: Message, e: Receipt, me: nat): Message {
    if m.sender != me || m.tick.None? then m
    else
      var reached := Reached(m, e);
      if reached.Some? && Rank(reached.value) > Rank(m.tick.value) then m.(tick := reached) else m
  }

  function AfterReceipt(current: MessageMap, e: Receipt, me: nat): MessageMap {
    if e.userId == me then current else map id | id in current :: Ticked(current[id], e, me)
  }

  function AfterReceipts(current: MessageMap, events: seq<Receipt>, me: nat): (after: MessageMap)
    ensures after.Keys == current.Keys
  {
    if events == [] then current
    else AfterReceipt(AfterReceipts(current, events[..|events| - 1], me), events[|events| - 1], me)
  }

  method ApplyReceipts(current: MessageMap, event: Receipt, me: nat) returns (next: MessageMap)
    ensures next == AfterReceipt(current, event, me)
  {
    if event.userId == me { return current; }
    next := current;
    var left := current.Keys;
    while left != {}
      invariant left <= current.Keys && next.Keys == current.Keys
      invariant forall id :: id in current ==>
        next[id] == if id in left then current[id] else Ticked(current[id], event, me)
      decreases |left|
    {
      var id :| id in left;
      var message := current[id];
      left := left - {id};
      if message.sender != me || message.tick.None? { continue; }
      var reached :=
        if message.seqNo <= event.read then Some(Read)
        else if message.seqNo <= event.delivered then Some(Delivered) else None;
      if reached.Some? && Rank(reached.value) > Rank(message.tick.value) {
        next := next[id := message.(tick := reached)];
      }
    }
  }

  /** The counterpart's furthest watermarks in a list of events; its own events do not count. */
  function Furthest(events: seq<Receipt>, me: nat): (marks: (nat, nat)) {
    if events == [] then (0, 0)
    else
      var (delivered, read) := Furthest(events[..|events| - 1], me);
      var e := events[|events| - 1];
      if e.userId == me then (delivered, read) else (Max(delivered, e.delivered), Max(read, e.read))
  }

  function Higher(a: Tick, b: Tick): Tick { if Rank(a) >= Rank(b) then a else b }

  /** A tick raised to what the server would show at the given watermarks. */
  function Raised(m: Message, delivered: nat, read: nat, me: nat): Message {
    if m.sender != me || m.tick.None? then m
    else m.(tick := Some(Higher(m.tick.value, StatusAt(m.seqNo, delivered, read))))
  }

  ghost predicate Numbered(current: MessageMap) { forall id :: id in current ==> current[id].seqNo >= 1 }

  /** Any list of receipt events raises each of my ticks exactly as far as the server would
      show at the furthest watermarks received, and changes nothing else. */
  lemma {:induction false} ReceiptsRaise(current: MessageMap, events: seq<Receipt>, me: nat)
    requires Numbered(current)
    ensures forall id :: id in current ==>
      AfterReceipts(current, events, me)[id] == Raised(current[id], Furthest(events, me).0, Furthest(events, me).1, me)
  {
    if events != [] { ReceiptsRaise(current, events[..|events| - 1], me); }
  }

  /** If the ticks started as the server showed them, they are afterwards what the server
      shows at the pointwise maximum of the starting and the received watermarks. */
  lemma TicksRefineServer(current: MessageMap, events: seq<Receipt>, me: nat, delivered: nat, read: nat, id: nat)
    requires Numbered(current) && id in current && current[id].sender == me
    requires current[id].tick == Some(StatusAt(current[id].seqNo, delivered, read))
    ensures var (d, r) := Furthest(events, me);
      AfterReceipts(current, events, me)[id]
        == current[id].(tick := Some(StatusAt(current[id].seqNo, Max(delivered, d), Max(read, r))))
  {
    hide AfterReceipts;
    ReceiptsRaise(current, events, me);
  }

  lemma {:induction false} FurthestReaches(events: seq<Receipt>, me: nat)
    ensures forall e :: e in events && e.userId != me ==>
      e.delivered <= Furthest(events, me).0 && e.read <= Furthest(events, me).1
    ensures var (delivered, read) := Furthest(events, me);
      && (delivered == 0 || exists e :: e in events && e.userId != me && e.delivered == delivered)
      && (read == 0 || exists e :: e in events && e.userId != me && e.read == read)
  {
    if events != [] {
      var front, last := events[..|events| - 1], events[|events| - 1];
      FurthestReaches(front, me);
      assert forall e :: e in events <==> e in front || e == last;
      assert last in events;
    }
  }

  /** Receipts may arrive in any order and any number of times. */
  lemma ReceiptsForgetOrder(current: MessageMap, a: seq<Receipt>, b: seq<Receipt>, me: nat)
    requires Numbered(current) && forall e :: e in a <==> e in b
    ensures AfterReceipts(current, a, me) == AfterReceipts(current, b, me)
  {
    hide AfterReceipts, Furthest;
    ReceiptsRaise(current, a, me);
    ReceiptsRaise(current, b, me);
    FurthestReaches(a, me);
    FurthestReaches(b, me);
    assert Furthest(a, me) == Furthest(b, me);
  }

  /** No event lowers a tick. */
  lemma TicksNeverFall(current: MessageMap, events: seq<Receipt>, me: nat, id: nat)
    requires Numbered(current) && id in current
    ensures var after := AfterReceipts(current, events, me)[id];
      Core(after) == Core(current[id]) && (current[id].tick.None? ==> after.tick.None?)
      && (current[id].tick.Some? ==> after.tick.Some? && Rank(after.tick.value) >= Rank(current[id].tick.value))
  {
    hide AfterReceipts, Furthest;
    ReceiptsRaise(current, events, me);
  }

  // -------------------------------------------------------------------- paging

  /** The stored messages of a conversation in the order of the seq index. */
  ghost predicate IsLog(log: seq<Message>) {
    && (forall i, j :: 0 <= i < j < |log| ==> log[i].seqNo < log[j].seqNo && log[i].id != log[j].id)
    && forall i :: 0 <= i < |log| ==> log[i].seqNo >= 1
  }

  function Above(log: seq<Message>, cursor: nat): seq<Message> {
    if log == [] then []
    else if log[0].seqNo > cursor then [log[0]] + Above(log[1..], cursor)
    else Above(log[1..], cursor)
  }

  function Below(log: seq<Message>, cursor: nat): seq<Message> {
    if log == [] then []
    else if log[0].seqNo < cursor then [log[0]] + Below(log[1..], cursor)
    else Below(log[1..], cursor)
  }

  datatype Query = First | After(cursor: nat) | Before(cursor: nat)
  datatype Page = Page(messages: seq<Message>, hasMore: bool)

  function Oldest(found: seq<Message>, limit: nat): Page {
    if |found| > limit then Page(found[..limit], true) else Page(found, false)
  }

  function Newest(found: seq<Message>, limit: nat): Page {
    if |found| > limit then Page(found[|found| - limit..], true) else Page(found, false)
  }

  /** list: catching up reads the oldest first, anything else the newest first; a page is
      always in chronological order. */
  function List(log: seq<Message>, query: Query, limit: nat): Page {
    match query
    case First => Newest(log, limit)
    case After(cursor) => Oldest(Above(log, cursor), limit)
    case Before(cursor) => Newest(Below(log, cursor), limit)
  }

  lemma {:induction false} AboveIsSuffix(log: seq<Message>, k: nat, cursor: nat)
    requires k <= |log|
    requires forall i :: 0 <= i < |log| ==> (i < k <==> log[i].seqNo <= cursor)
    ensures Above(log, cursor) == log[k..]
  {
    if log == [] {
    } else if k == 0 {
      AboveAll(log, cursor);
    } else {
      AboveIsSuffix(log[1..], k - 1, cursor);
      assert log[1..][k - 1..] == log[k..];
    }
  }

  lemma {:induction false} AboveAll(log: seq<Message>, cursor: nat)
    requires forall m :: m in log ==> m.seqNo > cursor
    ensures Above(log, cursor) == log
  {
    if log != [] { AboveAll(log[1..], cursor); }
  }

  lemma {:induction false} BelowIsPrefix(log: seq<Message>, k: nat, cursor: nat)
    requires k <= |log|
    requires forall i :: 0 <= i < |log| ==> (i < k <==> log[i].seqNo < cursor)
    ensures Below(log, cursor) == log[..k]
  {
    if log == [] {
    } else if k == 0 {
      BelowIsPrefix(log[1..], 0, cursor);
    } else {
      BelowIsPrefix(log[1..], k - 1, cursor);
      assert [log[0]] + log[1..][..k - 1] == log[..k];
    }
  }

  /** Where the cursor falls in the log. */
  lemma SplitAt(log: seq<Message>, cursor: nat) returns (k: nat)
    requires IsLog(log)
    ensures k <= |log| && Above(log, cursor) == log[k..]
    ensures forall i :: 0 <= i < |log| ==> (i < k <==> log[i].seqNo <= cursor)
  {
    k := 0;
    while k < |log| && log[k].seqNo <= cursor
      invariant k <= |log| && forall i :: 0 <= i < k ==> log[i].seqNo <= cursor
    {
      k := k + 1;
    }
    AboveIsSuffix(log, k, cursor);
  }

  /** The next cursor leaves exactly what the page did not hold. */
  lemma NextCursor(log: seq<Message>, cursor: nat, n: nat)
    requires IsLog(log) && 0 < n <= |Above(log, cursor)|
    ensures var last := Above(log, cursor)[n - 1].seqNo;
      Above(log, last) == Above(log, cursor)[n..] && last > cursor
  {
    var k := SplitAt(log, cursor);
    AboveIsSuffix(log, k + n, log[k + n - 1].seqNo);
  }

  lemma NothingMerged(thread: MessageMap)
    ensures UpsertAll(thread, []) == thread
  {}

  /** catchUp on a log that does not change meanwhile: it ends, and it merges exactly the
      messages above the cursor, each once and in order. */
  method CatchUp(log: seq<Message>, afterSeq: nat, limit: nat, thread: MessageMap) returns (caughtUp: MessageMap)
    requires IsLog(log) && limit >= 1
    ensures caughtUp == UpsertAll(thread, Above(log, afterSeq))
  {
    hide Above, IsLog, UpsertAll;
    NothingMerged(thread);
    var cursor := afterSeq;
    ghost var merged: seq<Message> := [];
    caughtUp := thread;
    while true
      invariant caughtUp == UpsertAll(thread, merged) && merged + Above(log, cursor) == Above(log, afterSeq)
      decreases |Above(log, cursor)|
    {
      var page := List(log, After(cursor), limit);
      BatchesCompose(thread, merged, page.messages);
      caughtUp := UpsertMessages(caughtUp, page.messages);
      if !page.hasMore || |page.messages| == 0 { return; }
      NextCursor(log, cursor, limit);
      merged := merged + page.messages;
      cursor := page.messages[|page.messages| - 1].seqNo;
    }
  }

  ghost predicate HoldsUpTo(thread: MessageMap, log: seq<Message>, cursor: nat) {
    forall i :: 0 <= i < |log| && log[i].seqNo <= cursor ==> log[i].id in thread
  }

  ghost predicate HoldsAll(thread: MessageMap, log: seq<Message>) {
    forall i :: 0 <= i < |log| ==> log[i].id in thread
  }

  /** After catching up a thread lacks nothing exactly when it lacked nothing up to its
      cursor. */
  lemma CatchUpCompletes(log: seq<Message>, cursor: nat, thread: MessageMap)
    requires IsLog(log) && Keyed(thread)
    ensures HoldsAll(UpsertAll(thread, Above(log, cursor)), log) <==> HoldsUpTo(thread, log, cursor)
  {
    hide UpsertAll, Above;
    var k := SplitAt(log, cursor);
    var merged := UpsertAll(thread, log[k..]);
    UpsertIsLatest(thread, log[k..]);
    forall i | 0 <= i < |log| ensures log[i].id in merged <==> i >= k || log[i].id in thread {
      if i >= k {
        assert log[k..][i - k] == log[i];
      }
    }
  }

  /** maxSeq, 0 for an empty thread. */
  ghost predicate IsHighest(thread: MessageMap, highest: nat) {
    && (forall id :: id in thread ==> thread[id].seqNo <= highest)
    && (highest == 0 || exists id :: id in thread && thread[id].seqNo == highest)
  }

  method MaxSeq(thread: MessageMap) returns (highest: nat)
    ensures IsHighest(thread, highest)
  {
    highest := 0;
    var left := thread.Keys;
    while left != {}
      invariant left <= thread.Keys
      invariant forall id :: id in thread && id !in left ==> thread[id].seqNo <= highest
      invariant highest == 0 || exists id :: id in thread && thread[id].seqNo == highest
      decreases |left|
    {
      var id :| id in left;
      highest := Max(highest, thread[id].seqNo);
      left := left - {id};
    }
  }

  /** The cursor alone does not make a thread complete: message 3 can be shown before message
      2 is stored, and then neither catching up from the newest message held nor paging back
      from the oldest ever brings message 2. */
  lemma GapIsNeverFilled(first: Message, late: Message, last: Message, limit: nat)
    requires first.seqNo == 1 && late.seqNo == 2 && last.seqNo == 3
    requires first.id != late.id && late.id != last.id && first.id != last.id
    ensures var log, thread := [first, late, last], map[first.id := first, last.id := last];
      && IsLog(log) && Keyed(thread) && IsHighest(thread, 3)
      && !HoldsAll(UpsertAll(thread, Above(log, 3)), log)
      && !HoldsAll(UpsertAll(thread, List(log, Before(first.seqNo), limit).messages), log)
  {
    var log, thread := [first, late, last], map[first.id := first, last.id := last];
    assert last.id in thread;
    AboveIsSuffix(log, 3, 3);
    BelowIsPrefix(log, 0, 1);
    assert log[1].id !in thread;
  }

  lemma HighestIsUnique(thread: MessageMap, a: nat, b: nat)
    requires IsHighest(thread, a) && IsHighest(thread, b)
    ensures a == b
  {}

  /** A reconnect leaves nothing missing exactly when nothing was missing up to the newest
      message held, whatever was stored meanwhile above it. */
  method Reconnect(log: seq<Message>, limit: nat, thread: MessageMap) returns (after: MessageMap)
    requires IsLog(log) && limit >= 1 && Keyed(thread)
    ensures forall cursor :: IsHighest(thread, cursor) ==> (HoldsAll(after, log) <==> HoldsUpTo(thread, log, cursor))
  {
    hide HoldsAll, HoldsUpTo;
    var highest := MaxSeq(thread);
    after := CatchUp(log, highest, limit, thread);
    CatchUpCompletes(log, highest, thread);
    forall cursor | IsHighest(thread, cursor) ensures cursor == highest { HighestIsUnique(thread, cursor, highest); }
  }

  // ------------------------------------------------------------- older messages

  function Back(total: nat, pages: nat, limit: nat): nat {
    if pages == 0 then total
    else if Back(total, pages - 1, limit) > limit then Back(total, pages - 1, limit) - limit else 0
  }

  /** What a thread holds after the first page and `older` more pages, and whether more remain.
      Loading stops when nothing older is left. */
  function Scrolled(log: seq<Message>, limit: nat, older: nat): Page {
    if older == 0 then List(log, First, limit)
    else
      var held := Scrolled(log, limit, older - 1);
      if !held.hasMore || held.messages == [] then held
      else
        var page := List(log, Before(held.messages[0].seqNo), limit);
        Page(page.messages + held.messages, page.hasMore)
  }

  lemma OlderPage(log: seq<Message>, start: nat, limit: nat)
    requires IsLog(log) && limit >= 1 && start < |log|
    ensures var from := if start > limit then start - limit else 0;
      var page := List(log, Before(log[start].seqNo), limit);
      page == Page(log[from..start], from > 0) && page.messages + log[start..] == log[from..]
  {
    BelowIsPrefix(log, start, log[start].seqNo);
    var from := if start > limit then start - limit else 0;
    assert log[..start][from..] == log[from..start];
    assert log[from..start] + log[start..] == log[from..];
  }

  /** Each older page joins on without a gap or a repeat. */
  lemma {:induction false} ScrolledIsSuffix(log: seq<Message>, limit: nat, older: nat)
    requires IsLog(log) && limit >= 1
    ensures var start := Back(|log|, older + 1, limit);
      start <= |log| && Scrolled(log, limit, older) == Page(log[start..], start > 0)
  {
    hide List, IsLog;
    StartInside(|log|, older + 1, limit);
    if older == 0 {
      FirstPage(log, limit);
    } else {
      ScrolledIsSuffix(log, limit, older - 1);
      var start := Back(|log|, older, limit);
      StartInside(|log|, older, limit);
      if start > 0 { OlderPage(log, start, limit); }
    }
  }

  lemma FirstPage(log: seq<Message>, limit: nat)
    ensures var start := if |log| > limit then |log| - limit else 0;
      List(log, First, limit) == Page(log[start..], start > 0)
  {}

  lemma {:induction false} StartInside(total: nat, pages: nat, limit: nat)
    requires limit >= 1 && pages >= 1
    ensures Back(total, pages, limit) <= total && (total > 0 ==> Back(total, pages, limit) < total)
  {
    if pages > 1 { StartInside(total, pages - 1, limit); }
  }

  lemma {:induction false} BackReaches(total: nat, pages: nat, limit: nat)
    requires limit >= 1
    ensures pages >= total ==> Back(total, pages, limit) == 0
    ensures Back(total, pages, limit) + pages <= total || Back(total, pages, limit) == 0
  {
    if pages > 0 { BackReaches(total, pages - 1, limit); }
  }

  /** Paging back reaches every older message: after enough pages the thread is the log. */
  lemma EveryOlderMessageIsReached(log: seq<Message>, limit: nat, older: nat)
    requires IsLog(log) && limit >= 1 && older >= |log|
    ensures Scrolled(log, limit, older) == Page(log, false)
  {
    ScrolledIsSuffix(log, limit, older);
    BackReaches(|log|, older + 1, limit);
  }
}

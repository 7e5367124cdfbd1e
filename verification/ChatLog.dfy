/** One conversation under any interleaving of sends, edits, receipts and the contact
    unlock: message.service.ts, conversation.service.ts, contact-detection.service.ts.
    Every await of the program is a place where other operations may step in between;
    each read-modify-write of a message document is one step. */
module ChatLog {
  import opened Options

  type Text = seq<char>
  datatype Role = Client | Provider
  datatype Policy = Protected | Unlocked
  datatype Marks = Marks(delivered: nat, read: nat)

  datatype Conversation = Conversation(
    policy: Policy, unlockedAt: Option<nat>, lastSeq: nat, client: Marks, provider: Marks)
  {
    function MarksOf(role: Role): Marks { if role == Client then client else provider }

    function WithMarks(role: Role, marks: Marks): Conversation {
      if role == Client then this.(client := marks) else this.(provider := marks)
    }
  }

  /** A text as stored, and the kinds of contact detail ever detected in it. */
  datatype Content = Content(body: Text, redactions: seq<nat>)

  /** A reply names an earlier message by its place in the log. */
  datatype Message = Message(
    seqNo: nat, sender: Role, key: nat, content: Content, attachments: seq<nat>, replyTo: Option<nat>, version: nat,
    editedAt: Option<nat>, deleted: bool, reactions: map<Role, nat>)

  /** What a sender hands in besides the key. */
  datatype Draft = Draft(text: Text, attachments: seq<nat>, replyTo: Option<nat>)

  /** How texts are trimmed, how contact details are masked, and which are detected. */
  datatype Rules = Rules(trim: Text -> Text, redact: Text -> Text, detect: Text -> seq<nat>)

  function Protect(r: Rules, text: Text, policy: Policy): Content {
    if policy == Unlocked then Content(text, []) else Content(r.redact(text), r.detect(text))
  }

  /** Each attachment once, in the order first named. */
  function Distinct(ids: seq<nat>): seq<nat> {
    if ids == [] then []
    else
      var front := Distinct(ids[..|ids| - 1]);
      if ids[|ids| - 1] in front then front else front + [ids[|ids| - 1]]
  }

  /** computeCanSend on the snapshot the operation read. */
  predicate CanSend(policy: Policy, requestOpen: bool, candidacyLive: bool) {
    requestOpen && (policy == Unlocked || candidacyLive)
  }

  /** Every guard of a send: the conversation is open, the reply target is one of its messages
      and the media may be attached. */
  predicate MayPost(log: seq<Message>, draft: Draft, policy: Policy, requestOpen: bool, live: bool, attachable: bool) {
    CanSend(policy, requestOpen, live) && (draft.replyTo.Some? ==> draft.replyTo.value < |log|) && attachable
  }

  function MinNat(a: nat, b: nat): nat { if a <= b then a else b }
  function MaxNat(a: nat, b: nat): nat { if a >= b then a else b }

  // -------------------------------------------------- the stored conversation

  function Allocated(conv: Conversation): Conversation { conv.(lastSeq := conv.lastSeq + 1) }

  predicate HasKey(m: Message, sender: Role, key: nat) { m.sender == sender && m.key == key }

  function FindByKey(log: seq<Message>, sender: Role, key: nat): (found: Option<nat>)
    ensures found.Some? ==> found.value < |log| && HasKey(log[found.value], sender, key)
    ensures found.None? ==> forall i :: 0 <= i < |log| ==> !HasKey(log[i], sender, key)
  {
    if log == [] then None
    else
      var earlier := FindByKey(log[..|log| - 1], sender, key);
      if earlier.Some? then earlier
      else if HasKey(log[|log| - 1], sender, key) then Some(|log| - 1)
      else None
  }

  /** One of the two unique indexes refuses the message. */
  predicate IsDuplicate(log: seq<Message>, m: Message) {
    exists i :: 0 <= i < |log| && (log[i].seqNo == m.seqNo || HasKey(log[i], m.sender, m.key))
  }

  /** advanceWatermarks: `lastSeq` is what the operation read, the update is `$max`. */
  function Acknowledged(conv: Conversation, role: Role, lastSeq: nat, delivered: nat, read: Option<nat>): Conversation {
    var readUpTo := if read.Some? then MinNat(read.value, lastSeq) else 0;
    var deliveredUpTo := MinNat(MaxNat(delivered, readUpTo), lastSeq);
    var marks := conv.MarksOf(role);
    conv.WithMarks(role, Marks(
      MaxNat(marks.delivered, deliveredUpTo),
      if read.Some? then MaxNat(marks.read, readUpTo) else marks.read))
  }

  function UnlockedAt(conv: Conversation, now: nat): Conversation {
    if conv.policy == Protected then conv.(policy := Unlocked, unlockedAt := Some(now)) else conv
  }

  /** An edit keeps what was ever detected: the attempt happened even if the edit removed it. */
  function Edited(m: Message, content: Content, now: nat): Message {
    Touched(m).(content := Content(content.body, m.content.redactions + content.redactions), editedAt := Some(now))
  }

  function Touched(m: Message): Message { m.(version := m.version + 1) }

  function Reacted(m: Message, role: Role, emoji: Option<nat>): Message {
    Touched(m).(reactions := if emoji.Some? then m.reactions[role := emoji.value] else m.reactions - {role})
  }

  // -------------------------------------------------------- operations in flight

  /** Where a send stands. `Rethrown` is the fallback that finds no winner. */
  datatype Phase =
    | Arrived(policy: Policy)
    | Unseen(policy: Policy)
    | Ready(content: Content)
    | Holding(content: Content, seqNo: nat)
    | Lost(seqNo: nat)
    | Done(index: nat)
    | Failed
    | Rethrown

  datatype Send = Send(sender: Role, key: nat, draft: Draft, phase: Phase)
  datatype Edit = Edit(user: Role, index: nat, text: Text, policy: Policy)
  datatype Ack = Ack(role: Role, lastSeq: nat, delivered: nat, read: Option<nat>)

  /** `burnt` records the numbers whose send failed after allocating them. */
  datatype State = State(
    conv: Conversation, log: seq<Message>, sends: map<nat, Send>, edits: map<nat, Edit>, acks: map<nat, Ack>,
    burnt: set<nat>)

  datatype Step =
    | Arrive(id: nat, sender: Role, key: nat, draft: Draft)
    | Check(id: nat)
    | Guard(id: nat, requestOpen: bool, live: bool, attachable: bool)
    | Allocate(id: nat)
    | Insert(id: nat)
    | Fallback(id: nat)
    | Crash(id: nat)
    | BeginEdit(id: nat, user: Role, index: nat, text: Text)
    | SaveEdit(id: nat, inWindow: bool, requestOpen: bool, live: bool, now: nat)
    | Remove(user: Role, index: nat, inWindow: bool)
    | React(user: Role, index: nat, emoji: Option<nat>, requestOpen: bool, live: bool)
    | BeginAck(id: nat, role: Role, delivered: nat, read: Option<nat>)
    | SaveAck(id: nat)
    | Unlock(now: nat)

  function At(s: State, id: nat, phase: Phase): State
    requires id in s.sends
  {
    s.(sends := s.sends[id := s.sends[id].(phase := phase)])
  }

  /** A fresh check for an earlier message with the same key comes before every guard. */
  function Checked(s: State, id: nat): State {
    if id !in s.sends || !s.sends[id].phase.Arrived? then s
    else
      var found := FindByKey(s.log, s.sends[id].sender, s.sends[id].key);
      At(s, id, if found.Some? then Done(found.value) else Unseen(s.sends[id].phase.policy))
  }

  function Guarded(r: Rules, s: State, id: nat, requestOpen: bool, live: bool, attachable: bool): State {
    if id !in s.sends || !s.sends[id].phase.Unseen? then s
    else
      var policy := s.sends[id].phase.policy;
      if MayPost(s.log, s.sends[id].draft, policy, requestOpen, live, attachable)
      then At(s, id, Ready(Protect(r, r.trim(s.sends[id].draft.text), policy)))
      else At(s, id, Failed)
  }

  function Numbered(s: State, id: nat): State {
    if id !in s.sends || !s.sends[id].phase.Ready? then s
    else
      At(s.(conv := Allocated(s.conv)), id, Holding(s.sends[id].phase.content, s.conv.lastSeq + 1))
  }

  function Posted(send: Send, content: Content, seqNo: nat): Message {
    Message(seqNo, send.sender, send.key, content, Distinct(send.draft.attachments), send.draft.replyTo, 1, None, false,
            map[])
  }

  function NewMessage(send: Send): Message
    requires send.phase.Holding?
  {
    Posted(send, send.phase.content, send.phase.seqNo)
  }

  function Inserted(s: State, id: nat): State {
    if id !in s.sends || !s.sends[id].phase.Holding? then s
    else if IsDuplicate(s.log, NewMessage(s.sends[id])) then At(s, id, Lost(s.sends[id].phase.seqNo))
    else At(s.(log := s.log + [NewMessage(s.sends[id])]), id, Done(|s.log|))
  }

  function FellBack(s: State, id: nat): State {
    if id !in s.sends || !s.sends[id].phase.Lost? then s
    else
      var winner := FindByKey(s.log, s.sends[id].sender, s.sends[id].key);
      At(s.(burnt := s.burnt + {s.sends[id].phase.seqNo}), id, if winner.Some? then Done(winner.value) else Rethrown)
  }

  predicate Holds(send: Send) { send.phase.Holding? || send.phase.Lost? }

  predicate IsSettled(send: Send) { send.phase.Done? || send.phase.Failed? || send.phase.Rethrown? }

  function Crashed(s: State, id: nat): State {
    if id !in s.sends || IsSettled(s.sends[id]) then s
    else if Holds(s.sends[id]) then At(s.(burnt := s.burnt + {s.sends[id].phase.seqNo}), id, Failed)
    else At(s, id, Failed)
  }

  predicate IsOwn(s: State, user: Role, index: nat) {
    index < |s.log| && s.log[index].sender == user && !s.log[index].deleted
  }

  function SavedEdit(r: Rules, s: State, id: nat, inWindow: bool, requestOpen: bool, live: bool, now: nat): State {
    if id !in s.edits then s
    else
      var e := s.edits[id];
      var closed := s.(edits := s.edits - {id});
      if IsOwn(s, e.user, e.index) && inWindow && CanSend(e.policy, requestOpen, live)
      then closed.(log := s.log[e.index := Edited(s.log[e.index], Protect(r, e.text, e.policy), now)])
      else closed
  }

  function Removed(s: State, user: Role, index: nat, inWindow: bool): State {
    if IsOwn(s, user, index) && inWindow
    then s.(log := s.log[index := Touched(s.log[index]).(deleted := true)])
    else s
  }

  function WithReaction(s: State, user: Role, index: nat, emoji: Option<nat>, requestOpen: bool, live: bool): State {
    if index < |s.log| && !s.log[index].deleted && CanSend(s.conv.policy, requestOpen, live)
    then s.(log := s.log[index := Reacted(s.log[index], user, emoji)])
    else s
  }

  function SavedAck(s: State, id: nat): State {
    if id !in s.acks then s
    else
      var a := s.acks[id];
      s.(conv := Acknowledged(s.conv, a.role, a.lastSeq, a.delivered, a.read), acks := s.acks - {id})
  }

  function Next(r: Rules, s: State, step: Step): State {
    match step
    case Arrive(id, sender, key, draft) =>
      if id in s.sends then s else s.(sends := s.sends[id := Send(sender, key, draft, Arrived(s.conv.policy))])
    case Check(id) => Checked(s, id)
    case Guard(id, requestOpen, live, attachable) => Guarded(r, s, id, requestOpen, live, attachable)
    case Allocate(id) => Numbered(s, id)
    case Insert(id) => Inserted(s, id)
    case Fallback(id) => FellBack(s, id)
    case Crash(id) => Crashed(s, id)
    case BeginEdit(id, user, index, text) =>
      if id in s.edits then s else s.(edits := s.edits[id := Edit(user, index, text, s.conv.policy)])
    case SaveEdit(id, inWindow, requestOpen, live, now) => SavedEdit(r, s, id, inWindow, requestOpen, live, now)
    case Remove(user, index, inWindow) => Removed(s, user, index, inWindow)
    case React(user, index, emoji, requestOpen, live) => WithReaction(s, user, index, emoji, requestOpen, live)
    case BeginAck(id, role, delivered, read) =>
      if id in s.acks then s else s.(acks := s.acks[id := Ack(role, s.conv.lastSeq, delivered, read)])
    case SaveAck(id) => SavedAck(s, id)
    case Unlock(now) => s.(conv := UnlockedAt(s.conv, now))
  }

  function Initial(): State {
    State(Conversation(Protected, None, 0, Marks(0, 0), Marks(0, 0)), [], map[], map[], map[], {})
  }

  function Run(r: Rules, s: State, steps: seq<Step>): State
    decreases |steps|
  {
    if steps == [] then s else Run(r, Next(r, s, steps[0]), steps[1..])
  }

  // ------------------------------------------------------ numbers and identities

  function StoredSeqs(log: seq<Message>): set<nat> {
    set i | 0 <= i < |log| :: log[i].seqNo
  }

  function FlyingSeqs(sends: map<nat, Send>): set<nat> {
    set id | id in sends && Holds(sends[id]) :: sends[id].phase.seqNo
  }

  function Numbers(last: nat): (numbers: set<nat>)
    ensures |numbers| == last && forall n :: n in numbers <==> 1 <= n <= last
  {
    if last == 0 then {} else Numbers(last - 1) + {last}
  }

  /** No two stored messages share a number or a (sender, key). */
  ghost predicate Unique(log: seq<Message>) {
    forall i, j :: 0 <= i < j < |log| ==> log[i].seqNo != log[j].seqNo && !HasKey(log[j], log[i].sender, log[i].key)
  }

  ghost predicate OwnNumbers(sends: map<nat, Send>) {
    forall a, b :: a in sends && b in sends && a != b && Holds(sends[a]) && Holds(sends[b]) ==>
      sends[a].phase.seqNo != sends[b].phase.seqNo
  }

  /** Every number up to the last one is stored, in flight or burnt, and only one of these. */
  ghost predicate Partition(stored: set<nat>, flying: set<nat>, burnt: set<nat>, last: nat) {
    stored + flying + burnt == Numbers(last) && stored !! flying && stored !! burnt && flying !! burnt
  }

  ghost predicate PhaseHolds(log: seq<Message>, send: Send) {
    match send.phase
    case Lost(_) => FindByKey(log, send.sender, send.key).Some?
    case Done(index) => index < |log| && HasKey(log[index], send.sender, send.key)
    case Rethrown => false
    case _ => true
  }

  ghost predicate SendsHold(log: seq<Message>, sends: map<nat, Send>) {
    forall id :: id in sends ==> PhaseHolds(log, sends[id])
  }

  ghost predicate LogInv(s: State) {
    && Unique(s.log) && OwnNumbers(s.sends) && SendsHold(s.log, s.sends)
    && Partition(StoredSeqs(s.log), FlyingSeqs(s.sends), s.burnt, s.conv.lastSeq)
  }

  lemma StoredAfter(log: seq<Message>, m: Message)
    ensures StoredSeqs(log + [m]) == StoredSeqs(log) + {m.seqNo}
  {
    forall n | n in StoredSeqs(log) ensures n in StoredSeqs(log + [m]) {
      var i :| 0 <= i < |log| && log[i].seqNo == n;
      assert (log + [m])[i].seqNo == n;
    }
    assert (log + [m])[|log|].seqNo == m.seqNo;
  }

  lemma StoredSame(log: seq<Message>, index: nat, m: Message)
    requires index < |log| && m.seqNo == log[index].seqNo
    ensures StoredSeqs(log[index := m]) == StoredSeqs(log)
  {
    var after := log[index := m];
    assert forall i :: 0 <= i < |log| ==> after[i].seqNo == log[i].seqNo;
    forall n | n in StoredSeqs(log) ensures n in StoredSeqs(after) {
      var i :| 0 <= i < |log| && log[i].seqNo == n;
      assert after[i].seqNo == n;
    }
  }

  function Held(send: Send): set<nat> { if Holds(send) then {send.phase.seqNo} else {} }

  /** A send that moves on gives up the number it held and takes the new one. */
  lemma FlyingAfter(sends: map<nat, Send>, id: nat, send: Send)
    requires OwnNumbers(sends)
    ensures FlyingSeqs(sends[id := send]) == FlyingSeqs(sends) - (if id in sends then Held(sends[id]) else {})
      + Held(send)
  {
    var after := sends[id := send];
    forall n | n in FlyingSeqs(sends) && !(id in sends && n in Held(sends[id])) ensures n in FlyingSeqs(after) {
      var a :| a in sends && Holds(sends[a]) && sends[a].phase.seqNo == n;
      assert a != id && after[a] == sends[a];
    }
    if Holds(send) { assert after[id].phase.seqNo in FlyingSeqs(after); }
    forall n | n in FlyingSeqs(after) && n !in Held(send)
      ensures n in FlyingSeqs(sends) && !(id in sends && n in Held(sends[id]))
    {
      var a :| a in after && Holds(after[a]) && after[a].phase.seqNo == n;
      assert a != id;
    }
  }

  lemma OwnNumbersAfter(sends: map<nat, Send>, id: nat, send: Send)
    requires OwnNumbers(sends)
    requires Held(send) <= (if id in sends then Held(sends[id]) else {}) || Held(send) !! FlyingSeqs(sends)
    ensures OwnNumbers(sends[id := send])
  {
    var after := sends[id := send];
    forall a, b | a in after && b in after && a != b && Holds(after[a]) && Holds(after[b])
      ensures after[a].phase.seqNo != after[b].phase.seqNo
    {
      if a == id { assert sends[b].phase.seqNo in FlyingSeqs(sends); }
      if b == id { assert sends[a].phase.seqNo in FlyingSeqs(sends); }
    }
  }

  lemma FoundAfter(log: seq<Message>, m: Message, sender: Role, key: nat)
    ensures FindByKey(log, sender, key).Some? ==> FindByKey(log + [m], sender, key) == FindByKey(log, sender, key)
  {
    assert (log + [m])[..|log|] == log;
  }

  lemma {:induction false} FoundSame(log: seq<Message>, index: nat, m: Message, sender: Role, key: nat)
    requires index < |log| && m.sender == log[index].sender && m.key == log[index].key
    ensures FindByKey(log[index := m], sender, key) == FindByKey(log, sender, key)
  {
    var front := log[..|log| - 1];
    if index < |log| - 1 {
      assert log[index := m][..|log| - 1] == front[index := m];
      FoundSame(front, index, m, sender, key);
    } else {
      assert log[index := m][..|log| - 1] == front;
    }
  }

  /** Moving one send on, with the log kept or extended, keeps what the others rely on. */
  lemma SendsAfter(log: seq<Message>, sends: map<nat, Send>, id: nat, send: Send)
    requires SendsHold(log, sends) && PhaseHolds(log, send)
    ensures SendsHold(log, sends[id := send])
  {
    hide PhaseHolds;
  }

  lemma SendsAfterInsert(log: seq<Message>, sends: map<nat, Send>, m: Message)
    requires SendsHold(log, sends)
    ensures SendsHold(log + [m], sends)
  {
    hide FindByKey;
    forall a | a in sends ensures PhaseHolds(log + [m], sends[a]) {
      assert PhaseHolds(log, sends[a]);
      FoundAfter(log, m, sends[a].sender, sends[a].key);
    }
  }

  lemma HeldIsFlying(sends: map<nat, Send>, id: nat)
    requires id in sends && Holds(sends[id])
    ensures sends[id].phase.seqNo in FlyingSeqs(sends)
  {}

  /** A send that starts, or moves on without changing the number it holds. */
  lemma QuietMove(log: seq<Message>, sends: map<nat, Send>, id: nat, send: Send)
    requires OwnNumbers(sends) && SendsHold(log, sends) && PhaseHolds(log, send)
    requires Held(send) == if id in sends then Held(sends[id]) else {}
    ensures FlyingSeqs(sends[id := send]) == FlyingSeqs(sends)
    ensures OwnNumbers(sends[id := send]) && SendsHold(log, sends[id := send])
  {
    hide OwnNumbers, SendsHold, PhaseHolds;
    FlyingAfter(sends, id, send);
    OwnNumbersAfter(sends, id, send);
    SendsAfter(log, sends, id, send);
    if Holds(send) { HeldIsFlying(sends, id); }
    hide FlyingSeqs, Holds;
  }

  /** A send that gives up the number it held. */
  lemma ReleaseMove(log: seq<Message>, sends: map<nat, Send>, id: nat, send: Send)
    requires OwnNumbers(sends) && SendsHold(log, sends) && PhaseHolds(log, send)
    requires id in sends && Holds(sends[id]) && !Holds(send)
    ensures FlyingSeqs(sends[id := send]) == FlyingSeqs(sends) - {sends[id].phase.seqNo}
    ensures sends[id].phase.seqNo in FlyingSeqs(sends)
    ensures OwnNumbers(sends[id := send]) && SendsHold(log, sends[id := send])
  {
    hide OwnNumbers, SendsHold, PhaseHolds, FlyingSeqs;
    HeldIsFlying(sends, id);
    FlyingAfter(sends, id, send);
    OwnNumbersAfter(sends, id, send);
    SendsAfter(log, sends, id, send);
  }

  lemma ArriveKeeps(s: State, id: nat, send: Send)
    requires LogInv(s) && id !in s.sends && send.phase.Arrived?
    ensures LogInv(s.(sends := s.sends[id := send]))
  {
    hide FlyingSeqs, StoredSeqs, Unique, OwnNumbers, SendsHold, Partition;
    QuietMove(s.log, s.sends, id, send);
  }

  /** A send that holds no number moves to a phase that holds none. */
  lemma QuietKeeps(s: State, id: nat, phase: Phase)
    requires LogInv(s) && id in s.sends && !Holds(s.sends[id]) && !Holds(s.sends[id].(phase := phase))
    requires PhaseHolds(s.log, s.sends[id].(phase := phase))
    ensures LogInv(At(s, id, phase))
  {
    hide FlyingSeqs, StoredSeqs, Unique, OwnNumbers, SendsHold, Partition, PhaseHolds;
    QuietMove(s.log, s.sends, id, s.sends[id].(phase := phase));
  }

  lemma PartitionAllocates(stored: set<nat>, flying: set<nat>, burnt: set<nat>, last: nat)
    requires Partition(stored, flying, burnt, last)
    ensures Partition(stored, flying + {last + 1}, burnt, last + 1) && last + 1 !in flying
  {
    assert last + 1 !in Numbers(last);
    assert Numbers(last + 1) == Numbers(last) + {last + 1};
    assert stored + (flying + {last + 1}) + burnt == stored + flying + burnt + {last + 1};
  }

  lemma PartitionStores(stored: set<nat>, flying: set<nat>, burnt: set<nat>, last: nat, n: nat)
    requires Partition(stored, flying, burnt, last) && n in flying
    ensures Partition(stored + {n}, flying - {n}, burnt, last)
    ensures Partition(stored, flying - {n}, burnt + {n}, last)
  {
    hide Numbers;
    assert stored + {n} + (flying - {n}) + burnt == stored + flying + burnt;
    assert stored + (flying - {n}) + (burnt + {n}) == stored + flying + burnt;
  }

  lemma AllocateKeeps(s: State, id: nat)
    requires LogInv(s) && id in s.sends && s.sends[id].phase.Ready?
    ensures LogInv(Numbered(s, id))
  {
    hide FlyingSeqs, StoredSeqs, Unique, OwnNumbers, SendsHold, Partition;
    var send := s.sends[id].(phase := Holding(s.sends[id].phase.content, s.conv.lastSeq + 1));
    PartitionAllocates(StoredSeqs(s.log), FlyingSeqs(s.sends), s.burnt, s.conv.lastSeq);
    FlyingAfter(s.sends, id, send);
    OwnNumbersAfter(s.sends, id, send);
    SendsAfter(s.log, s.sends, id, send);
    assert FlyingSeqs(s.sends) - {} == FlyingSeqs(s.sends);
  }

  /** Only the key index can refuse an insertion: the number is always new. */
  lemma NumberIsNew(s: State, id: nat)
    requires LogInv(s) && id in s.sends && Holds(s.sends[id])
    ensures forall i :: 0 <= i < |s.log| ==> s.log[i].seqNo != s.sends[id].phase.seqNo
  {
    hide SendsHold, OwnNumbers, Unique;
    HeldIsFlying(s.sends, id);
    forall i | 0 <= i < |s.log| ensures s.log[i].seqNo != s.sends[id].phase.seqNo {
      assert s.log[i].seqNo in StoredSeqs(s.log);
    }
  }

  lemma DuplicateHasWinner(s: State, id: nat)
    requires LogInv(s) && id in s.sends && s.sends[id].phase.Holding? && IsDuplicate(s.log, NewMessage(s.sends[id]))
    ensures FindByKey(s.log, s.sends[id].sender, s.sends[id].key).Some?
  {
    NumberIsNew(s, id);
  }

  lemma LostKeeps(s: State, id: nat)
    requires LogInv(s) && id in s.sends && s.sends[id].phase.Holding? && IsDuplicate(s.log, NewMessage(s.sends[id]))
    ensures LogInv(Inserted(s, id))
  {
    DuplicateHasWinner(s, id);
    hide FlyingSeqs, StoredSeqs, Unique, FindByKey, OwnNumbers, SendsHold, IsDuplicate, Partition;
    QuietMove(s.log, s.sends, id, s.sends[id].(phase := Lost(s.sends[id].phase.seqNo)));
  }

  lemma InsertKeeps(s: State, id: nat)
    requires LogInv(s) && id in s.sends && s.sends[id].phase.Holding? && !IsDuplicate(s.log, NewMessage(s.sends[id]))
    ensures LogInv(Inserted(s, id))
  {
    hide FlyingSeqs, StoredSeqs, Unique, IsDuplicate, FindByKey, OwnNumbers, SendsHold, Partition;
    var m := NewMessage(s.sends[id]);
    UniqueAfter(s.log, m);
    SendsAfterInsert(s.log, s.sends, m);
    ReleaseMove(s.log + [m], s.sends, id, s.sends[id].(phase := Done(|s.log|)));
    PartitionStores(StoredSeqs(s.log), FlyingSeqs(s.sends), s.burnt, s.conv.lastSeq, m.seqNo);
    StoredAfter(s.log, m);
  }

  lemma UniqueAfter(log: seq<Message>, m: Message)
    requires Unique(log) && !IsDuplicate(log, m)
    ensures Unique(log + [m])
  {}

  /** Giving up a number burns it. */
  lemma BurnKeeps(s: State, id: nat, phase: Phase)
    requires LogInv(s) && id in s.sends && Holds(s.sends[id]) && !Holds(s.sends[id].(phase := phase))
    requires PhaseHolds(s.log, s.sends[id].(phase := phase))
    ensures LogInv(At(s.(burnt := s.burnt + {s.sends[id].phase.seqNo}), id, phase))
  {
    hide FlyingSeqs, StoredSeqs, Unique, OwnNumbers, SendsHold, Partition, PhaseHolds;
    ReleaseMove(s.log, s.sends, id, s.sends[id].(phase := phase));
    PartitionStores(StoredSeqs(s.log), FlyingSeqs(s.sends), s.burnt, s.conv.lastSeq, s.sends[id].phase.seqNo);
  }

  predicate SameIdentity(a: Message, b: Message) { a.seqNo == b.seqNo && a.sender == b.sender && a.key == b.key }

  /** Editing, removing or reacting to a message changes no number and no key. */
  lemma MutateKeeps(s: State, index: nat, m: Message)
    requires LogInv(s) && index < |s.log| && SameIdentity(s.log[index], m)
    ensures LogInv(s.(log := s.log[index := m]))
  {
    hide FlyingSeqs, StoredSeqs, FindByKey, Partition, OwnNumbers;
    StoredSame(s.log, index, m);
    forall id | id in s.sends ensures PhaseHolds(s.log[index := m], s.sends[id]) {
      assert PhaseHolds(s.log, s.sends[id]);
      FoundSame(s.log, index, m, s.sends[id].sender, s.sends[id].key);
    }
  }

  lemma SaveEditKeeps(r: Rules, s: State, id: nat, inWindow: bool, requestOpen: bool, live: bool, now: nat)
    requires LogInv(s)
    ensures LogInv(SavedEdit(r, s, id, inWindow, requestOpen, live, now))
  {
    hide Unique, OwnNumbers, FindByKey, StoredSeqs, FlyingSeqs, Partition, SendsHold;
    if id in s.edits {
      var e := s.edits[id];
      EditsDoNotMatter(s, s.(edits := s.edits - {id}));
      if IsOwn(s, e.user, e.index) {
        MutateKeeps(s.(edits := s.edits - {id}), e.index, Edited(s.log[e.index], Protect(r, e.text, e.policy), now));
      }
    }
  }

  lemma EditsDoNotMatter(s: State, t: State)
    requires LogInv(s) && t.log == s.log && t.sends == s.sends && t.burnt == s.burnt && t.conv.lastSeq == s.conv.lastSeq
    ensures LogInv(t)
  {
    hide Unique, OwnNumbers, FindByKey, StoredSeqs, FlyingSeqs, Partition, SendsHold;
  }

  lemma SendStepKeeps(r: Rules, s: State, step: Step)
    requires LogInv(s)
    requires step.Arrive? || step.Check? || step.Guard? || step.Allocate? || step.Insert? || step.Fallback?
      || step.Crash?
    ensures LogInv(Next(r, s, step))
  {
    hide LogInv, FindByKey, IsDuplicate, Numbered, Inserted;
    match step
    case Arrive(id, sender, key, draft) =>
      if id !in s.sends { ArriveKeeps(s, id, Send(sender, key, draft, Arrived(s.conv.policy))); }
    case Check(id) => CheckKeeps(s, id);
    case Guard(id, requestOpen, live, attachable) =>
      if id in s.sends && s.sends[id].phase.Unseen? {
        QuietKeeps(s, id, Guarded(r, s, id, requestOpen, live, attachable).sends[id].phase);
      }
    case Allocate(id) =>
      if id in s.sends && s.sends[id].phase.Ready? { AllocateKeeps(s, id); } else { NothingDone(s, id); }
    case Insert(id) =>
      if id in s.sends && s.sends[id].phase.Holding? {
        if IsDuplicate(s.log, NewMessage(s.sends[id])) { LostKeeps(s, id); } else { InsertKeeps(s, id); }
      } else { NothingDone(s, id); }
    case Fallback(id) => FallbackKeeps(s, id);
    case Crash(id) =>
      if id in s.sends && !IsSettled(s.sends[id]) {
        if Holds(s.sends[id]) { BurnKeeps(s, id, Failed); } else { QuietKeeps(s, id, Failed); }
      }
  }

  lemma NothingDone(s: State, id: nat)
    ensures !(id in s.sends && s.sends[id].phase.Ready?) ==> Numbered(s, id) == s
    ensures !(id in s.sends && s.sends[id].phase.Holding?) ==> Inserted(s, id) == s
  {}

  lemma CheckKeeps(s: State, id: nat)
    requires LogInv(s)
    ensures LogInv(Checked(s, id))
  {
    hide LogInv;
    if id in s.sends && s.sends[id].phase.Arrived? {
      var found := FindByKey(s.log, s.sends[id].sender, s.sends[id].key);
      QuietKeeps(s, id, if found.Some? then Done(found.value) else Unseen(s.sends[id].phase.policy));
    }
  }

  lemma FallbackKeeps(s: State, id: nat)
    requires LogInv(s)
    ensures LogInv(FellBack(s, id))
  {
    hide Unique, OwnNumbers, Partition;
    if id in s.sends && s.sends[id].phase.Lost? {
      assert PhaseHolds(s.log, s.sends[id]);
      BurnKeeps(s, id, Done(FindByKey(s.log, s.sends[id].sender, s.sends[id].key).value));
    }
  }

  lemma LogStepKeeps(r: Rules, s: State, step: Step)
    requires LogInv(s)
    ensures LogInv(Next(r, s, step))
  {
    hide LogInv, SavedEdit, Acknowledged, Numbered, Inserted, FellBack, Crashed, Guarded, Checked;
    match step
    case SaveEdit(id, inWindow, requestOpen, live, now) => SaveEditKeeps(r, s, id, inWindow, requestOpen, live, now);
    case Remove(user, index, inWindow) =>
      if IsOwn(s, user, index) { MutateKeeps(s, index, Touched(s.log[index]).(deleted := true)); }
    case React(user, index, emoji, requestOpen, live) =>
      if index < |s.log| { MutateKeeps(s, index, Reacted(s.log[index], user, emoji)); }
    case BeginEdit(id, user, index, text) => EditsDoNotMatter(s, Next(r, s, step));
    case BeginAck(id, role, delivered, read) => EditsDoNotMatter(s, Next(r, s, step));
    case SaveAck(id) => AckKeepsNumbers(s, id); EditsDoNotMatter(s, Next(r, s, step));
    case Unlock(now) => EditsDoNotMatter(s, Next(r, s, step));
    case _ => SendStepKeeps(r, s, step);
  }

  lemma AckKeepsNumbers(s: State, id: nat)
    ensures SavedAck(s, id).conv.lastSeq == s.conv.lastSeq && SavedAck(s, id).conv.policy == s.conv.policy
    ensures SavedAck(s, id).conv.unlockedAt == s.conv.unlockedAt
  {}

  // --------------------------------------------- watermarks, policy and bodies

  ghost predicate MarksHold(marks: Marks, last: nat) { marks.read <= marks.delivered <= last }

  ghost predicate IsMasked(r: Rules, body: Text) { exists text :: body == r.redact(text) }

  /** A phase read while UNLOCKED needs an UNLOCKED conversation; a body made while
      PROTECTED is masked. */
  ghost predicate PhaseIsSafe(r: Rules, policy: Policy, phase: Phase) {
    match phase
    case Arrived(p) => p == Unlocked ==> policy == Unlocked
    case Unseen(p) => p == Unlocked ==> policy == Unlocked
    case Ready(content) => policy == Protected ==> IsMasked(r, content.body)
    case Holding(content, _) => policy == Protected ==> IsMasked(r, content.body)
    case _ => true
  }

  ghost predicate ConversationInv(r: Rules, s: State) {
    && MarksHold(s.conv.client, s.conv.lastSeq) && MarksHold(s.conv.provider, s.conv.lastSeq)
    && (forall id :: id in s.acks ==> s.acks[id].lastSeq <= s.conv.lastSeq)
    && (s.conv.unlockedAt.Some? <==> s.conv.policy == Unlocked)
    && (forall id :: id in s.sends ==> PhaseIsSafe(r, s.conv.policy, s.sends[id].phase))
    && (forall id :: id in s.edits && s.edits[id].policy == Unlocked ==> s.conv.policy == Unlocked)
    && (s.conv.policy == Protected ==> forall i :: 0 <= i < |s.log| ==> IsMasked(r, s.log[i].content.body))
  }

  lemma AckKeeps(conv: Conversation, role: Role, lastSeq: nat, delivered: nat, read: Option<nat>)
    requires lastSeq <= conv.lastSeq && MarksHold(conv.client, conv.lastSeq) && MarksHold(conv.provider, conv.lastSeq)
    ensures var after := Acknowledged(conv, role, lastSeq, delivered, read);
      && MarksHold(after.client, conv.lastSeq) && MarksHold(after.provider, conv.lastSeq)
      && after == conv.(client := after.client, provider := after.provider)
      && conv.client.delivered <= after.client.delivered && conv.client.read <= after.client.read
      && conv.provider.delivered <= after.provider.delivered && conv.provider.read <= after.provider.read
  {}

  /** What an acknowledgement means: a message counts as read (delivered) exactly if it
      already did, or if it is acknowledged and existed when the operation began. The other
      side's marks stay as they were. */
  lemma AckReaches(conv: Conversation, role: Role, lastSeq: nat, delivered: nat, read: Option<nat>, n: nat)
    requires n >= 1
    ensures var before := conv.MarksOf(role);
      var after := Acknowledged(conv, role, lastSeq, delivered, read).MarksOf(role);
      var isRead := read.Some? && n <= read.value;
      && (n <= after.read <==> n <= before.read || (n <= lastSeq && isRead))
      && (n <= after.delivered <==> n <= before.delivered || (n <= lastSeq && (isRead || n <= delivered)))
    ensures forall other: Role :: other != role ==>
      Acknowledged(conv, role, lastSeq, delivered, read).MarksOf(other) == conv.MarksOf(other)
  {}

  lemma ProtectedIsMasked(r: Rules, text: Text, policy: Policy)
    ensures policy == Protected ==> IsMasked(r, Protect(r, text, policy).body)
  {}

  lemma NumberStepIsSafe(r: Rules, s: State, step: Step)
    requires ConversationInv(r, s) && (step.Allocate? || step.Insert?)
    ensures ConversationInv(r, Next(r, s, step))
  {
    hide IsDuplicate, IsMasked;
  }

  lemma SendStepIsSafe(r: Rules, s: State, step: Step)
    requires ConversationInv(r, s) && (step.Arrive? || step.Check? || step.Guard? || step.Fallback? || step.Crash?)
    ensures ConversationInv(r, Next(r, s, step))
  {
    hide FindByKey, IsMasked, Protect, CanSend;
    if step.Guard? && step.id in s.sends && s.sends[step.id].phase.Unseen? {
      ProtectedIsMasked(r, r.trim(s.sends[step.id].draft.text), s.sends[step.id].phase.policy);
    }
  }

  lemma ConversationStepKeeps(r: Rules, s: State, step: Step)
    requires ConversationInv(r, s)
    ensures ConversationInv(r, Next(r, s, step))
  {
    hide IsMasked, Protect, CanSend, PhaseIsSafe, Acknowledged, MarksHold;
    match step
    case BeginEdit(id, user, index, text) =>
    case SaveEdit(id, inWindow, requestOpen, live, now) =>
      if id in s.edits { ProtectedIsMasked(r, s.edits[id].text, s.edits[id].policy); }
    case Remove(user, index, inWindow) =>
    case React(user, index, emoji, requestOpen, live) =>
    case BeginAck(id, role, delivered, read) =>
    case SaveAck(id) =>
      if id in s.acks { AckKeeps(s.conv, s.acks[id].role, s.acks[id].lastSeq, s.acks[id].delivered, s.acks[id].read); }
    case Unlock(now) => UnlockKeeps(r, s, now);
    case Allocate(id) => NumberStepIsSafe(r, s, step);
    case Insert(id) => NumberStepIsSafe(r, s, step);
    case _ => SendStepIsSafe(r, s, step);
  }

  lemma UnlockKeeps(r: Rules, s: State, now: nat)
    requires ConversationInv(r, s)
    ensures ConversationInv(r, s.(conv := UnlockedAt(s.conv, now)))
  {}

  ghost predicate Inv(r: Rules, s: State) { LogInv(s) && ConversationInv(r, s) }

  lemma InitialHolds(r: Rules)
    ensures Inv(r, Initial())
  {}

  /** Over every interleaving: read <= delivered <= lastSeq for both sides, and while the
      contact policy is PROTECTED every stored body, sent or edited, is masked. */
  lemma {:induction false} EveryRunKeeps(r: Rules, s: State, steps: seq<Step>)
    requires Inv(r, s)
    ensures Inv(r, Run(r, s, steps))
    decreases |steps|
  {
    hide LogInv, ConversationInv, Next;
    if steps != [] {
      LogStepKeeps(r, s, steps[0]);
      ConversationStepKeeps(r, s, steps[0]);
      EveryRunKeeps(r, Next(r, s, steps[0]), steps[1..]);
    }
  }

  // -------------------------------------------------------------------- replies

  predicate PassedGuards(send: Send) { send.phase.Ready? || send.phase.Holding? }

  ghost predicate RepliesHold(s: State) {
    && (forall i :: 0 <= i < |s.log| && s.log[i].replyTo.Some? ==> s.log[i].replyTo.value < i)
    && (forall id :: id in s.sends && PassedGuards(s.sends[id]) && s.sends[id].draft.replyTo.Some? ==>
          s.sends[id].draft.replyTo.value < |s.log|)
  }

  lemma RepliesSendStep(r: Rules, s: State, step: Step)
    requires RepliesHold(s)
    requires step.Arrive? || step.Check? || step.Guard? || step.Allocate? || step.Insert? || step.Fallback?
      || step.Crash?
    ensures RepliesHold(Next(r, s, step))
  {
    hide FindByKey, IsDuplicate, Protect, CanSend, Distinct;
  }

  lemma RepliesStep(r: Rules, s: State, step: Step)
    requires RepliesHold(s)
    ensures RepliesHold(Next(r, s, step))
  {
    hide Checked, Guarded, Numbered, Inserted, FellBack, Crashed, Protect, CanSend, Acknowledged;
    match step
    case BeginEdit(id, user, index, text) =>
    case SaveEdit(id, inWindow, requestOpen, live, now) =>
    case Remove(user, index, inWindow) =>
    case React(user, index, emoji, requestOpen, live) =>
    case BeginAck(id, role, delivered, read) =>
    case SaveAck(id) =>
    case Unlock(now) =>
    case _ => RepliesSendStep(r, s, step);
  }

  /** Over every interleaving a reply points to an earlier message of the conversation. */
  lemma {:induction false} RepliesPointBack(r: Rules, s: State, steps: seq<Step>)
    requires RepliesHold(s)
    ensures RepliesHold(Run(r, s, steps))
    decreases |steps|
  {
    hide RepliesHold, Next;
    if steps != [] {
      RepliesStep(r, s, steps[0]);
      RepliesPointBack(r, Next(r, s, steps[0]), steps[1..]);
    }
  }

  lemma {:induction false} AttachmentsAreDistinct(ids: seq<nat>)
    ensures forall id :: id in Distinct(ids) <==> id in ids
    ensures forall i, j :: 0 <= i < j < |Distinct(ids)| ==> Distinct(ids)[i] != Distinct(ids)[j]
  {
    if ids != [] {
      AttachmentsAreDistinct(ids[..|ids| - 1]);
      assert forall id :: id in ids <==> id in ids[..|ids| - 1] || id == ids[|ids| - 1];
    }
  }

  // --------------------------------------------------------------- exactly once

  // ---------------------------------------------- who may change what of a message

  /** What is stored of a text handed in while the contact policy was `policy`. */
  function StoredText(r: Rules, policy: Policy, text: Text): Text {
    if policy == Unlocked then text else r.redact(text)
  }

  /** Saving the edit changes message `i`: its own sender began it, the message is live and
      the conversation still open to it. */
  predicate EditAllowed(s: State, step: Step, i: nat)
    requires i < |s.log|
  {
    && step.SaveEdit? && step.id in s.edits
    && var e := s.edits[step.id];
    && e.index == i && e.user == s.log[i].sender && !s.log[i].deleted && step.inWindow && step.requestOpen
    && (e.policy == Unlocked || step.live)
  }

  lemma OthersLeaveMessages(r: Rules, s: State, step: Step, i: nat)
    requires i < |s.log| && !step.SaveEdit? && !step.Remove? && !step.React?
    ensures i < |Next(r, s, step).log| && Next(r, s, step).log[i] == s.log[i]
  {
    hide FindByKey, IsDuplicate, Acknowledged, MayPost, Distinct, Protect;
  }

  /** One step changes the words of a message exactly when it saves an edit of its own sender;
      the new body is what is stored of the edit's text, and detections are only added. */
  lemma OnlyItsSenderEdits(r: Rules, s: State, step: Step, i: nat)
    requires i < |s.log|
    ensures i < |Next(r, s, step).log|
    ensures var m, after := s.log[i], Next(r, s, step).log[i];
      if EditAllowed(s, step, i)
      then
        var e := s.edits[step.id];
        && after.content.body == StoredText(r, e.policy, e.text) && after.editedAt == Some(step.now)
        && after.content.redactions == m.content.redactions + (if e.policy == Unlocked then [] else r.detect(e.text))
        && after.version == m.version + 1
      else after.content == m.content && after.editedAt == m.editedAt
  {
    if !step.SaveEdit? && !step.Remove? && !step.React? {
      hide Next, CanSend;
      OthersLeaveMessages(r, s, step, i);
    }
  }

  /** One step deletes a message exactly when its sender removes it in time. */
  lemma OnlyItsSenderRemoves(r: Rules, s: State, step: Step, i: nat)
    requires i < |s.log|
    ensures i < |Next(r, s, step).log|
    ensures var m, after := s.log[i], Next(r, s, step).log[i];
      after.deleted <==>
        m.deleted || (step.Remove? && step.index == i && step.user == m.sender && step.inWindow)
  {
    hide Protect;
    if !step.SaveEdit? && !step.Remove? && !step.React? {
      hide Next, CanSend;
      OthersLeaveMessages(r, s, step, i);
    }
  }

  /** One step sets or takes back the reaction of the user who reacts, to a live message of an
      open conversation, and no other user's. */
  lemma OnlyOnesOwnReaction(r: Rules, s: State, step: Step, i: nat, user: Role)
    requires i < |s.log|
    ensures i < |Next(r, s, step).log|
    ensures var m, after := s.log[i], Next(r, s, step).log[i];
      if step.React? && step.index == i && step.user == user && !m.deleted && step.requestOpen
        && (s.conv.policy == Unlocked || step.live)
      then
        if step.emoji.Some? then user in after.reactions && after.reactions[user] == step.emoji.value
        else user !in after.reactions
      else
        && (user in after.reactions <==> user in m.reactions)
        && (user in m.reactions ==> after.reactions[user] == m.reactions[user])
  {
    hide Protect;
    if !step.SaveEdit? && !step.Remove? && !step.React? {
      hide Next, CanSend;
      OthersLeaveMessages(r, s, step, i);
    }
  }

  /** A step of a run, with the contact policy the conversation had when it was taken. */
  datatype Event = Event(policy: Policy, step: Step)

  function History(r: Rules, s: State, steps: seq<Step>): seq<Event>
    decreases |steps|
  {
    if steps == [] then [] else [Event(s.conv.policy, steps[0])] + History(r, Next(r, s, steps[0]), steps[1..])
  }

  /** What is kept of a text sent: its body and what was detected in it. */
  predicate Keeps(r: Rules, e: Event, content: Content)
    requires e.step.Arrive?
  {
    var text := r.trim(e.step.draft.text);
    && content.body == StoredText(r, e.policy, text)
    && content.redactions == (if e.policy == Unlocked then [] else r.detect(text))
  }

  /** The event let the send that arrived with the other one past its guards: the request open,
      the candidacy live unless the contact is unlocked, the media attachable. */
  predicate Admits(g: Event, e: Event) {
    && e.step.Arrive? && g.step.Guard? && g.step.id == e.step.id
    && g.step.requestOpen && (e.policy == Unlocked || g.step.live) && g.step.attachable
  }

  /** The event is the arrival of this send, whose text is kept as it was read then. */
  predicate Sends(r: Rules, e: Event, id: nat, send: Send) {
    && e.step.Arrive? && e.step.id == id
    && e.step.sender == send.sender && e.step.key == send.key && e.step.draft == send.draft
    && match send.phase
       case Arrived(policy) => policy == e.policy
       case Unseen(policy) => policy == e.policy
       case Ready(content) => Keeps(r, e, content)
       case Holding(content, _) => Keeps(r, e, content)
       case Lost(_) => true
       case Done(_) => true
       case Failed => true
       case Rethrown => true
  }

  predicate Edits(e: Event, edit: Edit) {
    && e.step.BeginEdit? && e.step.user == edit.user && e.step.index == edit.index && e.step.text == edit.text
    && e.policy == edit.policy
  }

  /** The events are the sending of this message and its passing the guards: what it carries
      besides its words is the draft's, and what was detected then is recorded. */
  predicate Posts(r: Rules, e: Event, g: Event, m: Message) {
    && e.step.Arrive? && e.step.sender == m.sender && e.step.key == m.key && Admits(g, e)
    && m.attachments == Distinct(e.step.draft.attachments) && m.replyTo == e.step.draft.replyTo
    && (if e.policy == Unlocked then [] else r.detect(r.trim(e.step.draft.text))) <= m.content.redactions
  }

  /** The words of the message, the `i`th of the log, are those its sender handed in: sent,
      or in an edit. */
  predicate Words(r: Rules, e: Event, m: Message, i: nat) {
    || (e.step.Arrive? && e.step.sender == m.sender && e.step.key == m.key
        && m.content.body == StoredText(r, e.policy, r.trim(e.step.draft.text)))
    || (e.step.BeginEdit? && e.step.user == m.sender && e.step.index == i
        && m.content.body == StoredText(r, e.policy, e.step.text))
  }

  predicate Removes(e: Event, m: Message, i: nat) {
    e.step.Remove? && e.step.user == m.sender && e.step.index == i && e.step.inWindow
  }

  predicate Reacts(e: Event, user: Role, emoji: nat, i: nat) {
    e.step.React? && e.step.user == user && e.step.index == i && e.step.emoji == Some(emoji)
  }

  ghost predicate SendKnown(r: Rules, h: seq<Event>, id: nat, send: Send) {
    exists e :: e in h && Sends(r, e, id, send) && (PassedGuards(send) ==> exists g :: g in h && Admits(g, e))
  }

  ghost predicate EditKnown(h: seq<Event>, edit: Edit) { exists e :: e in h && Edits(e, edit) }

  ghost predicate PostKnown(r: Rules, h: seq<Event>, m: Message) {
    exists e, g :: e in h && g in h && Posts(r, e, g, m)
  }

  ghost predicate WordsKnown(r: Rules, h: seq<Event>, m: Message, i: nat) { exists e :: e in h && Words(r, e, m, i) }

  ghost predicate RemovalKnown(h: seq<Event>, m: Message, i: nat) {
    m.deleted ==> exists e :: e in h && Removes(e, m, i)
  }

  ghost predicate ReactionsKnown(h: seq<Event>, m: Message, i: nat) {
    forall user :: user in m.reactions ==> exists e :: e in h && Reacts(e, user, m.reactions[user], i)
  }

  /** All that is stored of a message was done by the one it is stored for. */
  ghost predicate MessageKnown(r: Rules, h: seq<Event>, m: Message, i: nat) {
    PostKnown(r, h, m) && WordsKnown(r, h, m, i) && RemovalKnown(h, m, i) && ReactionsKnown(h, m, i)
  }

  ghost predicate AllKnown(r: Rules, s: State, h: seq<Event>) {
    && (forall id :: id in s.sends ==> SendKnown(r, h, id, s.sends[id]))
    && (forall id :: id in s.edits ==> EditKnown(h, s.edits[id]))
    && (forall i :: 0 <= i < |s.log| ==> MessageKnown(r, h, s.log[i], i))
  }

  predicate SamePost(m: Message, after: Message) {
    && m.sender == after.sender && m.key == after.key && m.attachments == after.attachments
    && m.replyTo == after.replyTo && m.content.redactions <= after.content.redactions
  }

  lemma PostStaysKnown(r: Rules, h: seq<Event>, e: Event, m: Message, after: Message)
    requires PostKnown(r, h, m) && SamePost(m, after)
    ensures PostKnown(r, h + [e], after)
  {
    var x, g :| x in h && g in h && Posts(r, x, g, m);
    assert x in h + [e] && g in h + [e] && Posts(r, x, g, after);
  }

  lemma WordsStayKnown(r: Rules, h: seq<Event>, e: Event, m: Message, after: Message, i: nat)
    requires WordsKnown(r, h, m, i) && SamePost(m, after) && m.content.body == after.content.body
    ensures WordsKnown(r, h + [e], after, i)
  {
    var x :| x in h && Words(r, x, m, i);
    assert x in h + [e] && Words(r, x, after, i);
  }

  lemma EditIsWords(r: Rules, h: seq<Event>, e: Event, edit: Edit, after: Message, i: nat)
    requires EditKnown(h, edit) && edit.user == after.sender && edit.index == i
    requires after.content.body == StoredText(r, edit.policy, edit.text)
    ensures WordsKnown(r, h + [e], after, i)
  {
    var x :| x in h && Edits(x, edit);
    assert x in h + [e] && Words(r, x, after, i);
  }

  lemma RemovalStaysKnown(h: seq<Event>, e: Event, m: Message, after: Message, i: nat)
    requires RemovalKnown(h, m, i) && SamePost(m, after)
    requires after.deleted ==> m.deleted || Removes(e, m, i)
    ensures RemovalKnown(h + [e], after, i)
  {
    if after.deleted {
      if m.deleted {
        var x :| x in h && Removes(x, m, i);
        assert x in h + [e] && Removes(x, after, i);
      } else {
        assert e in h + [e] && Removes(e, after, i);
      }
    }
  }

  lemma ReactionsStayKnown(h: seq<Event>, e: Event, m: Message, after: Message, i: nat)
    requires ReactionsKnown(h, m, i)
    requires forall user :: user in after.reactions ==>
      (user in m.reactions && after.reactions[user] == m.reactions[user]) || Reacts(e, user, after.reactions[user], i)
    ensures ReactionsKnown(h + [e], after, i)
  {
    forall user | user in after.reactions
      ensures exists x :: x in h + [e] && Reacts(x, user, after.reactions[user], i)
    {
      if user in m.reactions && after.reactions[user] == m.reactions[user] {
        var x :| x in h && Reacts(x, user, m.reactions[user], i);
        assert x in h + [e];
      } else {
        assert e in h + [e];
      }
    }
  }

  /** A phase the send moves on to without passing its guards. */
  predicate MovesOn(send: Send, phase: Phase) {
    || phase == send.phase || phase.Lost? || phase.Done? || phase.Failed? || phase.Rethrown?
    || (send.phase.Arrived? && phase == Unseen(send.phase.policy))
    || (send.phase.Ready? && phase.Holding? && phase.content == send.phase.content)
  }

  lemma SendStaysKnown(r: Rules, h: seq<Event>, e: Event, id: nat, send: Send, phase: Phase)
    requires SendKnown(r, h, id, send) && MovesOn(send, phase)
    ensures SendKnown(r, h + [e], id, send.(phase := phase))
  {
    var x :| x in h && Sends(r, x, id, send) && (PassedGuards(send) ==> exists g :: g in h && Admits(g, x));
    if PassedGuards(send) {
      var g :| g in h && Admits(g, x);
      assert g in h + [e];
    }
    assert x in h + [e] && Sends(r, x, id, send.(phase := phase));
  }

  lemma SendIsAdmitted(r: Rules, h: seq<Event>, e: Event, id: nat, send: Send)
    requires SendKnown(r, h, id, send) && send.phase.Unseen?
    requires e.step.Guard? && e.step.id == id
    requires CanSend(send.phase.policy, e.step.requestOpen, e.step.live) && e.step.attachable
    ensures SendKnown(r, h + [e], id,
      send.(phase := Ready(Protect(r, r.trim(send.draft.text), send.phase.policy))))
  {
    var x :| x in h && Sends(r, x, id, send);
    assert x in h + [e] && e in h + [e] && Admits(e, x);
    assert Sends(r, x, id, send.(phase := Ready(Protect(r, r.trim(send.draft.text), send.phase.policy))));
  }

  /** How a step treats a send: it starts it, lets it past its guards, or moves it on. */
  lemma SendStepIs(r: Rules, s: State, step: Step, id: nat)
    requires id in Next(r, s, step).sends
    ensures var after := Next(r, s, step).sends[id];
      if id !in s.sends
      then step.Arrive? && step.id == id && after == Send(step.sender, step.key, step.draft, Arrived(s.conv.policy))
      else
        var send := s.sends[id];
        && after == send.(phase := after.phase)
        && (|| MovesOn(send, after.phase)
            || (&& send.phase.Unseen? && step.Guard? && step.id == id && step.attachable
                && CanSend(send.phase.policy, step.requestOpen, step.live)
                && after.phase == Ready(Protect(r, r.trim(send.draft.text), send.phase.policy))))
  {
    hide FindByKey, IsDuplicate, Acknowledged, NewMessage, Protect, CanSend;
  }

  lemma SendsStayKnown(r: Rules, s: State, step: Step, h: seq<Event>, id: nat)
    requires AllKnown(r, s, h) && id in Next(r, s, step).sends
    ensures SendKnown(r, h + [Event(s.conv.policy, step)], id, Next(r, s, step).sends[id])
  {
    hide Next, Protect, CanSend, SendKnown, EditKnown, MessageKnown, MovesOn;
    var e, after := Event(s.conv.policy, step), Next(r, s, step).sends[id];
    SendStepIs(r, s, step, id);
    if id !in s.sends {
      SendBegins(r, h, e, id, after);
    } else if MovesOn(s.sends[id], after.phase) {
      SendStaysKnown(r, h, e, id, s.sends[id], after.phase);
    } else {
      SendIsAdmitted(r, h, e, id, s.sends[id]);
    }
  }

  lemma SendBegins(r: Rules, h: seq<Event>, e: Event, id: nat, send: Send)
    requires e.step.Arrive? && e.step.id == id
    requires send == Send(e.step.sender, e.step.key, e.step.draft, Arrived(e.policy))
    ensures SendKnown(r, h + [e], id, send)
  {
    assert e in h + [e] && Sends(r, e, id, send);
  }

  lemma EditsStayKnown(r: Rules, s: State, step: Step, h: seq<Event>, id: nat)
    requires AllKnown(r, s, h) && id in Next(r, s, step).edits
    ensures EditKnown(h + [Event(s.conv.policy, step)], Next(r, s, step).edits[id])
  {
    hide FindByKey, IsDuplicate, Acknowledged, MayPost, NewMessage, Protect, CanSend, SendKnown, MessageKnown;
    var e, after := Event(s.conv.policy, step), Next(r, s, step);
    if id in s.edits {
      assert after.edits[id] == s.edits[id];
      var x :| x in h && Edits(x, s.edits[id]);
      assert x in h + [e];
    } else {
      assert e in h + [e] && Edits(e, after.edits[id]);
    }
  }

  lemma StepKeepsPost(r: Rules, s: State, step: Step, i: nat)
    requires i < |s.log|
    ensures i < |Next(r, s, step).log| && SamePost(s.log[i], Next(r, s, step).log[i])
  {
    hide Protect, CanSend;
    if !step.SaveEdit? && !step.Remove? && !step.React? {
      hide Next;
      OthersLeaveMessages(r, s, step, i);
    }
  }

  lemma MessageStaysKnown(r: Rules, s: State, step: Step, h: seq<Event>, i: nat)
    requires AllKnown(r, s, h) && i < |s.log|
    ensures i < |Next(r, s, step).log| && MessageKnown(r, h + [Event(s.conv.policy, step)], Next(r, s, step).log[i], i)
  {
    hide Next, SendKnown, EditKnown, PostKnown, WordsKnown, RemovalKnown, ReactionsKnown, SamePost;
    assert MessageKnown(r, h, s.log[i], i);
    StepKeepsPost(r, s, step, i);
    var e, m, after := Event(s.conv.policy, step), s.log[i], Next(r, s, step).log[i];
    PostStaysKnown(r, h, e, m, after);
    OnlyItsSenderEdits(r, s, step, i);
    if EditAllowed(s, step, i) {
      SenderStays(m, after);
      EditIsWords(r, h, e, s.edits[step.id], after, i);
    } else {
      WordsStayKnown(r, h, e, m, after, i);
    }
    OnlyItsSenderRemoves(r, s, step, i);
    RemovalStaysKnown(h, e, m, after, i);
    forall user | user in after.reactions
      ensures (user in m.reactions && after.reactions[user] == m.reactions[user])
        || Reacts(e, user, after.reactions[user], i)
    {
      OnlyOnesOwnReaction(r, s, step, i, user);
    }
    ReactionsStayKnown(h, e, m, after, i);
  }

  lemma SenderStays(m: Message, after: Message)
    requires SamePost(m, after)
    ensures m.sender == after.sender
  {}

  /** A step adds at most the message of a send that holds its number. */
  lemma StepAdds(r: Rules, s: State, step: Step)
    ensures var log := Next(r, s, step).log;
      || |log| == |s.log|
      || (&& step.Insert? && step.id in s.sends && s.sends[step.id].phase.Holding?
          && log == s.log + [NewMessage(s.sends[step.id])])
  {
    hide FindByKey, IsDuplicate, Acknowledged, MayPost, NewMessage, Protect, CanSend;
  }

  lemma NewMessageIsKnown(r: Rules, h: seq<Event>, e: Event, id: nat, send: Send, i: nat)
    requires SendKnown(r, h, id, send) && send.phase.Holding?
    ensures MessageKnown(r, h + [e], NewMessage(send), i)
  {
    var x :| x in h && Sends(r, x, id, send) && exists g :: g in h && Admits(g, x);
    var g :| g in h && Admits(g, x);
    assert x in h + [e] && g in h + [e] && Posts(r, x, g, NewMessage(send)) && Words(r, x, NewMessage(send), i);
  }

  lemma StepIsKnown(r: Rules, s: State, step: Step, h: seq<Event>)
    requires AllKnown(r, s, h)
    ensures AllKnown(r, Next(r, s, step), h + [Event(s.conv.policy, step)])
  {
    hide Next, SendKnown, EditKnown, MessageKnown, NewMessage;
    var e, after := Event(s.conv.policy, step), Next(r, s, step);
    forall id | id in after.sends ensures SendKnown(r, h + [e], id, after.sends[id]) {
      SendsStayKnown(r, s, step, h, id);
    }
    forall id | id in after.edits ensures EditKnown(h + [e], after.edits[id]) { EditsStayKnown(r, s, step, h, id); }
    StepAdds(r, s, step);
    forall i | 0 <= i < |after.log| ensures MessageKnown(r, h + [e], after.log[i], i) {
      if i < |s.log| {
        MessageStaysKnown(r, s, step, h, i);
      } else {
        NewMessageIsKnown(r, h, e, step.id, s.sends[step.id], i);
      }
    }
  }

  lemma {:induction false} RunIsKnown(r: Rules, s: State, steps: seq<Step>, h: seq<Event>)
    requires AllKnown(r, s, h)
    ensures AllKnown(r, Run(r, s, steps), h + History(r, s, steps))
    decreases |steps|
  {
    hide AllKnown, Next;
    if steps == [] {
      assert h + [] == h;
    } else {
      var e := Event(s.conv.policy, steps[0]);
      StepIsKnown(r, s, steps[0], h);
      RunIsKnown(r, Next(r, s, steps[0]), steps[1..], h + [e]);
      assert h + History(r, s, steps) == h + [e] + History(r, Next(r, s, steps[0]), steps[1..]);
    }
  }

  /** Over every interleaving nobody speaks for another: a message was sent by its sender and let
      past the guards, with its attachments and reply target, and what was detected in it is
      recorded; its words are those its sender sent or put in an edit of it, trimmed if sent,
      unmasked exactly if the policy read then was UNLOCKED; only its sender deleted it, and each
      reaction was given by the user it stands for. */
  lemma NobodySpeaksForAnother(r: Rules, steps: seq<Step>, i: nat)
    requires i < |Run(r, Initial(), steps).log|
    ensures var m, h := Run(r, Initial(), steps).log[i], History(r, Initial(), steps);
      && (exists e, g :: e in h && g in h && Posts(r, e, g, m))
      && (exists e :: e in h && Words(r, e, m, i))
      && (m.deleted ==> exists e :: e in h && Removes(e, m, i))
      && (forall user :: user in m.reactions ==> exists e :: e in h && Reacts(e, user, m.reactions[user], i))
  {
    hide Run, History, Posts, Words, Removes, Reacts;
    RunIsKnown(r, Initial(), steps, []);
    assert [] + History(r, Initial(), steps) == History(r, Initial(), steps);
    assert MessageKnown(r, History(r, Initial(), steps), Run(r, Initial(), steps).log[i], i);
  }

  predicate SameKey(a: Send, b: Send) { a.sender == b.sender && a.key == b.key }

  /** No send ever reaches the fallback without a winner, and two sends of one key that
      complete return the same stored message, the only one with that key. */
  lemma SentExactlyOnce(r: Rules, steps: seq<Step>, a: nat)
    ensures var s := Run(r, Initial(), steps);
      a in s.sends ==>
        && !s.sends[a].phase.Rethrown?
        && (s.sends[a].phase.Done? ==>
            var index := s.sends[a].phase.index;
            && index < |s.log|
            && (forall i :: 0 <= i < |s.log| ==> (HasKey(s.log[i], s.sends[a].sender, s.sends[a].key) <==> i == index))
            && (forall b :: b in s.sends && s.sends[b].phase.Done? && SameKey(s.sends[a], s.sends[b]) ==>
                  s.sends[b].phase.index == index))
  {
    hide Run, Next, Partition, OwnNumbers, FindByKey;
    InitialHolds(r);
    EveryRunKeeps(r, Initial(), steps);
    var s := Run(r, Initial(), steps);
    if a in s.sends {
      assert PhaseHolds(s.log, s.sends[a]);
      forall b | b in s.sends && s.sends[b].phase.Done? && SameKey(s.sends[a], s.sends[b]) && s.sends[a].phase.Done?
        ensures s.sends[b].phase.index == s.sends[a].phase.index
      {
        assert PhaseHolds(s.log, s.sends[b]);
      }
    }
  }

  function FlyingIds(sends: map<nat, Send>): set<nat> { set id | id in sends && Holds(sends[id]) }

  lemma {:induction false} CountStored(log: seq<Message>)
    requires Unique(log)
    ensures |StoredSeqs(log)| == |log|
  {
    if log != [] {
      var front := log[..|log| - 1];
      CountStored(front);
      StoredAfter(front, log[|log| - 1]);
      assert front + [log[|log| - 1]] == log;
      assert log[|log| - 1].seqNo !in StoredSeqs(front);
    }
  }

  lemma {:induction false} CountFlying(sends: map<nat, Send>, ids: set<nat>)
    requires OwnNumbers(sends) && ids <= FlyingIds(sends)
    ensures |set id | id in ids :: sends[id].phase.seqNo| == |ids|
  {
    if ids != {} {
      var one :| one in ids;
      var rest := ids - {one};
      CountFlying(sends, rest);
      var all := set id | id in ids :: sends[id].phase.seqNo;
      var others := set id | id in rest :: sends[id].phase.seqNo;
      assert all == others + {sends[one].phase.seqNo};
      assert sends[one].phase.seqNo !in others;
    }
  }

  lemma CountUnion(a: set<nat>, b: set<nat>, c: set<nat>)
    requires a !! b && a !! c && b !! c
    ensures |a + b + c| == |a| + |b| + |c|
  {}

  /** Conservation of numbers: each allocated number is a stored message, a send still in
      flight, or a send that failed after allocating it. */
  lemma NumbersAreConserved(r: Rules, steps: seq<Step>)
    ensures var s := Run(r, Initial(), steps);
      s.conv.lastSeq == |s.log| + |FlyingIds(s.sends)| + |s.burnt|
  {
    hide Run, Next, SendsHold, FlyingIds, ConversationInv, StoredSeqs;
    InitialHolds(r);
    EveryRunKeeps(r, Initial(), steps);
    var s := Run(r, Initial(), steps);
    CountStored(s.log);
    FlyingByIds(s.sends);
    CountUnion(StoredSeqs(s.log), FlyingSeqs(s.sends), s.burnt);
  }

  lemma FlyingByIds(sends: map<nat, Send>)
    requires OwnNumbers(sends)
    ensures |FlyingSeqs(sends)| == |FlyingIds(sends)|
  {
    CountFlying(sends, FlyingIds(sends));
    assert FlyingSeqs(sends) == set id | id in FlyingIds(sends) :: sends[id].phase.seqNo;
  }

  // ------------------------------------------------------------------ over time

  /** A later reading of a message: the same one, or a higher version of it. What it carried,
      what it replied to and what was ever detected in it stays on record. */
  predicate Revises(a: Message, b: Message) {
    && SameIdentity(a, b) && (a == b || a.version < b.version) && (a.deleted ==> b.deleted)
    && a.attachments == b.attachments && a.replyTo == b.replyTo && a.content.redactions <= b.content.redactions
  }

  ghost predicate LogGrew(a: seq<Message>, b: seq<Message>) {
    |a| <= |b| && forall i :: 0 <= i < |a| ==> Revises(a[i], b[i])
  }

  ghost predicate ConversationMoved(a: Conversation, b: Conversation) {
    && a.lastSeq <= b.lastSeq
    && a.client.delivered <= b.client.delivered && a.client.read <= b.client.read
    && a.provider.delivered <= b.provider.delivered && a.provider.read <= b.provider.read
    && (a.policy == Unlocked ==> b.policy == Unlocked && b.unlockedAt == a.unlockedAt)
  }

  ghost predicate SendsStay(a: map<nat, Send>, b: map<nat, Send>) {
    forall id :: id in a ==> id in b && b[id] == a[id].(phase := b[id].phase) && (IsSettled(a[id]) ==> b[id] == a[id])
  }

  ghost predicate MovesTo(s: State, t: State) {
    LogGrew(s.log, t.log) && ConversationMoved(s.conv, t.conv) && SendsStay(s.sends, t.sends)
  }

  lemma MovesAreTransitive(s: State, t: State, u: State)
    requires MovesTo(s, t) && MovesTo(t, u)
    ensures MovesTo(s, u)
  {
    forall i | 0 <= i < |s.log| ensures Revises(s.log[i], u.log[i]) {
      assert Revises(s.log[i], t.log[i]) && Revises(t.log[i], u.log[i]);
    }
  }

  lemma AtMoves(s: State, t: State, id: nat, phase: Phase)
    requires id in s.sends && !IsSettled(s.sends[id]) && t.sends == s.sends
    requires LogGrew(s.log, t.log) && ConversationMoved(s.conv, t.conv)
    ensures MovesTo(s, At(t, id, phase))
  {
    hide LogGrew, ConversationMoved, IsSettled;
  }

  /** A send step changes one phase, and at most allocates a number or stores a message. */
  lemma SendStepIsAt(r: Rules, s: State, step: Step) returns (t: State, phase: Phase)
    requires step.Check? || step.Guard? || step.Allocate? || step.Insert? || step.Fallback? || step.Crash?
    ensures Next(r, s, step) == s ||
      (&& step.id in s.sends && !IsSettled(s.sends[step.id]) && t.sends == s.sends
        && Next(r, s, step) == At(t, step.id, phase)
       && (t.conv == s.conv || t.conv == Allocated(s.conv)) && (t.log == s.log || exists m :: t.log == s.log + [m]))
  {
    hide FindByKey, IsDuplicate, Protect, CanSend, NewMessage, At;
    t, phase := s, Failed;
    if step.id in s.sends {
      var send := s.sends[step.id];
      match step
      case Check(_) =>
        var found := FindByKey(s.log, send.sender, send.key);
        if send.phase.Arrived? { phase := if found.Some? then Done(found.value) else Unseen(send.phase.policy); }
      case Guard(_, requestOpen, live, attachable) =>
        if send.phase.Unseen? && MayPost(s.log, send.draft, send.phase.policy, requestOpen, live, attachable) {
          phase := Ready(Protect(r, r.trim(send.draft.text), send.phase.policy));
        }
      case Allocate(_) =>
        if send.phase.Ready? {
          t, phase := s.(conv := Allocated(s.conv)), Holding(send.phase.content, s.conv.lastSeq + 1);
        }
      case Insert(_) =>
        if send.phase.Holding? {
          if IsDuplicate(s.log, NewMessage(send)) { phase := Lost(send.phase.seqNo); }
          else { t, phase := s.(log := s.log + [NewMessage(send)]), Done(|s.log|); }
        }
      case Fallback(_) =>
        var winner := FindByKey(s.log, send.sender, send.key);
        if send.phase.Lost? {
          t, phase := s.(burnt := s.burnt + {send.phase.seqNo}), if winner.Some? then Done(winner.value) else Rethrown;
        }
      case Crash(_) => if Holds(send) { t := s.(burnt := s.burnt + {send.phase.seqNo}); }
      case _ =>
    }
  }

  lemma SendStepMoves(r: Rules, s: State, step: Step)
    requires step.Arrive? || step.Check? || step.Guard? || step.Allocate? || step.Insert? || step.Fallback?
      || step.Crash?
    ensures MovesTo(s, Next(r, s, step))
  {
    if step.Arrive? {
      MovesNowhere(s);
    } else {
      var t, phase := SendStepIsAt(r, s, step);
      hide Next, IsSettled, At;
      if Next(r, s, step) == s { MovesNowhere(s); } else { AtMoves(s, t, step.id, phase); }
    }
  }

  /** A step that revises one message, or none. */
  lemma RevisionMoves(r: Rules, s: State, step: Step)
    requires step.SaveEdit? || step.Remove? || step.React?
    ensures MovesTo(s, Next(r, s, step))
  {
    hide Protect, CanSend, ConversationMoved, SendsStay;
    assert ConversationMoved(s.conv, s.conv) && SendsStay(s.sends, s.sends) by { MovesNowhere(s); }
  }

  lemma StepMoves(r: Rules, s: State, step: Step)
    requires ConversationInv(r, s)
    ensures MovesTo(s, Next(r, s, step))
  {
    hide Protect, CanSend, IsMasked, PhaseIsSafe, Acknowledged, Checked, Guarded, Numbered, Inserted, FellBack, Crashed,
      SavedEdit, Removed, WithReaction;
    match step
    case BeginEdit(id, user, index, text) =>
    case SaveEdit(id, inWindow, requestOpen, live, now) => RevisionMoves(r, s, step);
    case Remove(user, index, inWindow) => RevisionMoves(r, s, step);
    case React(user, index, emoji, requestOpen, live) => RevisionMoves(r, s, step);
    case BeginAck(id, role, delivered, read) =>
    case SaveAck(id) =>
      if id in s.acks {
        AckKeeps(s.conv, s.acks[id].role, s.acks[id].lastSeq, s.acks[id].delivered, s.acks[id].read);
      }
    case Unlock(now) =>
    case _ => SendStepMoves(r, s, step);
  }

  /** Over every interleaving: stored messages keep their place, number and key; versions
      and watermarks only grow; the contact policy moves once, from PROTECTED to
      UNLOCKED, and keeps its first unlock time; a completed send keeps its answer. */
  lemma {:induction false} EveryRunMovesOn(r: Rules, s: State, steps: seq<Step>)
    requires Inv(r, s)
    ensures MovesTo(s, Run(r, s, steps))
    decreases |steps|
  {
    hide LogInv, ConversationInv, Next, LogGrew, ConversationMoved, SendsStay;
    if steps == [] {
      MovesNowhere(s);
    } else {
      LogStepKeeps(r, s, steps[0]);
      ConversationStepKeeps(r, s, steps[0]);
      StepMoves(r, s, steps[0]);
      EveryRunMovesOn(r, Next(r, s, steps[0]), steps[1..]);
      MovesAreTransitive(s, Next(r, s, steps[0]), Run(r, s, steps));
    }
  }

  /** The first unlock is the one kept: it opens the conversation at its moment, whatever follows. */
  lemma FirstUnlockStays(r: Rules, s: State, now: nat, later: seq<Step>)
    requires Inv(r, s) && s.conv.policy == Protected
    ensures var t := Run(r, Next(r, s, Unlock(now)), later);
      t.conv.policy == Unlocked && t.conv.unlockedAt == Some(now)
  {
    hide Run, LogInv, ConversationInv, LogGrew, SendsStay;
    LogStepKeeps(r, s, Unlock(now));
    ConversationStepKeeps(r, s, Unlock(now));
    EveryRunMovesOn(r, Next(r, s, Unlock(now)), later);
  }

  /** The version tells contents apart: one message read at two moments of a run with the
      same version is the same, which is what a client merging by version relies on. */
  lemma VersionNamesContent(r: Rules, s: State, steps: seq<Step>, i: nat)
    requires Inv(r, s) && i < |s.log|
    ensures var t := Run(r, s, steps); i < |t.log| && (t.log[i].version == s.log[i].version ==> t.log[i] == s.log[i])
  {
    hide Inv, Run;
    EveryRunMovesOn(r, s, steps);
    assert Revises(s.log[i], Run(r, s, steps).log[i]);
  }

  lemma MovesNowhere(s: State)
    ensures MovesTo(s, s)
  {}

  lemma RetryNow(r: Rules, s: State, index: nat, id: nat, draft: Draft)
    requires LogInv(s) && index < |s.log| && id !in s.sends
    ensures var retried := Next(r, Next(r, s, Arrive(id, s.log[index].sender, s.log[index].key, draft)), Check(id));
      retried.sends[id].phase == Done(index) && retried.log == s.log && retried.conv == s.conv
  {
    hide Partition, OwnNumbers, SendsHold;
    assert HasKey(s.log[index], s.log[index].sender, s.log[index].key);
    assert FindByKey(s.log, s.log[index].sender, s.log[index].key) == Some(index);
  }

  /** A retry of a stored message returns it without looking at any guard, whatever has
      happened since: the log and the numbering are untouched. */
  lemma RetryReturnsStored(r: Rules, s: State, steps: seq<Step>, index: nat, id: nat, draft: Draft)
    requires Inv(r, s) && index < |s.log| && id !in Run(r, s, steps).sends
    ensures var t := Run(r, s, steps);
      var retried := Next(r, Next(r, t, Arrive(id, s.log[index].sender, s.log[index].key, draft)), Check(id));
      retried.sends[id].phase == Done(index) && retried.log == t.log && retried.conv == t.conv
  {
    EveryRunKeeps(r, s, steps);
    EveryRunMovesOn(r, s, steps);
    hide Run, Next, LogInv, ConversationInv, ConversationMoved, SendsStay;
    var t := Run(r, s, steps);
    assert Revises(s.log[index], t.log[index]);
    RetryNow(r, t, index, id, draft);
  }

  // ---------------------------------------------------------------- the service

  /** The stored state when nothing is in flight. */
  function Quiet(conv: Conversation, log: seq<Message>): State { State(conv, log, map[], map[], map[], {}) }

  /** The stored state with one send in flight. */
  function Only(conv: Conversation, log: seq<Message>, send: Send): State {
    State(conv, log, map[0 := send], map[], map[], {})
  }

  lemma MovesAlone(conv: Conversation, log: seq<Message>, send: Send, phase: Phase)
    ensures At(Only(conv, log, send), 0, phase) == Only(conv, log, send.(phase := phase))
  {
    assert map[0 := send][0 := send.(phase := phase)] == map[0 := send.(phase := phase)];
  }

  /** A send that nothing interrupts, as steps of the interleaved model. */
  function SendAlone(r: Rules, s: State, send: Send, requestOpen: bool, live: bool, attachable: bool): State
    requires 0 !in s.sends
  {
    var arrived := Next(r, s, Arrive(0, send.sender, send.key, send.draft));
    FellBack(Inserted(Numbered(Guarded(r, Checked(arrived, 0), 0, requestOpen, live, attachable), 0), 0), 0)
  }

  /** What the caller of send gets: the index of the stored message, or an error. */
  function Answer(s: State): Option<nat>
    requires 0 in s.sends
  {
    if s.sends[0].phase.Done? then Some(s.sends[0].phase.index) else None
  }

  lemma InsertionMayLose(s: State)
    requires 0 in s.sends && s.sends[0].phase.Holding?
    ensures var t, m := FellBack(Inserted(s, 0), 0), NewMessage(s.sends[0]);
      && 0 in t.sends && t.conv == s.conv
      && (if IsDuplicate(s.log, m)
          then t.log == s.log && Answer(t) == FindByKey(s.log, m.sender, m.key)
          else t.log == s.log + [m] && Answer(t) == Some(|s.log|))
  {
    hide IsDuplicate, FindByKey;
  }

  lemma SendAlonePaths(r: Rules, conv: Conversation, log: seq<Message>, send: Send, requestOpen: bool, live: bool,
          attachable: bool)
    ensures var t := SendAlone(r, Quiet(conv, log), send, requestOpen, live, attachable);
      var replay := FindByKey(log, send.sender, send.key);
      var m := Posted(send, Protect(r, r.trim(send.draft.text), conv.policy), conv.lastSeq + 1);
      && 0 in t.sends
      && (if replay.Some? then t.conv == conv && t.log == log && Answer(t) == replay
          else if !MayPost(log, send.draft, conv.policy, requestOpen, live, attachable)
          then t.conv == conv && t.log == log && Answer(t) == None
          else
            && t.conv == Allocated(conv)
            && (if IsDuplicate(log, m)
                then t.log == log && Answer(t) == FindByKey(log, m.sender, m.key)
                else t.log == log + [m] && Answer(t) == Some(|log|)))
  {
    hide FindByKey, IsDuplicate, MayPost, Protect, FellBack, Inserted, At;
    var begun := Only(conv, log, send.(phase := Arrived(conv.policy)));
    assert Next(r, Quiet(conv, log), Arrive(0, send.sender, send.key, send.draft)) == begun;
    var replay := FindByKey(log, send.sender, send.key);
    MovesAlone(conv, log, begun.sends[0], if replay.Some? then Done(replay.value) else Unseen(conv.policy));
    if replay.Some? {
      SettledStays(Checked(begun, 0));
    } else {
      GuardedAlone(r, conv, log, begun.sends[0].(phase := Unseen(conv.policy)), requestOpen, live, attachable);
    }
  }

  /** What a lone send comes to: a key already used gives back its message; otherwise it is stored
      exactly when the request is open, the candidacy live or the contact unlocked, the media
      attachable and the reply target in the conversation, as the draft says, numbered next. */
  lemma SendSucceedsExactly(r: Rules, conv: Conversation, log: seq<Message>, send: Send, requestOpen: bool, live: bool,
          attachable: bool)
    requires forall i :: 0 <= i < |log| ==> log[i].seqNo <= conv.lastSeq
    ensures var t := SendAlone(r, Quiet(conv, log), send, requestOpen, live, attachable);
      0 in t.sends &&
      if exists i :: 0 <= i < |log| && HasKey(log[i], send.sender, send.key)
      then
        && t.log == log && t.conv == conv && Answer(t).Some? && Answer(t).value < |log|
        && HasKey(log[Answer(t).value], send.sender, send.key)
      else if requestOpen && (conv.policy == Unlocked || live) && attachable
        && (send.draft.replyTo.Some? ==> send.draft.replyTo.value < |log|)
      then
        && t.conv == conv.(lastSeq := conv.lastSeq + 1) && Answer(t) == Some(|log|)
        && |t.log| == |log| + 1 && t.log[..|log|] == log
        && var m := t.log[|log|];
        && m.seqNo == conv.lastSeq + 1 && HasKey(m, send.sender, send.key) && m.version == 1 && !m.deleted
        && m.content.body == StoredText(r, conv.policy, r.trim(send.draft.text))
        && (forall a :: a in m.attachments <==> a in send.draft.attachments) && m.replyTo == send.draft.replyTo
      else t.log == log && t.conv == conv && Answer(t).None?
  {
    hide SendAlone, FindByKey, Distinct;
    SendAlonePaths(r, conv, log, send, requestOpen, live, attachable);
    AttachmentsAreDistinct(send.draft.attachments);
  }

  lemma ReadyAlone(conv: Conversation, log: seq<Message>, send: Send)
    requires send.phase.Ready?
    ensures var t := FellBack(Inserted(Numbered(Only(conv, log, send), 0), 0), 0);
      var m := Posted(send, send.phase.content, conv.lastSeq + 1);
      && 0 in t.sends && t.conv == Allocated(conv)
      && (if IsDuplicate(log, m)
          then t.log == log && Answer(t) == FindByKey(log, m.sender, m.key)
          else t.log == log + [m] && Answer(t) == Some(|log|))
  {
    hide FindByKey, IsDuplicate, FellBack, Inserted, At;
    var holding := Holding(send.phase.content, conv.lastSeq + 1);
    MovesAlone(Allocated(conv), log, send, holding);
    InsertionMayLose(Only(Allocated(conv), log, send.(phase := holding)));
  }

  lemma GuardedAlone(r: Rules, conv: Conversation, log: seq<Message>, send: Send, requestOpen: bool, live: bool,
          attachable: bool)
    requires send.phase == Unseen(conv.policy)
    ensures var guarded := Guarded(r, Only(conv, log, send), 0, requestOpen, live, attachable);
      var t := FellBack(Inserted(Numbered(guarded, 0), 0), 0);
      var m := Posted(send, Protect(r, r.trim(send.draft.text), conv.policy), conv.lastSeq + 1);
      && 0 in t.sends
      && (if !MayPost(log, send.draft, conv.policy, requestOpen, live, attachable)
          then t.conv == conv && t.log == log && Answer(t) == None
          else
            && t.conv == Allocated(conv)
            && (if IsDuplicate(log, m)
                then t.log == log && Answer(t) == FindByKey(log, m.sender, m.key)
                else t.log == log + [m] && Answer(t) == Some(|log|)))
  {
    hide FindByKey, IsDuplicate, MayPost, Protect, FellBack, Inserted, Numbered, At;
    if MayPost(log, send.draft, conv.policy, requestOpen, live, attachable) {
      var content := Protect(r, r.trim(send.draft.text), conv.policy);
      var ready := send.(phase := Ready(content));
      MovesAlone(conv, log, send, Ready(content));
      ReadyAlone(conv, log, ready);
    } else {
      MovesAlone(conv, log, send, Failed);
      SettledStays(Only(conv, log, send.(phase := Failed)));
    }
  }

  lemma SettledStays(s: State)
    requires 0 in s.sends && IsSettled(s.sends[0])
    ensures forall r, requestOpen, live, attachable :: Guarded(r, s, 0, requestOpen, live, attachable) == s
    ensures FellBack(Inserted(Numbered(s, 0), 0), 0) == s
  {}

  /** The two collections behind one conversation, updated in place. */
  class ChatStore {
    const rules: Rules
    var conversation: Conversation
    var log: seq<Message>

    constructor (rules: Rules)
      ensures this.rules == rules && Quiet(conversation, log) == Initial()
    {
      this.rules := rules;
      conversation := Conversation(Protected, None, 0, Marks(0, 0), Marks(0, 0));
      log := [];
    }

    method AllocateSeq() returns (bumped: Conversation)
      modifies this`conversation
      ensures conversation == Allocated(old(conversation)) && bumped == conversation
    {
      conversation := conversation.(lastSeq := conversation.lastSeq + 1);
      bumped := conversation;
    }

    /** Insert under both unique indexes, or find the message that was there first. */
    method InsertOnce(m: Message) returns (stored: Option<nat>)
      modifies this`log
      ensures if IsDuplicate(old(log), m)
              then log == old(log) && stored == FindByKey(log, m.sender, m.key)
              else log == old(log) + [m] && stored == Some(|old(log)|)
    {
      var taken := false;
      for i := 0 to |log|
        invariant log == old(log) && taken == IsDuplicate(log[..i], m)
      {
        if log[i].seqNo == m.seqNo || (log[i].sender == m.sender && log[i].key == m.key) { taken := true; }
        assert log[..i + 1] == log[..i] + [log[i]];
        DuplicateAfter(log[..i], log[i], m);
      }
      assert log[..|log|] == log;
      if taken {
        stored := FindByKey(log, m.sender, m.key);
      } else {
        log := log + [m];
        stored := Some(|log| - 1);
      }
    }

    method SendMessage(sender: Role, key: nat, draft: Draft, requestOpen: bool, live: bool, attachable: bool)
      returns (stored: Option<nat>)
      modifies this
      ensures var alone := SendAlone(
        rules, Quiet(old(conversation), old(log)), Send(sender, key, draft, Failed), requestOpen, live, attachable);
        0 in alone.sends && conversation == alone.conv && log == alone.log && stored == Answer(alone)
    {
      hide FindByKey, IsDuplicate, SendAlone, Protect, CanSend, Answer, Distinct;
      SendAlonePaths(rules, conversation, log, Send(sender, key, draft, Failed), requestOpen, live, attachable);
      var snapshot := conversation;
      var replay := FindByKey(log, sender, key);
      if replay.Some? { return replay; }
      if !CanSend(snapshot.policy, requestOpen, live) { return None; }
      if draft.replyTo.Some? && draft.replyTo.value >= |log| { return None; }
      if !attachable { return None; }
      var content := Protect(rules, rules.trim(draft.text), snapshot.policy);
      var bumped := AllocateSeq();
      stored := InsertOnce(
        Message(bumped.lastSeq, sender, key, content, Distinct(draft.attachments), draft.replyTo, 1, None, false,
          map[]));
    }

    method AdvanceWatermarks(snapshot: Conversation, role: Role, delivered: nat, read: Option<nat>)
      modifies this`conversation
      ensures conversation == Acknowledged(old(conversation), role, snapshot.lastSeq, delivered, read)
    {
      var marks := conversation.MarksOf(role);
      var readUpTo := if read.Some? then MinNat(read.value, snapshot.lastSeq) else 0;
      var deliveredUpTo := MinNat(MaxNat(delivered, readUpTo), snapshot.lastSeq);
      if deliveredUpTo > marks.delivered { marks := marks.(delivered := deliveredUpTo); }
      if read.Some? && readUpTo > marks.read { marks := marks.(read := readUpTo); }
      conversation := conversation.WithMarks(role, marks);
    }

    method UnlockContact(now: nat)
      modifies this`conversation
      ensures conversation == UnlockedAt(old(conversation), now)
    {
      if conversation.policy == Protected {
        conversation := conversation.(policy := Unlocked, unlockedAt := Some(now));
      }
    }

    method EditMessage(user: Role, index: nat, text: Text, snapshot: Conversation, inWindow: bool, requestOpen: bool,
            live: bool, now: nat)
      modifies this`log
      ensures var s := Quiet(conversation, old(log)).(edits := map[0 := Edit(user, index, text, snapshot.policy)]);
        log == SavedEdit(rules, s, 0, inWindow, requestOpen, live, now).log
    {
      if index >= |log| || log[index].sender != user || log[index].deleted || !inWindow { return; }
      if !CanSend(snapshot.policy, requestOpen, live) { return; }
      var message, found := log[index], Protect(rules, text, snapshot.policy);
      message := message.(content := Content(found.body, message.content.redactions + found.redactions));
      message := message.(editedAt := Some(now));
      message := message.(version := message.version + 1);
      log := log[index := message];
    }

    method RemoveMessage(user: Role, index: nat, inWindow: bool)
      modifies this`log
      ensures log == Removed(Quiet(conversation, old(log)), user, index, inWindow).log
    {
      if index >= |log| || log[index].sender != user || log[index].deleted || !inWindow { return; }
      log := log[index := log[index].(deleted := true, version := log[index].version + 1)];
    }

    method SetReaction(user: Role, index: nat, emoji: Option<nat>, requestOpen: bool, live: bool)
      modifies this`log
      ensures log == WithReaction(Quiet(conversation, old(log)), user, index, emoji, requestOpen, live).log
    {
      if index >= |log| || log[index].deleted || !CanSend(conversation.policy, requestOpen, live) { return; }
      var others := log[index].reactions - {user};
      var reactions := if emoji.None? then others else others[user := emoji.value];
      assert emoji.Some? ==> reactions == log[index].reactions[user := emoji.value];
      log := log[index := log[index].(reactions := reactions, version := log[index].version + 1)];
    }
  }

  lemma DuplicateAfter(log: seq<Message>, last: Message, m: Message)
    ensures IsDuplicate(log + [last], m) <==>
      IsDuplicate(log, m) || last.seqNo == m.seqNo || HasKey(last, m.sender, m.key)
  {
    var all := log + [last];
    if IsDuplicate(log, m) {
      var i :| 0 <= i < |log| && (log[i].seqNo == m.seqNo || HasKey(log[i], m.sender, m.key));
      assert all[i] == log[i];
    }
    if last.seqNo == m.seqNo || HasKey(last, m.sender, m.key) { assert all[|log|] == last; }
  }
}

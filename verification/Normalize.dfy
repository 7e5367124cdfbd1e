/** Normalisation that remembers where every normalised character came from:
    normalize.ts. Text is a sequence of UTF-16 code units, as the program indexes
    it. The tokenizer is a regular expression, so its tokens are an input: any
    list that partitions the text (`Tokenised`). */
module Normalize {
  import opened Options
  import opened NumberWords

  type CodeUnit = u: nat | u < 0x1_0000
  type Text = seq<CodeUnit>

  const SPACE: CodeUnit := 0x20
  const DIGIT_ZERO: CodeUnit := 0x30

  predicate IsDigit(u: CodeUnit) {
    DIGIT_ZERO <= u <= DIGIT_ZERO + 9
  }

  // --------------------------------------------------- same-length rewriting

  /** Arabic-Indic, Persian and full-width digits, full-width "@" and ".". */
  function NormalizeUnit(u: CodeUnit): CodeUnit {
    if 0x0660 <= u <= 0x0669 then DIGIT_ZERO + (u - 0x0660)
    else if 0x06f0 <= u <= 0x06f9 then DIGIT_ZERO + (u - 0x06f0)
    else if 0xff10 <= u <= 0xff19 then DIGIT_ZERO + (u - 0xff10)
    else if u == 0xff20 then 0x40
    else if u == 0xff0e then 0x2e
    else u
  }

  /** `u` is the digit `d` in Arabic-Indic, Persian, full-width or ASCII writing. */
  predicate ShowsDigit(u: CodeUnit, d: nat) {
    d < 10 && u - d in {0x0660, 0x06f0, 0xff10, 0x30}
  }

  lemma OnlyListedChange(u: CodeUnit)
    ensures NormalizeUnit(u) == u || u in {0xff20, 0xff0e} || exists d :: ShowsDigit(u, d)
  {
    if 0x0660 <= u <= 0x0669 {
      assert ShowsDigit(u, u - 0x0660);
    } else if 0x06f0 <= u <= 0x06f9 {
      assert ShowsDigit(u, u - 0x06f0);
    } else if 0xff10 <= u <= 0xff19 {
      assert ShowsDigit(u, u - 0xff10);
    }
  }

  /** Offsets survive: the result has the same length, unit for unit. Every digit of the
      four scripts keeps its value, and any unit that is not listed stays. */
  method NormalizeChars(text: Text) returns (out: Text)
    ensures |out| == |text|
    ensures forall i :: 0 <= i < |text| ==> out[i] == NormalizeUnit(text[i])
    ensures forall i, d :: 0 <= i < |text| && ShowsDigit(text[i], d) ==> out[i] == DIGIT_ZERO + d
    ensures forall i :: 0 <= i < |text| && text[i] == 0xff20 ==> out[i] == 0x40
    ensures forall i :: 0 <= i < |text| && text[i] == 0xff0e ==> out[i] == 0x2e
    ensures forall i :: 0 <= i < |text| && text[i] !in {0xff20, 0xff0e} && (forall d :: !ShowsDigit(text[i], d)) ==>
      out[i] == text[i]
  {
    out := [];
    for i := 0 to |text|
      invariant |out| == i
      invariant forall j :: 0 <= j < i ==> out[j] == NormalizeUnit(text[j])
    {
      out := out + [NormalizeUnit(text[i])];
    }
    forall i | 0 <= i < |text| && text[i] !in {0xff20, 0xff0e} && (forall d :: !ShowsDigit(text[i], d))
      ensures out[i] == text[i]
    {
      OnlyListedChange(text[i]);
    }
  }

  const LOOKALIKE_MIN_DIGITS := 4

  /** "o", "O" for 0; "l", "I", "i" for 1. */
  function Lookalike(u: CodeUnit): Option<CodeUnit> {
    if u == 0x6f || u == 0x4f then Some(DIGIT_ZERO)
    else if u == 0x6c || u == 0x49 || u == 0x69 then Some(DIGIT_ZERO + 1)
    else None
  }

  function DigitCount(token: Text): nat {
    if token == [] then 0 else (if IsDigit(token[0]) then 1 else 0) + DigitCount(token[1..])
  }

  predicate LooksNumeric(token: Text) {
    && DigitCount(token) >= LOOKALIKE_MIN_DIGITS
    && forall i :: 0 <= i < |token| ==> IsDigit(token[i]) || Lookalike(token[i]).Some?
  }

  /** A token that is digits and look-alikes becomes digits, one for one; any
      other token, and every digit, is left as it is. */
  function UnmaskLookalikes(token: Text): (r: Text)
    ensures |r| == |token|
    ensures LooksNumeric(token) ==> forall i :: 0 <= i < |r| ==> IsDigit(r[i])
    ensures forall i :: 0 <= i < |r| ==> r[i] == token[i] || (LooksNumeric(token) && Lookalike(token[i]) == Some(r[i]))
  {
    if LooksNumeric(token)
    then
      seq(|token|, i requires 0 <= i < |token| =>
        if Lookalike(token[i]).Some? then Lookalike(token[i]).value else token[i])
    else token
  }

  // ---------------------------------------------------------------- the tokens

  /** `word` is the folded text, `isEt` says the lower-cased text is "et", and
      `joiner` that it is a single space or hyphen. */
  datatype Token = Token(text: Text, start: nat, end: nat, isWord: bool, word: Word, isEt: bool, joiner: bool)

  ghost predicate ValidToken(t: Token) {
    && t.start < t.end && |t.text| == t.end - t.start
    && (t.isEt ==> t.word == Et)
    && (t.joiner ==> !t.isWord)
  }

  /** The tokens of a text of length `n`: in order, adjacent, leaving nothing out. */
  ghost predicate Tokenised(tokens: seq<Token>, n: nat) {
    && (forall i :: 0 <= i < |tokens| ==> ValidToken(tokens[i]))
    && (forall i, j :: 0 <= i < |tokens| && j == i + 1 && j < |tokens| ==> tokens[i].end == tokens[j].start)
    && (if tokens == [] then n == 0 else tokens[0].start == 0 && tokens[|tokens| - 1].end == n)
  }

  /** Where token `i` starts; the end of the text after the last one. */
  function StartOf(tokens: seq<Token>, n: nat, i: nat): nat {
    if i < |tokens| then tokens[i].start else n
  }

  lemma {:induction false} TokensAdvance(tokens: seq<Token>, n: nat, i: nat, j: nat)
    requires Tokenised(tokens, n) && i < j <= |tokens|
    ensures tokens[i].end <= StartOf(tokens, n, j) <= n
    ensures j < |tokens| ==> tokens[i].start < tokens[j].start && tokens[i].end < tokens[j].end
    decreases |tokens| - i
  {
    if i + 1 < |tokens| {
      assert tokens[i].end == tokens[i + 1].start;
      if i + 1 < j {
        TokensAdvance(tokens, n, i + 1, j);
      } else {
        TokensAdvance(tokens, n, i + 1, |tokens|);
      }
    }
  }

  predicate InRun(lex: Lexicon, t: Token) {
    t.isWord && (t.word in lex || t.isEt)
  }

  predicate InRunAt(lex: Lexicon, tokens: seq<Token>, i: nat) {
    i < |tokens| && InRun(lex, tokens[i])
  }

  // ------------------------------------------------------------- mapped text

  /** One normalised code unit and the original range it stands for. */
  datatype MappedUnit = MappedUnit(code: CodeUnit, start: nat, end: nat)

  function Spanning(chars: Text, start: nat, end: nat): seq<MappedUnit> {
    seq(|chars|, i requires 0 <= i < |chars| => MappedUnit(chars[i], start, end))
  }

  function Aligned(chars: Text, start: nat): seq<MappedUnit> {
    seq(|chars|, i requires 0 <= i < |chars| => MappedUnit(chars[i], start + i, start + i + 1))
  }

  class MappedBuilder {
    var text: Text
    var starts: seq<nat>
    var ends: seq<nat>

    ghost predicate Valid()
      reads this
    {
      |text| == |starts| == |ends|
    }

    ghost function Mapped(): seq<MappedUnit>
      requires Valid()
      reads this
    {
      seq(|text|, i requires 0 <= i < |text| && Valid() reads this => MappedUnit(text[i], starts[i], ends[i]))
    }

    constructor ()
      ensures Valid() && Mapped() == []
    {
      text, starts, ends := [], [], [];
    }

    method PushSpanning(chars: Text, start: nat, end: nat)
      requires Valid()
      modifies this
      ensures Valid() && Mapped() == old(Mapped()) + Spanning(chars, start, end)
    {
      text := text + chars;
      starts := starts + seq(|chars|, _ => start);
      ends := ends + seq(|chars|, _ => end);
    }

    method PushAligned(chars: Text, start: nat)
      requires Valid()
      modifies this
      ensures Valid() && Mapped() == old(Mapped()) + Aligned(chars, start)
    {
      text := text + chars;
      starts := starts + seq(|chars|, i => start + i);
      ends := ends + seq(|chars|, i => start + i + 1);
    }
  }

  // ------------------------------------------------------------- number runs

  /** Positions of the number words (and "et") of the run that starts at token
      `i`; a space or hyphen between two of them is stepped over. */
  function RunFrom(lex: Lexicon, tokens: seq<Token>, i: nat): seq<nat>
    decreases |tokens| - i
  {
    if i >= |tokens| then []
    else if InRun(lex, tokens[i]) then [i] + RunFrom(lex, tokens, i + 1)
    else if tokens[i].joiner && InRunAt(lex, tokens, i + 1) then RunFrom(lex, tokens, i + 1)
    else []
  }

  ghost predicate RunPositions(tokens: seq<Token>, i: nat, run: seq<nat>) {
    && (forall k :: 0 <= k < |run| ==> i <= run[k] < |tokens|)
    && (forall k, l :: 0 <= k < l < |run| ==> run[k] < run[l])
  }

  lemma RunPrepends(tokens: seq<Token>, i: nat, run: seq<nat>)
    requires i < |tokens| && RunPositions(tokens, i + 1, run)
    ensures RunPositions(tokens, i, [i] + run) && RunPositions(tokens, i, run)
  {}

  lemma {:induction false} RunIsOrdered(lex: Lexicon, tokens: seq<Token>, i: nat)
    ensures var run := RunFrom(lex, tokens, i);
      && RunPositions(tokens, i, run)
      && (forall k :: 0 <= k < |run| ==> InRun(lex, tokens[run[k]]))
      && (InRunAt(lex, tokens, i) ==> run != [] && run[0] == i)
    decreases |tokens| - i
  {
    hide InRun;
    if i < |tokens| {
      RunIsOrdered(lex, tokens, i + 1);
      RunPrepends(tokens, i, RunFrom(lex, tokens, i + 1));
    }
  }

  predicate HasNumber(tokens: seq<Token>, run: seq<nat>)
    requires forall k :: 0 <= k < |run| ==> run[k] < |tokens|
  {
    exists k :: 0 <= k < |run| && !tokens[run[k]].isEt
  }

  /** The run at token `i`, or none when it is only the conjunction. */
  function NumberRun(lex: Lexicon, tokens: seq<Token>, i: nat): (run: seq<nat>)
    ensures RunPositions(tokens, i, run)
  {
    RunIsOrdered(lex, tokens, i);
    var run := RunFrom(lex, tokens, i);
    if HasNumber(tokens, run) then run else []
  }

  method CollectRun(lex: Lexicon, tokens: seq<Token>, index: nat) returns (run: seq<nat>)
    requires index <= |tokens|
    ensures run == RunFrom(lex, tokens, index)
  {
    hide InRun;
    run := [];
    var cursor := index;
    while cursor < |tokens|
      invariant index <= cursor <= |tokens|
      invariant run + RunFrom(lex, tokens, cursor) == RunFrom(lex, tokens, index)
      decreases |tokens| - cursor
    {
      if InRun(lex, tokens[cursor]) {
        run := run + [cursor];
        cursor := cursor + 1;
      } else if tokens[cursor].joiner && InRunAt(lex, tokens, cursor + 1) {
        cursor := cursor + 1;
      } else {
        break;
      }
    }
  }

  /** collectNumberRun. A position stands for the token object the program
      collects, and later finds again with `indexOf`. */
  method CollectNumberRun(lex: Lexicon, tokens: seq<Token>, index: nat) returns (run: seq<nat>)
    requires index <= |tokens|
    ensures run == NumberRun(lex, tokens, index)
  {
    run := CollectRun(lex, tokens, index);
    RunIsOrdered(lex, tokens, index);
    if !HasNumber(tokens, run) { run := []; }
  }

  /** The decimal digits of a number, most significant first. */
  function Decimal(v: nat): (digits: Text)
    ensures digits != [] && forall i :: 0 <= i < |digits| ==> IsDigit(digits[i])
  {
    if v < 10 then [DIGIT_ZERO + v] else Decimal(v / 10) + [DIGIT_ZERO + v % 10]
  }

  function RunWords(tokens: seq<Token>, run: seq<nat>): (words: seq<Word>)
    requires forall k :: 0 <= k < |run| ==> run[k] < |tokens|
    ensures |words| == |run|
  {
    seq(|run|, k requires 0 <= k < |run| => tokens[run[k]].word)
  }

  /** What the run's `k`th number adds: a separator, unless it is the first, then
      its digits, all standing for the words that spell it. */
  function NumberUnits(tokens: seq<Token>, run: seq<nat>, n: ParsedNumber, first: bool): seq<MappedUnit>
    requires (forall k :: 0 <= k < |run| ==> run[k] < |tokens|) && n.firstWord < |run| && n.lastWord < |run|
  {
    var start, end := tokens[run[n.firstWord]].start, tokens[run[n.lastWord]].end;
    (if first then [] else Spanning([SPACE], start, start)) + Spanning(Decimal(n.value), start, end)
  }

  ghost predicate SpansFit(ns: seq<ParsedNumber>, count: nat) {
    forall i :: 0 <= i < |ns| ==> ns[i].firstWord <= ns[i].lastWord < count
  }

  function RunUnits(tokens: seq<Token>, run: seq<nat>, ns: seq<ParsedNumber>): seq<MappedUnit>
    requires (forall k :: 0 <= k < |run| ==> run[k] < |tokens|) && SpansFit(ns, |run|)
  {
    if ns == [] then []
    else RunUnits(tokens, run, ns[..|ns| - 1]) + NumberUnits(tokens, run, ns[|ns| - 1], |ns| == 1)
  }

  // -------------------------------------------------- what written digits mean

  function Pow10(k: nat): nat { if k == 0 then 1 else 10 * Pow10(k - 1) }

  predicate AllDigits(d: Text) { forall i :: 0 <= i < |d| ==> IsDigit(d[i]) }

  /** What a text of digits is worth, its first digit being the most significant. */
  function ValueOf(d: Text): nat
    requires AllDigits(d)
  {
    if d == [] then 0 else (d[0] - DIGIT_ZERO) * Pow10(|d| - 1) + ValueOf(d[1..])
  }

  /** `d` is how `v` is usually written: its digits are worth `v`, with no zero in front. */
  predicate Denotes(d: Text, v: nat) {
    d != [] && AllDigits(d) && ValueOf(d) == v && (|d| > 1 ==> d[0] != DIGIT_ZERO)
  }

  lemma {:induction false} ValueShifts(d: Text, u: CodeUnit)
    requires AllDigits(d) && IsDigit(u)
    ensures AllDigits(d + [u]) && ValueOf(d + [u]) == 10 * ValueOf(d) + (u - DIGIT_ZERO)
  {
    if d == [] {
      assert d + [u] == [u];
      assert ValueOf([u]) == (u - DIGIT_ZERO) * Pow10(0) + ValueOf([u][1..]);
    } else {
      ValueShifts(d[1..], u);
      assert (d + [u])[1..] == d[1..] + [u];
      assert (d[0] - DIGIT_ZERO) * Pow10(|d|) == 10 * ((d[0] - DIGIT_ZERO) * Pow10(|d| - 1));
    }
  }

  lemma {:induction false} DecimalDenotes(v: nat)
    ensures Denotes(Decimal(v), v)
    ensures v >= 10 ==> Decimal(v)[0] != DIGIT_ZERO
  {
    if v < 10 {
      ValueShifts([], DIGIT_ZERO + v);
      assert [] + [DIGIT_ZERO + v] == Decimal(v);
    } else {
      DecimalDenotes(v / 10);
      ValueShifts(Decimal(v / 10), DIGIT_ZERO + v % 10);
      if v / 10 < 10 { assert Decimal(v / 10) == [DIGIT_ZERO + v / 10]; }
    }
  }

  /** The values written in digits, one space apart. */
  function Written(vs: seq<nat>): Text {
    if vs == [] then []
    else (if |vs| == 1 then [] else Written(vs[..|vs| - 1]) + [SPACE]) + Decimal(vs[|vs| - 1])
  }

  /** One more unit in front: a space opens a field, any other unit joins the first one. */
  function FieldsWith(u: CodeUnit, rest: seq<Text>): (parts: seq<Text>)
    requires rest != []
    ensures parts != []
  {
    if u == SPACE then [[]] + rest else [[u] + rest[0]] + rest[1..]
  }

  /** The stretches between the spaces of a text. */
  function Fields(text: Text): (parts: seq<Text>)
    ensures parts != []
  {
    if text == [] then [[]] else FieldsWith(text[0], Fields(text[1..]))
  }

  /** Split at its spaces, the text reads as exactly these numbers, in order. */
  predicate ReadsAs(text: Text, vs: seq<nat>) {
    if vs == [] then text == []
    else
      var parts := Fields(text);
      |parts| == |vs| && forall i :: 0 <= i < |vs| ==> Denotes(parts[i], vs[i])
  }

  lemma {:induction false} FieldsOfDigits(d: Text)
    requires AllDigits(d)
    ensures Fields(d) == [d]
  {
    if d != [] {
      FieldsOfDigits(d[1..]);
      assert [d[0]] + d[1..] == d;
    }
  }

  lemma FieldsWithMore(u: CodeUnit, rest: seq<Text>, more: seq<Text>)
    requires rest != []
    ensures FieldsWith(u, rest + more) == FieldsWith(u, rest) + more
  {
    assert (rest + more)[1..] == rest[1..] + more;
  }

  lemma {:induction false} FieldsInTwo(a: Text, b: Text)
    ensures Fields(a + [SPACE] + b) == Fields(a) + Fields(b)
  {
    var text := a + [SPACE] + b;
    if a == [] {
      assert text[1..] == b;
    } else {
      hide FieldsWith;
      FieldsInTwo(a[1..], b);
      assert text[1..] == a[1..] + [SPACE] + b;
      FieldsWithMore(a[0], Fields(a[1..]), Fields(b));
    }
  }

  lemma {:induction false} WrittenReads(vs: seq<nat>)
    ensures ReadsAs(Written(vs), vs)
    decreases |vs|
  {
    hide Decimal, Denotes;
    if vs != [] {
      var front, v := vs[..|vs| - 1], vs[|vs| - 1];
      WrittenReads(front);
      DecimalDenotes(v);
      FieldsOfDigits(Decimal(v));
      if front == [] {
        assert Written(vs) == Decimal(v);
      } else {
        FieldsInTwo(Written(front), Decimal(v));
        assert Fields(Written(vs)) == Fields(Written(front)) + [Decimal(v)];
      }
    }
  }

  function Codes(ms: seq<MappedUnit>): Text {
    seq(|ms|, k requires 0 <= k < |ms| => ms[k].code)
  }

  function Values(ns: seq<ParsedNumber>): seq<nat> {
    seq(|ns|, i requires 0 <= i < |ns| => ns[i].value)
  }

  lemma CodesInTwo(a: seq<MappedUnit>, b: seq<MappedUnit>)
    ensures Codes(a + b) == Codes(a) + Codes(b)
  {}

  lemma NumberCodes(tokens: seq<Token>, run: seq<nat>, n: ParsedNumber, first: bool)
    requires (forall k :: 0 <= k < |run| ==> run[k] < |tokens|) && n.firstWord < |run| && n.lastWord < |run|
    ensures Codes(NumberUnits(tokens, run, n, first)) == (if first then [] else [SPACE]) + Decimal(n.value)
  {}

  lemma {:induction false} RunUnitsSpell(tokens: seq<Token>, run: seq<nat>, ns: seq<ParsedNumber>)
    requires (forall k :: 0 <= k < |run| ==> run[k] < |tokens|) && SpansFit(ns, |run|)
    ensures Codes(RunUnits(tokens, run, ns)) == Written(Values(ns))
    decreases |ns|
  {
    hide NumberUnits, Codes, Decimal;
    if ns == [] {
      assert Codes([]) == [] by { NoCodes(); }
    } else {
      var front, last := ns[..|ns| - 1], ns[|ns| - 1];
      RunUnitsSpell(tokens, run, front);
      assert Values(ns)[..|ns| - 1] == Values(front);
      NumberCodes(tokens, run, last, |ns| == 1);
      CodesInTwo(RunUnits(tokens, run, front), NumberUnits(tokens, run, last, |ns| == 1));
    }
  }

  lemma NoCodes()
    ensures Codes([]) == []
  {}

  /** Whatever numbers a run holds, its digits read back as their values, in order. */
  lemma RunUnitsRead(tokens: seq<Token>, run: seq<nat>, ns: seq<ParsedNumber>)
    requires (forall k :: 0 <= k < |run| ==> run[k] < |tokens|) && SpansFit(ns, |run|)
    ensures ReadsAs(Codes(RunUnits(tokens, run, ns)), Values(ns))
  {
    RunUnitsSpell(tokens, run, ns);
    WrittenReads(Values(ns));
  }

  function RunNumbers(lex: Lexicon, tokens: seq<Token>, run: seq<nat>): (ns: seq<ParsedNumber>)
    requires forall k :: 0 <= k < |run| ==> run[k] < |tokens|
    ensures SpansFit(ns, |run|) && OrderedSpans(ns, 0, |run|)
  {
    SpansAreOrdered(lex, RunWords(tokens, run), 0);
    Numbers(lex, RunWords(tokens, run), 0)
  }

  method EmitNumber(builder: MappedBuilder, tokens: seq<Token>, run: seq<nat>, n: ParsedNumber, isFirst: bool)
    requires builder.Valid() && (forall k :: 0 <= k < |run| ==> run[k] < |tokens|)
    requires n.firstWord < |run| && n.lastWord < |run|
    modifies builder
    ensures builder.Valid() && builder.Mapped() == old(builder.Mapped()) + NumberUnits(tokens, run, n, isFirst)
  {
    var first, last := tokens[run[n.firstWord]], tokens[run[n.lastWord]];
    if !isFirst { builder.PushSpanning([SPACE], first.start, first.start); }
    builder.PushSpanning(Decimal(n.value), first.start, last.end);
  }

  method EmitNumberRun(builder: MappedBuilder, lex: Lexicon, tokens: seq<Token>, run: seq<nat>)
    requires builder.Valid() && forall k :: 0 <= k < |run| ==> run[k] < |tokens|
    modifies builder
    ensures builder.Valid()
    ensures builder.Mapped() == old(builder.Mapped()) + RunUnits(tokens, run, RunNumbers(lex, tokens, run))
    ensures ReadsAs(Codes(builder.Mapped()[|old(builder.Mapped())|..]), Values(RunNumbers(lex, tokens, run)))
  {
    hide NumberUnits, Numbers, OrderedSpans, RunWords, Codes, ReadsAs;
    var numbers := ParseNumberWords(lex, RunWords(tokens, run));
    assert numbers == RunNumbers(lex, tokens, run);
    for position := 0 to |numbers|
      invariant builder.Valid()
      invariant builder.Mapped() == old(builder.Mapped()) + RunUnits(tokens, run, numbers[..position])
    {
      assert numbers[..position + 1][..position] == numbers[..position];
      EmitNumber(builder, tokens, run, numbers[position], position == 0);
    }
    assert numbers[..|numbers|] == numbers;
    RunUnitsRead(tokens, run, numbers);
  }

  // -------------------------------------------------------------- the whole

  function Shown(t: Token): (r: Text)
    ensures |r| == |t.text|
  {
    if t.isWord then UnmaskLookalikes(t.text) else t.text
  }

  function RunAt(lex: Lexicon, tokens: seq<Token>, i: nat): (run: seq<nat>)
    requires i < |tokens|
    ensures RunPositions(tokens, i, run)
  {
    if tokens[i].isWord then NumberRun(lex, tokens, i) else []
  }

  /** The mapped text of the tokens from `i` on. */
  function Expand(lex: Lexicon, tokens: seq<Token>, i: nat): seq<MappedUnit>
    decreases |tokens| - i
  {
    if i >= |tokens| then [] else UnitsAt(lex, tokens, i) + Expand(lex, tokens, After(lex, tokens, i))
  }

  /** What token `i` adds to the mapped text, and the token to go on from. */
  function UnitsAt(lex: Lexicon, tokens: seq<Token>, i: nat): seq<MappedUnit>
    requires i < |tokens|
  {
    var run := RunAt(lex, tokens, i);
    if run != [] then RunUnits(tokens, run, RunNumbers(lex, tokens, run))
      else Aligned(Shown(tokens[i]), tokens[i].start)
  }

  function After(lex: Lexicon, tokens: seq<Token>, i: nat): (next: nat)
    requires i < |tokens|
    ensures i < next <= |tokens|
  {
    var run := RunAt(lex, tokens, i);
    if run != [] then run[|run| - 1] + 1 else i + 1
  }

  /** One turn of expandNumbers: a whole number run, or one token as it is. */
  method ExpandOne(builder: MappedBuilder, lex: Lexicon, tokens: seq<Token>, index: nat) returns (next: nat)
    requires builder.Valid() && index < |tokens|
    modifies builder
    ensures builder.Valid() && next == After(lex, tokens, index)
    ensures builder.Mapped() == old(builder.Mapped()) + UnitsAt(lex, tokens, index)
  {
    hide RunUnits, RunNumbers, NumberRun, Shown, Aligned;
    var run := [];
    if tokens[index].isWord { run := CollectNumberRun(lex, tokens, index); }
    assert run == RunAt(lex, tokens, index);
    if |run| > 0 {
      EmitNumberRun(builder, lex, tokens, run);
      next := run[|run| - 1] + 1;
    } else {
      builder.PushAligned(Shown(tokens[index]), tokens[index].start);
      next := index + 1;
    }
  }

  /** expandNumbers, on the tokens of the normalised text: the builder ends up
      holding exactly the specified units. */
  method ExpandNumbers(lex: Lexicon, tokens: seq<Token>) returns (builder: MappedBuilder)
    ensures fresh(builder) && builder.Valid() && builder.Mapped() == Expand(lex, tokens, 0)
  {
    hide UnitsAt, After;
    builder := new MappedBuilder();
    var index := 0;
    while index < |tokens|
      invariant fresh(builder) && builder.Valid() && index <= |tokens|
      invariant builder.Mapped() + Expand(lex, tokens, index) == Expand(lex, tokens, 0)
      decreases |tokens| - index
    {
      index := ExpandOne(builder, lex, tokens, index);
    }
  }

  // --------------------------------------------- the map back is trustworthy

  /** Ranges inside [from, to), starts and ends never going back, and an empty
      range only for an inserted separator. */
  ghost predicate Sound(ms: seq<MappedUnit>, from: nat, to: nat) {
    && (forall k :: 0 <= k < |ms| ==> from <= ms[k].start <= ms[k].end <= to)
    && (forall k :: 0 <= k < |ms| && ms[k].start == ms[k].end ==> ms[k].code == SPACE)
    && (forall k, l :: 0 <= k < l < |ms| ==> ms[k].start <= ms[l].start && ms[k].end <= ms[l].end)
  }

  lemma SoundConcat(a: seq<MappedUnit>, b: seq<MappedUnit>, from: nat, mid: nat, mid': nat, to: nat)
    requires Sound(a, from, mid) && Sound(b, mid', to) && from <= mid <= mid' <= to
    ensures Sound(a + b, from, to)
  {
  }

  lemma NumberUnitsAreSound(tokens: seq<Token>, n: nat, from: nat, run: seq<nat>, p: ParsedNumber, isFirst: bool)
    requires Tokenised(tokens, n) && RunPositions(tokens, from, run) && p.firstWord <= p.lastWord < |run|
    ensures tokens[run[p.firstWord]].start < tokens[run[p.lastWord]].end
    ensures Sound(NumberUnits(tokens, run, p, isFirst), tokens[run[p.firstWord]].start, tokens[run[p.lastWord]].end)
  {
    var i, j := run[p.firstWord], run[p.lastWord];
    assert ValidToken(tokens[i]) && ValidToken(tokens[j]);
    if i < j { TokensAdvance(tokens, n, i, j); }
  }

  lemma {:induction false} RunUnitsAreSound(tokens: seq<Token>, n: nat, from: nat, run: seq<nat>, ns: seq<ParsedNumber>)
    requires Tokenised(tokens, n) && RunPositions(tokens, from, run) && run != []
    requires SpansFit(ns, |run|) && OrderedSpans(ns, 0, |run|)
    ensures Sound(RunUnits(tokens, run, ns), tokens[run[0]].start, tokens[run[|run| - 1]].end)
    ensures ns != [] ==> Sound(RunUnits(tokens, run, ns), tokens[run[0]].start, tokens[run[ns[|ns| - 1].lastWord]].end)
    decreases |ns|
  {
    hide NumberUnits, Sound, Tokenised;
    if ns == [] {
      RunAdvances(tokens, n, from, run, 0, |run| - 1);
      SoundEmpty(tokens[run[0]].start, tokens[run[|run| - 1]].end);
    } else {
      var front, p := ns[..|ns| - 1], ns[|ns| - 1];
      var units := NumberUnits(tokens, run, p, |ns| == 1);
      RunUnitsAreSound(tokens, n, from, run, front);
      NumberUnitsAreSound(tokens, n, from, run, p, |ns| == 1);
      RunAdvances(tokens, n, from, run, 0, p.firstWord);
      RunAdvances(tokens, n, from, run, p.lastWord, |run| - 1);
      if front != [] {
        var q := front[|front| - 1];
        assert q.lastWord < p.firstWord;
        RunAdvances(tokens, n, from, run, 0, q.lastWord);
        RunAdvances(tokens, n, from, run, q.lastWord, p.firstWord);
        SoundConcat(RunUnits(tokens, run, front), units, tokens[run[0]].start, tokens[run[q.lastWord]].end,
          tokens[run[p.firstWord]].start, tokens[run[p.lastWord]].end);
      } else {
        SoundEmpty(tokens[run[0]].start, tokens[run[0]].start);
        SoundConcat([], units, tokens[run[0]].start, tokens[run[0]].start,
          tokens[run[p.firstWord]].start, tokens[run[p.lastWord]].end);
        assert RunUnits(tokens, run, ns) == [] + units;
      }
      SoundWiden(RunUnits(tokens, run, ns), tokens[run[0]].start, tokens[run[p.lastWord]].end,
        tokens[run[0]].start, tokens[run[|run| - 1]].end);
    }
  }

  lemma SoundEmpty(from: nat, to: nat)
    ensures Sound([], from, to)
  {
  }

  lemma SoundWiden(ms: seq<MappedUnit>, from: nat, to: nat, from': nat, to': nat)
    requires Sound(ms, from, to) && from' <= from && to <= to'
    ensures Sound(ms, from', to')
  {
  }

  lemma RunAdvances(tokens: seq<Token>, n: nat, from: nat, run: seq<nat>, a: nat, b: nat)
    requires Tokenised(tokens, n) && RunPositions(tokens, from, run) && a <= b < |run|
    ensures tokens[run[a]].start <= tokens[run[b]].start && tokens[run[a]].end <= tokens[run[b]].end
    ensures tokens[run[a]].start < tokens[run[a]].end
    ensures a < b ==> tokens[run[a]].end <= tokens[run[b]].start
  {
    assert ValidToken(tokens[run[a]]);
    if a < b {
      TokensAdvance(tokens, n, run[a], run[b]);
    }
  }

  lemma RunStartsAfter(tokens: seq<Token>, n: nat, i: nat, run: seq<nat>)
    requires Tokenised(tokens, n) && RunPositions(tokens, i, run) && run != []
    ensures i <= run[0] < |tokens| && tokens[i].start <= tokens[run[0]].start
    ensures run[|run| - 1] < |tokens|
  {
    if i < run[0] { TokensAdvance(tokens, n, i, run[0]); }
  }

  lemma UnitsAtAreSound(lex: Lexicon, tokens: seq<Token>, n: nat, i: nat)
    requires Tokenised(tokens, n) && i < |tokens|
    ensures Sound(UnitsAt(lex, tokens, i), tokens[i].start, tokens[After(lex, tokens, i) - 1].end)
  {
    hide RunUnits, RunNumbers, Sound, Tokenised, NumberRun, Shown, Aligned;
    var run := RunAt(lex, tokens, i);
    if run != [] {
      RunUnitsAreSound(tokens, n, i, run, RunNumbers(lex, tokens, run));
      RunStartsAfter(tokens, n, i, run);
      SoundWiden(UnitsAt(lex, tokens, i), tokens[run[0]].start, tokens[run[|run| - 1]].end,
        tokens[i].start, tokens[run[|run| - 1]].end);
    } else {
      AlignedIsSound(tokens, n, i);
    }
  }

  lemma AlignedIsSound(tokens: seq<Token>, n: nat, i: nat)
    requires Tokenised(tokens, n) && i < |tokens|
    ensures Sound(Aligned(Shown(tokens[i]), tokens[i].start), tokens[i].start, tokens[i].end)
  {
    assert ValidToken(tokens[i]);
  }

  lemma TokenRange(tokens: seq<Token>, n: nat, i: nat, next: nat)
    requires Tokenised(tokens, n) && i < next <= |tokens|
    ensures tokens[i].start <= tokens[next - 1].end <= StartOf(tokens, n, next) <= n
  {
    assert ValidToken(tokens[i]);
    TokensAdvance(tokens, n, next - 1, next);
    if i < next - 1 { TokensAdvance(tokens, n, i, next - 1); }
  }

  /** The offset map of any text at all is sound. */
  lemma {:induction false} ExpandIsSound(lex: Lexicon, tokens: seq<Token>, n: nat, i: nat)
    requires Tokenised(tokens, n) && i <= |tokens|
    ensures Sound(Expand(lex, tokens, i), StartOf(tokens, n, i), n)
    decreases |tokens| - i
  {
    hide UnitsAt, After, Sound, Tokenised;
    if i == |tokens| {
      SoundEmpty(n, n);
    } else {
      var next := After(lex, tokens, i);
      UnitsAtAreSound(lex, tokens, n, i);
      ExpandIsSound(lex, tokens, n, next);
      TokenRange(tokens, n, i, next);
      SoundConcat(UnitsAt(lex, tokens, i), Expand(lex, tokens, next), tokens[i].start, tokens[next - 1].end,
        StartOf(tokens, n, next), n);
    }
  }

  /** Hence the original range read off any stretch of normalised text whose first
      unit is not a separator is not empty, is inside the original, and contains
      the source of every unit in the stretch. */
  lemma StretchIsMapped(ms: seq<MappedUnit>, n: nat, a: nat, b: nat)
    requires Sound(ms, 0, n) && a < b <= |ms| && ms[a].code != SPACE
    ensures ms[a].start < ms[b - 1].end <= n
    ensures forall k :: a <= k < b ==> ms[a].start <= ms[k].start && ms[k].end <= ms[b - 1].end
  {
  }

  // ---------------------------------------------- nothing but numbers changes

  /** Token `j` can be no part of a number run: neither a number word, nor "et",
      nor a joiner in front of one. */
  predicate Outside(lex: Lexicon, tokens: seq<Token>, j: nat)
    requires j < |tokens|
  {
    !InRun(lex, tokens[j]) && !(tokens[j].joiner && InRunAt(lex, tokens, j + 1))
  }

  /** A run reaches over number words, "et" and joiners only, and takes every
      number word it reaches. */
  lemma {:induction false} RunReach(lex: Lexicon, tokens: seq<Token>, i: nat, j: nat)
    requires i <= j < |tokens|
    requires var run := RunFrom(lex, tokens, i); run != [] && j <= run[|run| - 1]
    ensures !Outside(lex, tokens, j)
    ensures InRun(lex, tokens[j]) ==> j in RunFrom(lex, tokens, i)
    decreases j - i
  {
    hide InRun;
    if i == j {
    } else {
      var rest := RunFrom(lex, tokens, i + 1);
      assert rest != [] && rest[|rest| - 1] == RunFrom(lex, tokens, i)[|RunFrom(lex, tokens, i)| - 1];
      RunReach(lex, tokens, i + 1, j);
    }
  }

  lemma {:induction false} RunStops(lex: Lexicon, tokens: seq<Token>, i: nat)
    requires i < |tokens|
    ensures var run := RunFrom(lex, tokens, i);
      var next := if run == [] then i else run[|run| - 1] + 1; next < |tokens| ==> Outside(lex, tokens, next)
    decreases |tokens| - i
  {
    hide InRun;
    if i + 1 < |tokens| && (InRun(lex, tokens[i]) || (tokens[i].joiner && InRunAt(lex, tokens, i + 1))) {
      RunStops(lex, tokens, i + 1);
      RunIsOrdered(lex, tokens, i + 1);
    }
  }

  /** Token `j` is in the run, or is a joiner with a word of the run right after it. */
  predicate StepsOver(lex: Lexicon, tokens: seq<Token>, run: seq<nat>, j: nat) {
    j < |tokens| && if InRun(lex, tokens[j]) then j in run else tokens[j].joiner && j + 1 in run
  }

  /** The run is maximal: up to its last position it leaves out nothing but joiners with a
      word of the run right after them, and the token after it can be no part of a run. */
  lemma RunIsMaximal(lex: Lexicon, tokens: seq<Token>, i: nat)
    requires i < |tokens|
    ensures var run := RunFrom(lex, tokens, i);
      && (run == [] ==> Outside(lex, tokens, i))
      && (run != [] && run[|run| - 1] + 1 < |tokens| ==> Outside(lex, tokens, run[|run| - 1] + 1))
      && (forall j :: run != [] && i <= j <= run[|run| - 1] ==> StepsOver(lex, tokens, run, j))
  {
    hide InRun;
    RunStops(lex, tokens, i);
    RunIsOrdered(lex, tokens, i);
    var run := RunFrom(lex, tokens, i);
    forall j | run != [] && i <= j <= run[|run| - 1]
      ensures StepsOver(lex, tokens, run, j)
    {
      RunReach(lex, tokens, i, j);
      if !InRun(lex, tokens[j]) && j < run[|run| - 1] { RunReach(lex, tokens, i, j + 1); }
    }
  }

  /** `ms` holds the units of `chars`, one after the other, each mapped to its own
      original position. */
  ghost predicate Carries(ms: seq<MappedUnit>, chars: Text, start: nat) {
    exists k :: 0 <= k && CarriesAt(ms, k, chars, start)
  }

  predicate CarriesAt(ms: seq<MappedUnit>, k: nat, chars: Text, start: nat) {
    k + |chars| <= |ms| && ms[k..k + |chars|] == Aligned(chars, start)
  }

  lemma CarriesLater(front: seq<MappedUnit>, ms: seq<MappedUnit>, chars: Text, start: nat)
    requires Carries(ms, chars, start)
    ensures Carries(front + ms, chars, start)
  {
    var k: nat :| CarriesAt(ms, k, chars, start);
    assert (front + ms)[|front| + k..|front| + k + |chars|] == ms[k..k + |chars|];
    assert CarriesAt(front + ms, |front| + k, chars, start);
  }

  lemma CarriesFirst(chars: Text, start: nat, rest: seq<MappedUnit>)
    ensures Carries(Aligned(chars, start) + rest, chars, start)
  {
    var ms := Aligned(chars, start) + rest;
    assert ms[0..0 + |chars|] == Aligned(chars, start);
    assert CarriesAt(ms, 0, chars, start);
  }

  /** A token outside the number runs is carried over exactly. */
  lemma {:induction false} OutsideIsExact(lex: Lexicon, tokens: seq<Token>, i: nat, j: nat)
    requires i <= j < |tokens| && Outside(lex, tokens, j)
    ensures Carries(Expand(lex, tokens, i), Shown(tokens[j]), tokens[j].start)
    decreases |tokens| - i
  {
    hide Outside, Carries, RunUnits, RunNumbers, Shown, Aligned, InRun, HasNumber;
    var run, next := RunAt(lex, tokens, i), After(lex, tokens, i);
    if run != [] && j < next {
      RunReach(lex, tokens, i, j);
      assert false;
    } else if i == j {
      CarriesFirst(Shown(tokens[j]), tokens[j].start, Expand(lex, tokens, next));
    } else {
      OutsideIsExact(lex, tokens, next, j);
      CarriesLater(UnitsAt(lex, tokens, i), Expand(lex, tokens, next), Shown(tokens[j]), tokens[j].start);
    }
  }

  /** The tokens of this very text. */
  ghost predicate TokensOf(tokens: seq<Token>, text: Text) {
    && Tokenised(tokens, |text|)
    && forall i :: 0 <= i < |tokens| && tokens[i].start <= tokens[i].end <= |text| ==>
         tokens[i].text == text[tokens[i].start..tokens[i].end]
  }

  /** A text without number words and look-alikes is expanded to itself, unit for unit. */
  lemma {:induction false} PlainTextStays(lex: Lexicon, tokens: seq<Token>, text: Text, i: nat)
    requires TokensOf(tokens, text) && i <= |tokens|
    requires forall t :: t in tokens ==> !InRun(lex, t) && Shown(t) == t.text
    ensures var from := StartOf(tokens, |text|, i);
      from <= |text| && Expand(lex, tokens, i) == Aligned(text[from..], from)
    decreases |tokens| - i
  {
    hide InRun, Shown;
    if i < |tokens| {
      var t, from, next := tokens[i], tokens[i].start, StartOf(tokens, |text|, i + 1);
      assert t in tokens && ValidToken(t);
      TokensAdvance(tokens, |text|, i, i + 1);
      assert t.end == next;
      assert RunAt(lex, tokens, i) == [] by { NoRunHere(lex, tokens, i); }
      PlainTextStays(lex, tokens, text, i + 1);
      AlignedInTwo(text, from, next);
    }
  }

  lemma NoRunHere(lex: Lexicon, tokens: seq<Token>, i: nat)
    requires i < |tokens| && !InRun(lex, tokens[i]) && ValidToken(tokens[i])
    ensures RunAt(lex, tokens, i) == []
  {
    hide InRun;
  }

  lemma AlignedInTwo(text: Text, from: nat, mid: nat)
    requires from <= mid <= |text|
    ensures Aligned(text[from..], from) == Aligned(text[from..mid], from) + Aligned(text[mid..], mid)
  {}

  /** Some digit of `ms` stands for a range that contains [start, end). */
  ghost predicate DigitOver(ms: seq<MappedUnit>, start: nat, end: nat) {
    exists k :: 0 <= k < |ms| && IsDigit(ms[k].code) && ms[k].start <= start && end <= ms[k].end
  }

  lemma DigitOverConcat(a: seq<MappedUnit>, b: seq<MappedUnit>, start: nat, end: nat)
    requires DigitOver(a, start, end) || DigitOver(b, start, end)
    ensures DigitOver(a + b, start, end)
  {
    if DigitOver(a, start, end) {
      var k :| 0 <= k < |a| && IsDigit(a[k].code) && a[k].start <= start && end <= a[k].end;
      assert (a + b)[k] == a[k];
    } else {
      var k :| 0 <= k < |b| && IsDigit(b[k].code) && b[k].start <= start && end <= b[k].end;
      assert (a + b)[|a| + k] == b[k];
    }
  }

  lemma NumberUnitsCover(tokens: seq<Token>, run: seq<nat>, n: ParsedNumber, isFirst: bool, start: nat, end: nat)
    requires (forall k :: 0 <= k < |run| ==> run[k] < |tokens|) && n.firstWord < |run| && n.lastWord < |run|
    requires tokens[run[n.firstWord]].start <= start && end <= tokens[run[n.lastWord]].end
    ensures DigitOver(NumberUnits(tokens, run, n, isFirst), start, end)
  {
    var from, to := tokens[run[n.firstWord]].start, tokens[run[n.lastWord]].end;
    var digits := Spanning(Decimal(n.value), from, to);
    assert IsDigit(digits[0].code);
    DigitOverConcat(if isFirst then [] else Spanning([SPACE], from, from), digits, start, end);
  }

  lemma {:induction false} RunUnitsCover(tokens: seq<Token>, run: seq<nat>, ns: seq<ParsedNumber>, q: nat, start: nat,
          end: nat)
    requires (forall k :: 0 <= k < |run| ==> run[k] < |tokens|) && SpansFit(ns, |run|) && q < |ns|
    requires tokens[run[ns[q].firstWord]].start <= start && end <= tokens[run[ns[q].lastWord]].end
    ensures DigitOver(RunUnits(tokens, run, ns), start, end)
    decreases |ns|
  {
    hide NumberUnits, DigitOver;
    var front, last := ns[..|ns| - 1], ns[|ns| - 1];
    if q < |front| {
      RunUnitsCover(tokens, run, front, q, start, end);
    } else {
      NumberUnitsCover(tokens, run, last, |ns| == 1, start, end);
    }
    DigitOverConcat(RunUnits(tokens, run, front), NumberUnits(tokens, run, last, |ns| == 1), start, end);
  }

  lemma RunCovers(lex: Lexicon, tokens: seq<Token>, n: nat, i: nat, run: seq<nat>, p: nat)
    requires Tokenised(tokens, n) && RunPositions(tokens, i, run) && p < |run| && tokens[run[p]].word != Et
    ensures DigitOver(RunUnits(tokens, run, RunNumbers(lex, tokens, run)), tokens[run[p]].start, tokens[run[p]].end)
  {
    hide RunUnits, Tokenised, DigitOver;
    var words, ns := RunWords(tokens, run), RunNumbers(lex, tokens, run);
    SpansCover(lex, words, 0, p);
    var q :| 0 <= q < |ns| && ns[q].firstWord <= p <= ns[q].lastWord;
    RunAdvances(tokens, n, i, run, ns[q].firstWord, p);
    RunAdvances(tokens, n, i, run, p, ns[q].lastWord);
    RunUnitsCover(tokens, run, ns, q, tokens[run[p]].start, tokens[run[p]].end);
  }

  /** No spelled number word is lost: some digit stands for a range of the original
      that contains it. */
  lemma {:induction false} NumberWordsAreCovered(lex: Lexicon, tokens: seq<Token>, n: nat, i: nat, j: nat)
    requires Tokenised(tokens, n) && Et !in lex && i <= j < |tokens|
    requires InRun(lex, tokens[j]) && tokens[j].word in lex && !tokens[j].isEt
    ensures DigitOver(Expand(lex, tokens, i), tokens[j].start, tokens[j].end)
    decreases |tokens| - i
  {
    hide RunUnits, RunNumbers, DigitOver, Tokenised, Shown, Aligned;
    var next := After(lex, tokens, i);
    if j < next {
      RunTakes(lex, tokens, i, j);
      var run := RunAt(lex, tokens, i);
      var p :| 0 <= p < |run| && run[p] == j;
      RunCovers(lex, tokens, n, i, run, p);
    } else {
      NumberWordsAreCovered(lex, tokens, n, next, j);
    }
    DigitOverConcat(UnitsAt(lex, tokens, i), Expand(lex, tokens, next), tokens[j].start, tokens[j].end);
  }

  lemma NumberWordStartsRun(lex: Lexicon, tokens: seq<Token>, i: nat)
    requires InRunAt(lex, tokens, i) && !tokens[i].isEt
    ensures RunAt(lex, tokens, i) != []
  {
    RunIsOrdered(lex, tokens, i);
    assert !tokens[RunFrom(lex, tokens, i)[0]].isEt;
  }

  lemma RunTakes(lex: Lexicon, tokens: seq<Token>, i: nat, j: nat)
    requires i <= j < |tokens| && j < After(lex, tokens, i)
    requires InRun(lex, tokens[j]) && !tokens[j].isEt
    ensures j in RunAt(lex, tokens, i)
  {
    hide InRun;
    if i == j { NumberWordStartsRun(lex, tokens, i); }
    RunReach(lex, tokens, i, j);
  }

  // ------------------------------------------------------- a dictated number

  lemma {:induction false} ValuesOfSpans(vs: seq<Dictable>, base: nat)
    ensures Values(Spans(vs, base)) == vs
    decreases |vs|
  {
    hide Spell;
    if vs == [] {
    } else {
      ValuesOfSpans(vs[1..], base + |Spell(vs[0])|);
      assert Values(Spans(vs, base)) == [vs[0]] + Values(Spans(vs[1..], base + |Spell(vs[0])|));
    }
  }

  /** A dictated run of numbers with no fusing neighbours comes out as exactly its
      numbers: split at its spaces, the text reads as them, in order. That is what
      the phone detector then reads. */
  lemma DictatedRun(lex: Lexicon, tokens: seq<Token>, run: seq<nat>, vs: seq<Dictable>)
    requires ValidLexicon(lex) && (forall k :: 0 <= k < |run| ==> run[k] < |tokens|)
    requires RunWords(tokens, run) == SpellAll(vs) && NoFusion(vs)
    ensures var codes := Codes(RunUnits(tokens, run, RunNumbers(lex, tokens, run)));
      codes == Written(vs) && ReadsAs(codes, vs)
  {
    hide RunUnits, Numbers, SpellAll, ValidLexicon, ReadsAs;
    RoundTrip(lex, vs);
    ValuesOfSpans(vs, 0);
    WrittenReads(vs);
    RunUnitsSpell(tokens, run, RunNumbers(lex, tokens, run));
  }

  /** The loop of expandNumbers, at token `i`, comes to token `target`. */
  predicate Reaches(lex: Lexicon, tokens: seq<Token>, i: nat, target: nat)
    decreases |tokens| - i
  {
    i == target || (i < target && i < |tokens| && Reaches(lex, tokens, After(lex, tokens, i), target))
  }

  /** What a token adds stands somewhere in the expanded text. */
  lemma {:induction false} ExpandHolds(lex: Lexicon, tokens: seq<Token>, i: nat, target: nat) returns (k: nat)
    requires target < |tokens| && Reaches(lex, tokens, i, target)
    ensures var units := UnitsAt(lex, tokens, target);
      k + |units| <= |Expand(lex, tokens, i)| && Expand(lex, tokens, i)[k..k + |units|] == units
    decreases |tokens| - i
  {
    hide UnitsAt, After;
    if i == target {
      k := 0;
    } else {
      var later := ExpandHolds(lex, tokens, After(lex, tokens, i), target);
      k := |UnitsAt(lex, tokens, i)| + later;
    }
  }

  lemma {:induction false} RunUnitsEnds(tokens: seq<Token>, run: seq<nat>, ns: seq<ParsedNumber>)
    requires (forall k :: 0 <= k < |run| ==> run[k] < |tokens|) && SpansFit(ns, |run|) && ns != []
    ensures var units := RunUnits(tokens, run, ns);
      && units != [] && units[0].start == tokens[run[ns[0].firstWord]].start
      && units[|units| - 1].end == tokens[run[ns[|ns| - 1].lastWord]].end
    decreases |ns|
  {
    if |ns| > 1 { RunUnitsEnds(tokens, run, ns[..|ns| - 1]); }
  }

  /** Every number run the loop comes to stands in the expanded text as its numbers in
      digits, one space apart, from its first number's word on to its last one's. */
  lemma ExpandedRunReads(lex: Lexicon, tokens: seq<Token>, i: nat, target: nat) returns (k: nat, m: nat)
    requires target < |tokens| && Reaches(lex, tokens, i, target) && RunAt(lex, tokens, target) != []
    ensures k <= m <= |Expand(lex, tokens, i)|
    ensures var run, units := RunAt(lex, tokens, target), Expand(lex, tokens, i)[k..m];
      var ns := RunNumbers(lex, tokens, run);
      && ReadsAs(Codes(units), Values(ns))
      && (ns != [] ==>
          (&& units != [] && units[0].start == tokens[run[ns[0].firstWord]].start
           && units[|units| - 1].end == tokens[run[ns[|ns| - 1].lastWord]].end))
  {
    hide RunUnits, RunNumbers, RunAt, Expand, Codes, ReadsAs, Reaches;
    var run := RunAt(lex, tokens, target);
    var ns := RunNumbers(lex, tokens, run);
    k := ExpandHolds(lex, tokens, i, target);
    m := k + |UnitsAt(lex, tokens, target)|;
    RunUnitsRead(tokens, run, ns);
    if ns != [] { RunUnitsEnds(tokens, run, ns); }
  }

  lemma {:induction false} SpansEnds(vs: seq<Dictable>, base: nat)
    requires vs != []
    ensures var spans := Spans(vs, base);
      spans != [] && spans[0].firstWord == base && spans[|spans| - 1].lastWord == base + |SpellAll(vs)| - 1
    decreases |vs|
  {
    hide Spell;
    if |vs| > 1 { SpansEnds(vs[1..], base + |Spell(vs[0])|); }
  }

  /** A dictated run: its digits read as its numbers, and stand from its first word to its last. */
  lemma DictatedUnits(lex: Lexicon, tokens: seq<Token>, i: nat, vs: seq<Dictable>)
    requires ValidLexicon(lex) && i < |tokens| && RunAt(lex, tokens, i) != []
    requires RunWords(tokens, RunAt(lex, tokens, i)) == SpellAll(vs) && NoFusion(vs)
    ensures var run, units := RunAt(lex, tokens, i), UnitsAt(lex, tokens, i);
      && Codes(units) == Written(vs) && ReadsAs(Codes(units), vs) && units != []
      && units[0].start == tokens[run[0]].start && units[|units| - 1].end == tokens[run[|run| - 1]].end
  {
    hide RunUnits, Numbers, SpellAll, ValidLexicon, RunAt, Spans, ReadsAs;
    var run := RunAt(lex, tokens, i);
    DictatedRun(lex, tokens, run, vs);
    RoundTrip(lex, vs);
    assert vs != [] by { NothingSpelled(vs); }
    SpansEnds(vs, 0);
    RunUnitsEnds(tokens, run, RunNumbers(lex, tokens, run));
  }

  lemma NothingSpelled(vs: seq<Dictable>)
    ensures vs == [] ==> SpellAll(vs) == []
  {}
}

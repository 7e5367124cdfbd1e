/** Spelled-out numbers to digits: the cursor parser of number-words.ts.

    Words reach this module folded (lower case, accents stripped). The lexicon is
    a parameter: every theorem holds for any lexicon that satisfies
    `ValidLexicon`, and module ShippedLexicon shows that the program's one does. */
module NumberWords {
  import opened Options

  /** A folded word: the joiner, the French number words, or any other text. */
  datatype Word =
    | Et
    | Zero | Un | Deux | Trois | Quatre | Cinq | Six | Sept | Huit | Neuf
    | Dix | Onze | Douze | Treize | Quatorze | Quinze | Seize
    | Vingt | Vingts | Trente | Quarante | Cinquante | Soixante
    | Other(text: string)

  datatype WordKind = Unit | Teen | Tens

  datatype NumberWord = NumberWord(kind: WordKind, value: nat)

  type Lexicon = map<Word, NumberWord>

  /** A parsed number and the (inclusive) span of words it consumed. */
  datatype ParsedNumber = ParsedNumber(value: nat, firstWord: nat, lastWord: nat)

  /** What a parsing step read, and the index of the first word it left. */
  datatype Taken = Taken(value: nat, next: nat)

  // ------------------------------------------------------------- the lexicon

  function UnitWord(d: nat): Word
    requires d <= 9
  {
    match d
    case 0 => Zero case 1 => Un case 2 => Deux case 3 => Trois case 4 => Quatre
    case 5 => Cinq case 6 => Six case 7 => Sept case 8 => Huit case _ => Neuf
  }

  function TeenWord(v: nat): Word
    requires 10 <= v <= 16
  {
    match v
    case 10 => Dix case 11 => Onze case 12 => Douze case 13 => Treize
    case 14 => Quatorze case 15 => Quinze case _ => Seize
  }

  function TensWord(tens: nat): Word
    requires 2 <= tens <= 6
  {
    match tens
    case 2 => Vingt case 3 => Trente case 4 => Quarante case 5 => Cinquante case _ => Soixante
  }

  /** The entries every dictated French number relies on. */
  function FrenchEntry(w: Word): Option<NumberWord> {
    match w
    case Zero => Some(NumberWord(Unit, 0)) case Un => Some(NumberWord(Unit, 1))
    case Deux => Some(NumberWord(Unit, 2)) case Trois => Some(NumberWord(Unit, 3))
    case Quatre => Some(NumberWord(Unit, 4)) case Cinq => Some(NumberWord(Unit, 5))
    case Six => Some(NumberWord(Unit, 6)) case Sept => Some(NumberWord(Unit, 7))
    case Huit => Some(NumberWord(Unit, 8)) case Neuf => Some(NumberWord(Unit, 9))
    case Dix => Some(NumberWord(Teen, 10)) case Onze => Some(NumberWord(Teen, 11))
    case Douze => Some(NumberWord(Teen, 12)) case Treize => Some(NumberWord(Teen, 13))
    case Quatorze => Some(NumberWord(Teen, 14)) case Quinze => Some(NumberWord(Teen, 15))
    case Seize => Some(NumberWord(Teen, 16))
    case Vingt => Some(NumberWord(Tens, 20)) case Vingts => Some(NumberWord(Tens, 20))
    case Trente => Some(NumberWord(Tens, 30)) case Quarante => Some(NumberWord(Tens, 40))
    case Cinquante => Some(NumberWord(Tens, 50)) case Soixante => Some(NumberWord(Tens, 60))
    case Et => None case Other(_) => None
  }

  predicate ValidEntry(entry: NumberWord) {
    match entry.kind
    case Unit => entry.value <= 9
    case Teen => 10 <= entry.value <= 19
    case Tens => 20 <= entry.value <= 90 && entry.value % 10 == 0
  }

  /** The shape of the shipped tables: values fit their kind and "et" is only a joiner. */
  ghost predicate ValidLexicon(lex: Lexicon) {
    && Et !in lex
    && (forall w :: w in lex ==> ValidEntry(lex[w]))
    && (forall w :: FrenchEntry(w).Some? ==> w in lex && lex[w] == FrenchEntry(w).value)
  }

  // ------------------------------------------- what the parser is meant to do

  function KindAt(lex: Lexicon, w: seq<Word>, k: nat): Option<NumberWord> {
    if k < |w| && w[k] in lex then Some(lex[w[k]]) else None
  }

  predicate Reads(w: seq<Word>, k: nat, word: Word) {
    k < |w| && w[k] == word
  }

  predicate IsUnit(entry: Option<NumberWord>, atLeast: nat) {
    entry.Some? && entry.value.kind == Unit && entry.value.value >= atLeast
  }

  predicate IsTeen(entry: Option<NumberWord>) {
    entry.Some? && entry.value.kind == Teen
  }

  predicate StartsDixCompound(lex: Lexicon, w: seq<Word>, i: nat) {
    Reads(w, i, Dix) && IsUnit(KindAt(lex, w, i + 1), 7)
  }

  function SixtyOrEightyTail(lex: Lexicon, w: seq<Word>, i: nat): (r: Taken)
    requires i <= |w|
    ensures i <= r.next <= |w|
  {
    if StartsDixCompound(lex, w, i) then Taken(10 + lex[w[i + 1]].value, i + 2)
    else if IsTeen(KindAt(lex, w, i)) || IsUnit(KindAt(lex, w, i), 1) then Taken(lex[w[i]].value, i + 1)
    else Taken(0, i)
  }

  function TensTail(lex: Lexicon, w: seq<Word>, i: nat): (r: Taken)
    requires i <= |w|
    ensures i <= r.next <= |w|
  {
    if Reads(w, i, Et) then
      if KindAt(lex, w, i + 1).Some? && 0 < lex[w[i + 1]].value <= 11
      then Taken(lex[w[i + 1]].value, i + 2) else Taken(0, i)
    else if IsUnit(KindAt(lex, w, i), 1) then Taken(lex[w[i]].value, i + 1)
    else Taken(0, i)
  }

  predicate StartsEighty(w: seq<Word>, i: nat) {
    Reads(w, i, Quatre) && (Reads(w, i + 1, Vingt) || Reads(w, i + 1, Vingts))
  }

  function Plus(base: nat, tail: Taken): Taken {
    Taken(base + tail.value, tail.next)
  }

  /** The number spelled from word `i` on. */
  function One(lex: Lexicon, w: seq<Word>, i: nat): (r: Taken)
    requires i < |w|
    ensures i < r.next <= |w|
  {
    var current := KindAt(lex, w, i);
    if StartsEighty(w, i) then Plus(80, SixtyOrEightyTail(lex, w, i + 2))
    else if StartsDixCompound(lex, w, i) then Taken(10 + lex[w[i + 1]].value, i + 2)
    else if current.None? then Taken(0, i + 1)
    else if current.value.kind != Tens then Taken(current.value.value, i + 1)
    else if current.value.value == 60 then Plus(60, SixtyOrEightyTail(lex, w, i + 1))
    else Plus(current.value.value, TensTail(lex, w, i + 1))
  }

  /** The numbers spelled from word `i` on. */
  function Numbers(lex: Lexicon, w: seq<Word>, i: nat): seq<ParsedNumber>
    requires i <= |w|
    decreases |w| - i
  {
    if i == |w| then []
    else if w[i] == Et then Numbers(lex, w, i + 1)
    else
      var t := One(lex, w, i);
      [ParsedNumber(t.value, i, t.next - 1)] + Numbers(lex, w, t.next)
  }

  // ------------------------------------------------- the program's own parser

  class Cursor {
    const lex: Lexicon
    const words: seq<Word>
    var index: nat

    constructor (lex: Lexicon, words: seq<Word>)
      ensures this.lex == lex && this.words == words && index == 0
    {
      this.lex := lex;
      this.words := words;
      index := 0;
    }

    ghost predicate Valid()
      reads this
    {
      index <= |words|
    }

    function Peek(offset: nat): Option<Word>
      reads this
    {
      if index + offset < |words| then Some(words[index + offset]) else None
    }

    function Kind(offset: nat): Option<NumberWord>
      reads this
    {
      KindAt(lex, words, index + offset)
    }

    method TakeDixCompound() returns (value: Option<nat>)
      requires Valid()
      modifies this
      ensures Valid()
      ensures value.Some? == StartsDixCompound(lex, words, old(index))
      ensures value.Some? ==> value.value == 10 + lex[words[old(index) + 1]].value && index == old(index) + 2
      ensures value.None? ==> index == old(index)
    {
      if Peek(0) != Some(Dix) { return None; }
      var unit := Kind(1);
      if unit.Some? && unit.value.kind == Unit && unit.value.value >= 7 {
        index := index + 2;
        return Some(10 + unit.value.value);
      }
      return None;
    }

    method TakeSixtyOrEightyTail() returns (value: nat)
      requires Valid()
      modifies this
      ensures Valid()
      ensures Taken(value, index) == SixtyOrEightyTail(lex, words, old(index))
    {
      var dix := TakeDixCompound();
      if dix.Some? { return dix.value; }
      var next := Kind(0);
      if next.Some? && (next.value.kind == Teen || (next.value.kind == Unit && next.value.value > 0)) {
        index := index + 1;
        return next.value.value;
      }
      return 0;
    }

    method TakeTensTail() returns (value: nat)
      requires Valid()
      modifies this
      ensures Valid()
      ensures Taken(value, index) == TensTail(lex, words, old(index))
    {
      if Peek(0) == Some(Et) {
        var after := Kind(1);
        if after.Some? && after.value.value > 0 && after.value.value <= 11 {
          index := index + 2;
          return after.value.value;
        }
        return 0;
      }
      var next := Kind(0);
      if next.Some? && next.value.kind == Unit && next.value.value > 0 {
        index := index + 1;
        return next.value.value;
      }
      return 0;
    }

    method ParseOne() returns (value: nat)
      requires Valid() && index < |words|
      modifies this
      ensures Valid()
      ensures Taken(value, index) == One(lex, words, old(index))
    {
      var word := Peek(0);
      var current := Kind(0);
      if word == Some(Quatre) && (Peek(1) == Some(Vingt) || Peek(1) == Some(Vingts)) {
        index := index + 2;
        var tail := TakeSixtyOrEightyTail();
        return 80 + tail;
      }
      var dix := TakeDixCompound();
      if dix.Some? { return dix.value; }
      index := index + 1;
      if !(current.Some? && current.value.kind == Tens) {
        return if current.Some? then current.value.value else 0;
      }
      if current.value.value == 60 {
        var tail := TakeSixtyOrEightyTail();
        return 60 + tail;
      }
      var tail := TakeTensTail();
      return current.value.value + tail;
    }
  }

  /** parseNumberWords: the loop computes exactly `Numbers`. */
  method ParseNumberWords(lex: Lexicon, words: seq<Word>) returns (numbers: seq<ParsedNumber>)
    ensures numbers == Numbers(lex, words, 0)
  {
    hide One;
    var cursor := new Cursor(lex, words);
    numbers := [];
    while cursor.index < |words|
      invariant cursor.Valid() && cursor.words == words && cursor.lex == lex
      invariant fresh(cursor)
      invariant numbers + Numbers(lex, words, cursor.index) == Numbers(lex, words, 0)
      decreases |words| - cursor.index
    {
      if cursor.Peek(0) == Some(Et) {
        cursor.index := cursor.index + 1;
      } else {
        var firstWord := cursor.index;
        var value := cursor.ParseOne();
        numbers := numbers + [ParsedNumber(value, firstWord, cursor.index - 1)];
      }
    }
  }

  // ------------------------------------------------ properties of every input

  ghost predicate Covered(numbers: seq<ParsedNumber>, k: nat) {
    exists i :: 0 <= i < |numbers| && numbers[i].firstWord <= k <= numbers[i].lastWord
  }

  ghost predicate OrderedSpans(numbers: seq<ParsedNumber>, from: nat, to: nat) {
    && (forall i :: 0 <= i < |numbers| ==> from <= numbers[i].firstWord <= numbers[i].lastWord < to)
    && (forall i, j :: 0 <= i < j < |numbers| ==> numbers[i].lastWord < numbers[j].firstWord)
  }

  /** On any words at all, spans are ordered, disjoint and inside the input ... */
  lemma {:induction false} SpansAreOrdered(lex: Lexicon, w: seq<Word>, i: nat)
    requires i <= |w|
    ensures OrderedSpans(Numbers(lex, w, i), i, |w|)
    decreases |w| - i
  {
    hide One;
    if i == |w| {
    } else if w[i] == Et {
      SpansAreOrdered(lex, w, i + 1);
    } else {
      SpansAreOrdered(lex, w, One(lex, w, i).next);
    }
  }

  /** ... and every word but the joiner belongs to one of them. */
  lemma {:induction false} SpansCover(lex: Lexicon, w: seq<Word>, i: nat, k: nat)
    requires i <= k < |w| && w[k] != Et
    ensures Covered(Numbers(lex, w, i), k)
    decreases |w| - i
  {
    hide One;
    var ns := Numbers(lex, w, i);
    if w[i] == Et {
      SpansCover(lex, w, i + 1, k);
    } else {
      var next := One(lex, w, i).next;
      if k < next {
        assert ns[0].firstWord <= k <= ns[0].lastWord;
      } else {
        var rest := Numbers(lex, w, next);
        SpansCover(lex, w, next, k);
        var j :| 0 <= j < |rest| && rest[j].firstWord <= k <= rest[j].lastWord;
        assert ns[j + 1] == rest[j];
      }
    }
  }

  lemma OneIsBounded(lex: Lexicon, w: seq<Word>, i: nat)
    requires ValidLexicon(lex) && i < |w|
    ensures One(lex, w, i).value <= 101
  {
    hide FrenchEntry;
  }

  /** No input spells a number above 101 ... */
  lemma {:induction false} ValuesAreBounded(lex: Lexicon, w: seq<Word>, i: nat)
    requires ValidLexicon(lex) && i <= |w|
    ensures forall n :: n in Numbers(lex, w, i) ==> n.value <= 101
    decreases |w| - i
  {
    hide One, ValidLexicon;
    if i == |w| {
    } else if w[i] == Et {
      ValuesAreBounded(lex, w, i + 1);
    } else {
      OneIsBounded(lex, w, i);
      ValuesAreBounded(lex, w, One(lex, w, i).next);
    }
  }

  /** ... above 99 exactly when a word worth 90 is joined by "et" to one worth 10 or 11 ... */
  lemma AboveNinetyNine(lex: Lexicon, w: seq<Word>, i: nat)
    requires ValidLexicon(lex) && i < |w|
    ensures One(lex, w, i).value > 99 <==>
      && KindAt(lex, w, i).Some? && lex[w[i]].value == 90 && Reads(w, i + 1, Et)
      && KindAt(lex, w, i + 2).Some? && lex[w[i + 2]].value in {10, 11}
  {
    hide FrenchEntry;
  }

  /** ... and 101 itself is reached, through the joiner: "ninety et onze". */
  lemma LargestValue(lex: Lexicon)
    requires ValidLexicon(lex) && Other("ninety") in lex && lex[Other("ninety")] == NumberWord(Tens, 90)
    ensures Numbers(lex, [Other("ninety"), Et, Onze], 0) == [ParsedNumber(101, 0, 2)]
  {
    var w := [Other("ninety"), Et, Onze];
    assert FrenchEntry(Onze).Some?;
    assert One(lex, w, 0) == Taken(101, 3);
    assert Numbers(lex, w, 3) == [];
  }

  // ---------------------------------------------------------- the round trip

  /** The values a phone number is dictated in. */
  type Dictable = v: nat | v <= 99

  /** French spelling of 0..99, with 61 and 71 spelled without "et". */
  function Spell(v: Dictable): (words: seq<Word>)
    ensures words != []
  {
    if v <= 19 then SpellSmall(v)
    else if v <= 59 then
      [TensWord(v / 10)] + (if v % 10 == 0 then [] else if v % 10 == 1 then [Et, Un] else [UnitWord(v % 10)])
    else if v == 60 then [Soixante]
    else if v <= 79 then [Soixante] + SpellSmall(v - 60)
    else if v == 80 then [Quatre, Vingts]
    else [Quatre, Vingt] + SpellSmall(v - 80)
  }

  function SpellSmall(v: nat): (words: seq<Word>)
    requires v <= 19
    ensures words != []
  {
    if v <= 9 then [UnitWord(v)] else if v <= 16 then [TeenWord(v)] else [Dix, UnitWord(v - 10)]
  }

  function SpellAll(vs: seq<Dictable>): seq<Word>
  {
    if vs == [] then [] else Spell(vs[0]) + SpellAll(vs[1..])
  }

  /** The parse one wants: each value, on exactly its own words. */
  function Spans(vs: seq<Dictable>, base: nat): seq<ParsedNumber>
  {
    if vs == [] then []
    else
      var n := |Spell(vs[0])|;
      [ParsedNumber(vs[0], base, base + n - 1)] + Spans(vs[1..], base + n)
  }

  /** `u` dictated just before `v` is heard as one number: "vingt" "quatre",
      "dix" "sept", "quatre" "vingt". */
  predicate Fuses(u: Dictable, v: Dictable) {
    || (u == 4 && 20 <= v <= 29)
    || (u in {10, 70, 90} && 7 <= v <= 9)
    || (u in {20, 30, 40, 50} && (1 <= v <= 9 || 80 <= v <= 99))
    || (u in {60, 80} && (1 <= v <= 19 || 80 <= v <= 99))
  }

  predicate FusesNext(u: Dictable, vs: seq<Dictable>) {
    vs != [] && Fuses(u, vs[0])
  }

  predicate NoFusion(vs: seq<Dictable>) {
    forall i :: 0 <= i < |vs| - 1 ==> !Fuses(vs[i], vs[i + 1])
  }

  /** What the lexicon says of the first word of a spelled number. */
  function HeadEntry(v: Dictable): NumberWord
  {
    if v <= 9 then NumberWord(Unit, v)
    else if v <= 19 then NumberWord(Teen, if v <= 16 then v else 10)
    else if v <= 79 then NumberWord(Tens, if v <= 59 then v - v % 10 else 60)
    else NumberWord(Unit, 4)
  }

  lemma HeadOfSpelling(v: Dictable)
    ensures FrenchEntry(Spell(v)[0]) == Some(HeadEntry(v))
    ensures Spell(v)[0] == Vingt <==> 20 <= v <= 29
    ensures Spell(v)[0] != Vingts && Spell(v)[0] != Et
    ensures Spell(v)[0] == Quatre <==> v == 4 || 80 <= v <= 99
    ensures Spell(v)[0] == Dix <==> v == 10 || 17 <= v <= 19
  {
  }

  /** The words from `i` on are the spellings of `vs`, and nothing else. */
  ghost predicate Dictated(w: seq<Word>, i: nat, vs: seq<Dictable>)
    requires i <= |w|
  {
    w[i..] == SpellAll(vs)
  }

  /** What a parser that looks one or two words past a number can see there. */
  lemma NextWord(lex: Lexicon, w: seq<Word>, i: nat, vs: seq<Dictable>)
    requires ValidLexicon(lex) && i <= |w|
    requires Dictated(w, i, vs)
    ensures vs == [] ==> i == |w|
    ensures vs != [] ==> i < |w| && KindAt(lex, w, i) == Some(HeadEntry(vs[0]))
    ensures Reads(w, i, Vingt) <==> vs != [] && 20 <= vs[0] <= 29
    ensures !Reads(w, i, Vingts) && !Reads(w, i, Et)
    ensures Reads(w, i, Dix) <==> vs != [] && (vs[0] == 10 || 17 <= vs[0] <= 19)
    ensures Reads(w, i, Quatre) <==> vs != [] && (vs[0] == 4 || 80 <= vs[0] <= 99)
  {
    if vs != [] {
      HeadOfSpelling(vs[0]);
      assert w[i] == w[i..][0] == Spell(vs[0])[0];
    }
  }

  /** Words `i`, `i + 1`, ... of `w` are exactly `words`. */
  ghost predicate At(w: seq<Word>, i: nat, words: seq<Word>) {
    i + |words| <= |w| && forall k :: 0 <= k < |words| ==> w[i + k] == words[k]
  }

  lemma AtTail(w: seq<Word>, i: nat, front: seq<Word>, back: seq<Word>)
    requires At(w, i, front + back)
    ensures At(w, i + |front|, back)
  {
    var j := i + |front|;
    forall k | 0 <= k < |back| ensures w[j + k] == back[k] {
      assert w[i + (|front| + k)] == (front + back)[|front| + k];
    }
  }

  lemma DictatedStep(w: seq<Word>, i: nat, u: Dictable, vs: seq<Dictable>)
    requires i <= |w| && Dictated(w, i, [u] + vs)
    ensures i + |Spell(u)| <= |w|
    ensures At(w, i, Spell(u))
    ensures Dictated(w, i + |Spell(u)|, vs)
  {
    hide Spell;
    assert ([u] + vs)[1..] == vs;
    assert w[i..] == Spell(u) + SpellAll(vs);
    assert w[i + |Spell(u)|..] == w[i..][|Spell(u)|..];
    forall k | 0 <= k < |Spell(u)| ensures w[i + k] == Spell(u)[k] {
      assert w[i + k] == w[i..][k];
    }
  }

  /** The parser's view of a spelling of 0..19. */
  lemma SmallAt(lex: Lexicon, w: seq<Word>, i: nat, u: Dictable)
    requires ValidLexicon(lex) && u <= 19 && At(w, i, SpellSmall(u))
    ensures KindAt(lex, w, i) == Some(HeadEntry(u))
    ensures Reads(w, i, Dix) <==> u == 10 || u > 16
    ensures Reads(w, i, Quatre) <==> u == 4
    ensures |SpellSmall(u)| == if u > 16 then 2 else 1
    ensures u > 16 ==> KindAt(lex, w, i + 1) == Some(NumberWord(Unit, u - 10))
  {
    HeadOfSpelling(u);
    assert w[i] == SpellSmall(u)[0];
    if u > 16 {
      assert w[i + 1] == SpellSmall(u)[1];
      assert FrenchEntry(w[i + 1]) == Some(NumberWord(Unit, u - 10));
    }
  }

  lemma SmallSpelling(lex: Lexicon, w: seq<Word>, i: nat, u: Dictable, vs: seq<Dictable>)
    requires ValidLexicon(lex) && u <= 19 && At(w, i, SpellSmall(u))
    requires Dictated(w, i + |SpellSmall(u)|, vs)
    ensures One(lex, w, i) == Taken(u, i + |SpellSmall(u)|) <==> !FusesNext(u, vs)
  {
    hide SpellAll, Dictated, ValidLexicon, SpellSmall, At;
    SmallAt(lex, w, i, u);
    NextWord(lex, w, i + |SpellSmall(u)|, vs);
  }

  /** What "soixante" and "quatre-vingt" read after themselves: the spelling of
      1..19 they carry, or nothing unless the next number is drawn in. */
  lemma SixtyTail(lex: Lexicon, w: seq<Word>, i: nat, t: nat, vs: seq<Dictable>)
    requires ValidLexicon(lex) && 1 <= t <= 19 && At(w, i, SpellSmall(t))
    requires Dictated(w, i + |SpellSmall(t)|, vs)
    ensures SixtyOrEightyTail(lex, w, i) == Taken(t, i + |SpellSmall(t)|) <==> !(t == 10 && FusesNext(10, vs))
  {
    hide SpellAll, Dictated, ValidLexicon, SpellSmall, At;
    SmallAt(lex, w, i, t);
    NextWord(lex, w, i + |SpellSmall(t)|, vs);
  }

  lemma EmptySixtyTail(lex: Lexicon, w: seq<Word>, i: nat, vs: seq<Dictable>)
    requires ValidLexicon(lex) && i <= |w| && Dictated(w, i, vs)
    ensures SixtyOrEightyTail(lex, w, i) == Taken(0, i) <==> !FusesNext(60, vs)
  {
    hide SpellAll, Dictated;
    NextWord(lex, w, i, vs);
  }

  lemma EmptyTensTail(lex: Lexicon, w: seq<Word>, i: nat, vs: seq<Dictable>)
    requires ValidLexicon(lex) && i <= |w| && Dictated(w, i, vs)
    ensures TensTail(lex, w, i) == Taken(0, i) <==> !FusesNext(20, vs)
  {
    hide SpellAll, Dictated;
    NextWord(lex, w, i, vs);
  }

  lemma PlainTensSpelling(lex: Lexicon, w: seq<Word>, i: nat, u: Dictable, vs: seq<Dictable>)
    requires ValidLexicon(lex) && 20 <= u <= 59 && At(w, i, Spell(u))
    requires Dictated(w, i + |Spell(u)|, vs)
    ensures One(lex, w, i) == Taken(u, i + |Spell(u)|) <==> !FusesNext(u, vs)
  {
    hide SpellAll, Dictated;
    HeadOfSpelling(u);
    assert w[i] == Spell(u)[0];
    assert KindAt(lex, w, i) == Some(HeadEntry(u));
    if u % 10 == 0 {
      EmptyTensTail(lex, w, i + 1, vs);
    } else if u % 10 == 1 {
      assert w[i + 1] == Spell(u)[1] == Et && w[i + 2] == Spell(u)[2] == Un;
      assert FrenchEntry(Un).Some?;
    } else {
      assert w[i + 1] == Spell(u)[1] == UnitWord(u % 10);
      assert FrenchEntry(w[i + 1]) == Some(NumberWord(Unit, u % 10));
    }
  }

  lemma SixtiesSpelling(lex: Lexicon, w: seq<Word>, i: nat, u: Dictable, vs: seq<Dictable>)
    requires ValidLexicon(lex) && 60 <= u <= 79 && At(w, i, Spell(u))
    requires Dictated(w, i + |Spell(u)|, vs)
    ensures One(lex, w, i) == Taken(u, i + |Spell(u)|) <==> !FusesNext(u, vs)
  {
    hide SpellAll, Dictated, SixtyOrEightyTail, SpellSmall;
    assert w[i] == Spell(u)[0];
    assert FrenchEntry(Soixante).Some?;
    assert KindAt(lex, w, i) == Some(NumberWord(Tens, 60));
    if u == 60 {
      EmptySixtyTail(lex, w, i + 1, vs);
    } else {
      AtTail(w, i, [Soixante], SpellSmall(u - 60));
      SixtyTail(lex, w, i + 1, u - 60, vs);
    }
  }

  lemma EightiesSpelling(lex: Lexicon, w: seq<Word>, i: nat, u: Dictable, vs: seq<Dictable>)
    requires ValidLexicon(lex) && 80 <= u <= 99 && At(w, i, Spell(u))
    requires Dictated(w, i + |Spell(u)|, vs)
    ensures One(lex, w, i) == Taken(u, i + |Spell(u)|) <==> !FusesNext(u, vs)
  {
    hide SpellAll, Dictated, SixtyOrEightyTail, ValidLexicon, SpellSmall;
    assert w[i] == Spell(u)[0] && w[i + 1] == Spell(u)[1];
    assert StartsEighty(w, i);
    if u == 80 {
      EmptySixtyTail(lex, w, i + 2, vs);
    } else {
      AtTail(w, i, [Quatre, Vingt], SpellSmall(u - 80));
      SixtyTail(lex, w, i + 2, u - 80, vs);
    }
  }

  /** One spelled number is read back, on exactly its words, if and only if the
      next one is not drawn into it. */
  lemma OneSpelling(lex: Lexicon, w: seq<Word>, i: nat, u: Dictable, vs: seq<Dictable>)
    requires ValidLexicon(lex) && At(w, i, Spell(u))
    requires Dictated(w, i + |Spell(u)|, vs)
    ensures One(lex, w, i) == Taken(u, i + |Spell(u)|) <==> !FusesNext(u, vs)
  {
    hide SpellAll, Dictated, One, At;
    if u <= 19 {
      SmallSpelling(lex, w, i, u, vs);
    } else if u <= 59 {
      PlainTensSpelling(lex, w, i, u, vs);
    } else if u <= 79 {
      SixtiesSpelling(lex, w, i, u, vs);
    } else {
      EightiesSpelling(lex, w, i, u, vs);
    }
  }

  lemma NoFusionStep(u: Dictable, vs: seq<Dictable>)
    ensures NoFusion([u] + vs) <==> !FusesNext(u, vs) && NoFusion(vs)
  {
    var all := [u] + vs;
    if NoFusion(all) {
      forall i | 0 <= i < |vs| - 1 ensures !Fuses(vs[i], vs[i + 1]) {
        assert !Fuses(all[i + 1], all[i + 2]);
      }
      if vs != [] { assert !Fuses(all[0], all[1]); }
    }
    if !FusesNext(u, vs) && NoFusion(vs) {
      forall i | 0 <= i < |all| - 1 ensures !Fuses(all[i], all[i + 1]) {
        if i > 0 { assert !Fuses(vs[i - 1], vs[i]); }
      }
    }
  }

  lemma SameHeadAndTail<T>(a: T, x: seq<T>, b: T, y: seq<T>)
    ensures [a] + x == [b] + y <==> a == b && x == y
  {
    if [a] + x == [b] + y {
      assert ([a] + x)[0] == ([b] + y)[0];
      assert ([a] + x)[1..] == x && ([b] + y)[1..] == y;
    }
  }

  lemma ParseAfterSpelling(lex: Lexicon, w: seq<Word>, i: nat, u: Dictable, vs: seq<Dictable>, spans: seq<ParsedNumber>)
    requires ValidLexicon(lex) && i <= |w| && Dictated(w, i, [u] + vs)
    ensures i + |Spell(u)| <= |w| && Dictated(w, i + |Spell(u)|, vs)
    ensures Numbers(lex, w, i) == [ParsedNumber(u, i, i + |Spell(u)| - 1)] + spans
      <==> !FusesNext(u, vs) && Numbers(lex, w, i + |Spell(u)|) == spans
  {
    hide One, Spell, SpellAll, At, Dictated, ValidLexicon, Fuses, FusesNext, HeadEntry, Numbers;
    var next := i + |Spell(u)|;
    DictatedStep(w, i, u, vs);
    OneSpelling(lex, w, i, u, vs);
    NextWord(lex, w, i, [u] + vs);
    NumbersStep(lex, w, i);
    var t := One(lex, w, i);
    SameHeadAndTail(ParsedNumber(t.value, i, t.next - 1), Numbers(lex, w, t.next), ParsedNumber(u, i, next - 1), spans);
  }

  lemma NumbersStep(lex: Lexicon, w: seq<Word>, i: nat)
    requires i < |w| && w[i] != Et
    ensures var t := One(lex, w, i);
      Numbers(lex, w, i) == [ParsedNumber(t.value, i, t.next - 1)] + Numbers(lex, w, t.next)
  {
    hide One;
  }

  lemma RoundTripStep(lex: Lexicon, w: seq<Word>, i: nat, u: Dictable, rest: seq<Dictable>)
    requires ValidLexicon(lex) && i <= |w| && Dictated(w, i, [u] + rest)
    requires i + |Spell(u)| <= |w|
      && (Numbers(lex, w, i + |Spell(u)|) == Spans(rest, i + |Spell(u)|) <==> NoFusion(rest))
    ensures Numbers(lex, w, i) == Spans([u] + rest, i) <==> NoFusion([u] + rest)
  {
    hide One, Spell, SpellAll, Dictated, ValidLexicon, Fuses, NoFusion, FusesNext, Numbers;
    var vs := [u] + rest;
    assert vs[1..] == rest;
    ParseAfterSpelling(lex, w, i, u, rest, Spans(rest, i + |Spell(u)|));
    NoFusionStep(u, rest);
  }

  lemma {:induction false} RoundTripFrom(lex: Lexicon, w: seq<Word>, i: nat, vs: seq<Dictable>)
    requires ValidLexicon(lex) && i <= |w| && Dictated(w, i, vs)
    ensures Numbers(lex, w, i) == Spans(vs, i) <==> NoFusion(vs)
    decreases |vs|
  {
    hide One, Spell, ValidLexicon, Fuses, FusesNext;
    if vs == [] {
      assert i == |w|;
    } else {
      assert vs == [vs[0]] + vs[1..];
      ParseAfterSpelling(lex, w, i, vs[0], vs[1..], []);
      RoundTripFrom(lex, w, i + |Spell(vs[0])|, vs[1..]);
      RoundTripStep(lex, w, i, vs[0], vs[1..]);
    }
  }

  /** The round trip, exactly: dictating any list of values 0..99 is read back
      as that list, word spans included, if and only if no neighbours fuse. */
  lemma RoundTrip(lex: Lexicon, vs: seq<Dictable>)
    requires ValidLexicon(lex)
    ensures Numbers(lex, SpellAll(vs), 0) == Spans(vs, 0) <==> NoFusion(vs)
  {
    var w := SpellAll(vs);
    assert w[0..] == w;
    RoundTripFrom(lex, w, 0, vs);
  }
}

/** The lexicon the program ships, and the proof that the theorems of
    NumberWords apply to it. Folded texts that NumberWords names by a constructor
    stand for themselves; every other entry is listed here by value. */
module ShippedLexicon {
  import opened NumberWords

  const FRENCH_WORDS: set<Word> := {
    Zero, Un, Deux, Trois, Quatre, Cinq, Six, Sept, Huit, Neuf, Dix, Onze, Douze, Treize, Quatorze, Quinze, Seize,
    Vingt, Vingts, Trente, Quarante, Cinquante, Soixante}

  /** "une", English, darija in Latin script, and Arabic script. */
  function OtherSpellings(value: nat): set<string> {
    match value
    case 0 => {"sifr", "صفر"}
    case 1 => {"une", "one", "wahed", "wa7ed", "واحد"}
    case 2 => {"two", "jouj", "zouj", "اثنان", "اثنين", "جوج"}
    case 3 => {"three", "tlata", "tlat", "ثلاثة", "تلاتة"}
    case 4 => {"four", "rb3a", "reb3a", "arba3a", "أربعة", "اربعة", "ربعة"}
    case 5 => {"five", "khamsa", "5amsa", "خمسة"}
    case 6 => {"stta", "sitta", "ستة"}
    case 7 => {"seven", "sb3a", "seb3a", "سبعة"}
    case 8 => {"eight", "tmnya", "tmenya", "tmanya", "ثمانية", "تمنية"}
    case 9 => {"nine", "ts3oud", "tes3oud", "tis3a", "تسعة", "تسعود"}
    case 10 => {"ten"}
    case 11 => {"eleven"}
    case 12 => {"twelve"}
    case 13 => {"thirteen"}
    case 14 => {"fourteen"}
    case 15 => {"fifteen"}
    case 16 => {"sixteen"}
    case 17 => {"seventeen"}
    case 18 => {"eighteen"}
    case 19 => {"nineteen"}
    case 20 => {"twenty"}
    case 30 => {"thirty"}
    case 40 => {"forty"}
    case 50 => {"fifty"}
    case 60 => {"sixty"}
    case 70 => {"seventy"}
    case 80 => {"eighty"}
    case 90 => {"ninety"}
    case _ => {}
  }

  ghost const OTHER_TEXTS: set<string> := set value, text | 0 <= value <= 90 && text in OtherSpellings(value) :: text

  ghost function ValueOf(text: string): (value: nat)
    requires text in OTHER_TEXTS
    ensures value <= 90 && text in OtherSpellings(value)
  {
    var value: nat :| value <= 90 && text in OtherSpellings(value);
    value
  }

  function EntryFor(value: nat): NumberWord {
    NumberWord(if value <= 9 then Unit else if value <= 19 then Teen else Tens, value)
  }

  lemma OtherSpellingsAreValid(value: nat)
    requires value <= 90 && OtherSpellings(value) != {}
    ensures ValidEntry(EntryFor(value))
  {
  }

  lemma EveryOtherEntryIsValid(text: string)
    requires text in OTHER_TEXTS
    ensures ValidEntry(EntryFor(ValueOf(text)))
  {
    OtherSpellingsAreValid(ValueOf(text));
  }

  lemma FrenchWordsAreListed(w: Word)
    ensures w in FRENCH_WORDS <==> FrenchEntry(w).Some?
    ensures FrenchEntry(w).Some? ==> ValidEntry(FrenchEntry(w).value)
  {
  }

  ghost const FRENCH_PART: Lexicon := map w | w in FRENCH_WORDS && FrenchEntry(w).Some? :: FrenchEntry(w).value
  ghost const OTHER_WORDS: set<Word> := set text | text in OTHER_TEXTS :: Other(text)
  ghost const OTHER_PART: Lexicon :=
    map w | w in OTHER_WORDS && w.Other? && w.text in OTHER_TEXTS :: EntryFor(ValueOf(w.text))
  ghost const LEXICON: Lexicon := FRENCH_PART + OTHER_PART

  lemma OtherPartIsValid(w: Word)
    requires w in OTHER_PART
    ensures w.Other? && ValidEntry(OTHER_PART[w])
  {
    hide OtherSpellings, EntryFor, OTHER_TEXTS;
    EveryOtherEntryIsValid(w.text);
  }

  /** The shipped lexicon has the shape every theorem on the parser asks for. */
  lemma LexiconIsValid()
    ensures ValidLexicon(LEXICON)
  {
    hide FrenchEntry, FRENCH_WORDS, OTHER_PART, ValidEntry;
    OtherIsNotFrench(Et);
    FrenchWordsAreListed(Et);
    forall w | w in LEXICON ensures w != Et && ValidEntry(LEXICON[w]) {
      FrenchWordsAreListed(w);
      if w in OTHER_PART { OtherPartIsValid(w); }
    }
    forall w | FrenchEntry(w).Some? ensures w in LEXICON && LEXICON[w] == FrenchEntry(w).value {
      FrenchWordsAreListed(w);
      if w in OTHER_PART { OtherPartIsValid(w); assert FrenchEntry(w).None? by { OtherIsNotFrench(w); } }
    }
  }

  lemma OtherIsNotFrench(w: Word)
    requires w.Other? || w.Et?
    ensures FrenchEntry(w).None?
  {
  }

  lemma NinetyIsNinety(value: nat)
    requires value != 90
    ensures "ninety" !in OtherSpellings(value)
  {}

  lemma NinetyIsListed()
    ensures Other("ninety") in LEXICON && LEXICON[Other("ninety")] == NumberWord(Tens, 90)
  {
    var text := "ninety";
    assert text in OtherSpellings(90);
    hide OtherSpellings, FRENCH_WORDS;
    assert text in OTHER_TEXTS;
    if ValueOf(text) != 90 { NinetyIsNinety(ValueOf(text)); }
    assert Other(text) in OTHER_PART;
  }

  /** The program itself reads "ninety et onze" as 101, and no text as more. */
  lemma LargestShippedValue(w: seq<Word>)
    ensures Numbers(LEXICON, [Other("ninety"), Et, Onze], 0) == [ParsedNumber(101, 0, 2)]
    ensures forall n :: n in Numbers(LEXICON, w, 0) ==> n.value <= 101
  {
    hide FRENCH_WORDS, FRENCH_PART, OTHER_PART, ValidLexicon, Numbers;
    LexiconIsValid();
    NinetyIsListed();
    LargestValue(LEXICON);
    ValuesAreBounded(LEXICON, w, 0);
  }
}

/** The phone segmenter of contact-detection.ts. A candidate is what the phone
    regular expression matched; whether a string of digits is a number of some
    numbering plan is an arbitrary predicate. */
module PhoneRuns {
  import opened Options
  import opened Normalize

  const PHONE_MIN_DIGITS := 8
  const PHONE_MAX_DIGITS := 15
  const PLUS: CodeUnit := 0x2b

  type Validity = Text -> bool

  /** A maximal run of digits, at [start, end) of the normalised text. */
  datatype DigitGroup = DigitGroup(digits: Text, start: nat, end: nat)

  /** Consecutive groups `first` to `last`, both included. */
  datatype Run = Run(first: nat, last: nat)

  datatype Range = Range(start: nat, end: nat)

  /** The digits of groups `from` up to but not including `to`. */
  function Digits(groups: seq<DigitGroup>, from: nat, until: nat): Text
    requires from <= until <= |groups|
    decreases until
  {
    if from == until then [] else Digits(groups, from, until - 1) + groups[until - 1].digits
  }

  function Candidate(from: nat, plusPrefixed: bool, digits: Text): Text {
    (if from == 0 && plusPrefixed then [PLUS] else []) + digits
  }

  /** Groups `from` to `last` together are a phone number. */
  predicate IsPhone(valid: Validity, groups: seq<DigitGroup>, plusPrefixed: bool, from: nat, last: nat) {
    && from <= last < |groups|
    && var digits := Digits(groups, from, last + 1);
       PHONE_MIN_DIGITS <= |digits| <= PHONE_MAX_DIGITS && valid(Candidate(from, plusPrefixed, digits))
  }

  /** What is looked up is 8 to 15 digits, with the "+" of the match in front only when they
      are its first ones. */
  lemma PhoneMeans(valid: Validity, groups: seq<DigitGroup>, plusPrefixed: bool, from: nat, last: nat)
    requires from <= last < |groups|
    ensures var digits := Digits(groups, from, last + 1);
      && digits == Digits(groups, from, last) + groups[last].digits
      && (IsPhone(valid, groups, plusPrefixed, from, last) <==>
            8 <= |digits| <= 15 && if plusPrefixed && from == 0 then valid([0x2b] + digits) else valid(digits))
  {
    assert [] + Digits(groups, from, last + 1) == Digits(groups, from, last + 1);
  }

  lemma {:induction false} MoreGroupsMoreDigits(groups: seq<DigitGroup>, from: nat, until: nat, until': nat)
    requires from <= until <= until' <= |groups|
    ensures |Digits(groups, from, until)| <= |Digits(groups, from, until')|
    decreases until'
  {
    if until < until' {
      MoreGroupsMoreDigits(groups, from, until, until' - 1);
    }
  }

  /** longestPhoneFrom. The answer is the longest number that starts at `from`, and
      there is none exactly when no number starts there: giving up once 15 digits
      are exceeded loses nothing. */
  method LongestPhoneFrom(valid: Validity, groups: seq<DigitGroup>, from: nat,
          plusPrefixed: bool) returns (best: Option<nat>)
    requires from <= |groups|
    ensures best.Some? ==> IsPhone(valid, groups, plusPrefixed, from, best.value)
    ensures forall t: nat :: IsPhone(valid, groups, plusPrefixed, from, t) ==> best.Some? && t <= best.value
  {
    var digits := [];
    best := None;
    var last := from;
    while last < |groups|
      invariant from <= last <= |groups| && digits == Digits(groups, from, last)
      invariant best.Some? ==> best.value < last && IsPhone(valid, groups, plusPrefixed, from, best.value)
      invariant forall t: nat :: t < last && IsPhone(valid, groups, plusPrefixed, from, t) ==>
        best.Some? && t <= best.value
    {
      digits := digits + groups[last].digits;
      if |digits| > PHONE_MAX_DIGITS {
        forall t: nat | last <= t < |groups| ensures !IsPhone(valid, groups, plusPrefixed, from, t) {
          MoreGroupsMoreDigits(groups, from, last + 1, t + 1);
        }
        break;
      }
      if |digits| >= PHONE_MIN_DIGITS && valid(Candidate(from, plusPrefixed, digits)) { best := Some(last); }
      last := last + 1;
    }
  }

  /** The longest number from `from` that ends before group `until`. */
  function Longest(valid: Validity, groups: seq<DigitGroup>, plusPrefixed: bool, from: nat,
          until: nat): (best: Option<nat>)
    requires until <= |groups|
    ensures best.Some? ==> IsPhone(valid, groups, plusPrefixed, from, best.value) && from <= best.value < until
    ensures forall t: nat :: t < until && IsPhone(valid, groups, plusPrefixed, from, t) ==>
      best.Some? && t <= best.value
  {
    if until == 0 then None
    else if IsPhone(valid, groups, plusPrefixed, from, until - 1) then Some(until - 1)
    else Longest(valid, groups, plusPrefixed, from, until - 1)
  }

  /** The runs detected from group `from` on: take the longest number that starts
      here and go on after it, or else move one group along. */
  function Runs(valid: Validity, groups: seq<DigitGroup>, plusPrefixed: bool, from: nat): seq<Run>
    decreases |groups| - from
  {
    if from >= |groups| then []
    else
      var last := Longest(valid, groups, plusPrefixed, from, |groups|);
      if last.None? then Runs(valid, groups, plusPrefixed, from + 1)
      else [Run(from, last.value)] + Runs(valid, groups, plusPrefixed, last.value + 1)
  }

  /** A phone number that no longer one starts with the same group. */
  ghost predicate IsLongest(valid: Validity, groups: seq<DigitGroup>, plusPrefixed: bool, r: Run) {
    && IsPhone(valid, groups, plusPrefixed, r.first, r.last)
    && forall t: nat :: IsPhone(valid, groups, plusPrefixed, r.first, t) ==> t <= r.last
  }

  ghost predicate OrderedRuns(rs: seq<Run>, from: nat, until: nat) {
    && (forall i :: 0 <= i < |rs| ==> from <= rs[i].first <= rs[i].last < until)
    && (forall i, j :: 0 <= i < j < |rs| ==> rs[i].last < rs[j].first)
  }

  lemma LongestIsLongest(valid: Validity, groups: seq<DigitGroup>, plusPrefixed: bool, from: nat)
    requires Longest(valid, groups, plusPrefixed, from, |groups|).Some?
    ensures IsLongest(valid, groups, plusPrefixed,
      Run(from, Longest(valid, groups, plusPrefixed, from, |groups|).value))
  {
  }

  /** Every detected run is a number, none from the same group is longer, and the
      runs are in order and disjoint. */
  lemma {:induction false} RunsAreLongestAndOrdered(valid: Validity, groups: seq<DigitGroup>, plusPrefixed: bool,
          from: nat)
    ensures forall r :: r in Runs(valid, groups, plusPrefixed, from) ==> IsLongest(valid, groups, plusPrefixed, r)
    ensures OrderedRuns(Runs(valid, groups, plusPrefixed, from), from, |groups|)
    decreases |groups| - from
  {
    hide IsPhone, IsLongest, Longest;
    if from < |groups| {
      var last := Longest(valid, groups, plusPrefixed, from, |groups|);
      if last.Some? { LongestIsLongest(valid, groups, plusPrefixed, from); }
      RunsAreLongestAndOrdered(valid, groups, plusPrefixed, if last.None? then from + 1 else last.value + 1);
    }
  }

  /** Nothing is missed: every run of groups that is a number shares a group with a
      detected one. */
  lemma {:induction false} RunsMissNothing(valid: Validity, groups: seq<DigitGroup>, plusPrefixed: bool, from: nat,
          a: nat, b: nat)
    requires from <= a && IsPhone(valid, groups, plusPrefixed, a, b)
    ensures exists r :: r in Runs(valid, groups, plusPrefixed, from) && r.first <= b && a <= r.last
    decreases |groups| - from
  {
    var last := Longest(valid, groups, plusPrefixed, from, |groups|);
    if last.None? {
      RunsMissNothing(valid, groups, plusPrefixed, from + 1, a, b);
    } else if a <= last.value {
      assert Run(from, last.value) in Runs(valid, groups, plusPrefixed, from);
    } else {
      RunsMissNothing(valid, groups, plusPrefixed, last.value + 1, a, b);
    }
  }

  // ------------------------------------------------ back until the original text

  /** One match of the phone pattern, at `index` of the normalised text. */
  datatype PhoneMatch = PhoneMatch(index: nat, plusPrefixed: bool, groups: seq<DigitGroup>)

  /** The groups are non-empty digit runs of `text`, in order, after the plus sign
      if there is one. */
  ghost predicate ValidMatch(m: PhoneMatch, text: Text) {
    && (forall i :: 0 <= i < |m.groups| ==>
          && m.index <= m.groups[i].start < m.groups[i].end <= |text|
          && m.groups[i].digits == text[m.groups[i].start..m.groups[i].end]
          && IsDigit(text[m.groups[i].start]))
    && (forall i, j :: 0 <= i < j < |m.groups| ==> m.groups[i].end <= m.groups[j].start)
    && (m.plusPrefixed ==> m.index < |text| && text[m.index] == PLUS)
  }

  function FirstUnit(m: PhoneMatch, r: Run): nat
    requires r.first < |m.groups|
  {
    if r.first == 0 && m.plusPrefixed then m.index else m.groups[r.first].start
  }

  /** The original range of a run: from its first unit's start to its last's end. */
  function RunRange(ms: seq<MappedUnit>, m: PhoneMatch, r: Run): Range
    requires ValidMatch(m, Codes(ms)) && r.first <= r.last < |m.groups|
  {
    Range(ms[FirstUnit(m, r)].start, ms[m.groups[r.last].end - 1].end)
  }

  /** The original ranges of the runs detected from group `from` on. */
  function RangesFrom(valid: Validity, ms: seq<MappedUnit>, m: PhoneMatch, from: nat): seq<Range>
    requires ValidMatch(m, Codes(ms))
    decreases |m.groups| - from
  {
    if from >= |m.groups| then []
    else
      var last := Longest(valid, m.groups, m.plusPrefixed, from, |m.groups|);
      if last.None? then RangesFrom(valid, ms, m, from + 1)
      else [RunRange(ms, m, Run(from, last.value))] + RangesFrom(valid, ms, m, last.value + 1)
  }

  lemma {:induction false} RangesOfRuns(valid: Validity, ms: seq<MappedUnit>, m: PhoneMatch, from: nat)
    requires ValidMatch(m, Codes(ms))
    ensures var ranges, rs := RangesFrom(valid, ms, m, from), Runs(valid, m.groups, m.plusPrefixed, from);
      |ranges| == |rs| && forall i :: 0 <= i < |rs| ==>
        rs[i].first <= rs[i].last < |m.groups| && ranges[i] == RunRange(ms, m, rs[i])
    decreases |m.groups| - from
  {
    hide IsPhone, ValidMatch, RunRange, Codes;
    if from < |m.groups| {
      var last := Longest(valid, m.groups, m.plusPrefixed, from, |m.groups|);
      RangesOfRuns(valid, ms, m, if last.None? then from + 1 else last.value + 1);
    }
  }

  function PhoneRanges(valid: Validity, ms: seq<MappedUnit>, matches: seq<PhoneMatch>): seq<Range>
    requires forall i :: 0 <= i < |matches| ==> ValidMatch(matches[i], Codes(ms))
  {
    if matches == [] then []
    else PhoneRanges(valid, ms, matches[..|matches| - 1]) + RangesFrom(valid, ms, matches[|matches| - 1], 0)
  }

  method RangeOf(ms: seq<MappedUnit>, m: PhoneMatch, first: nat, last: nat) returns (range: Range)
    requires ValidMatch(m, Codes(ms)) && first <= last < |m.groups|
    ensures range == RunRange(ms, m, Run(first, last))
  {
    var normalizedStart := if first == 0 && m.plusPrefixed then m.index else m.groups[first].start;
    range := Range(ms[normalizedStart].start, ms[m.groups[last].end - 1].end);
  }

  /** The inner loop of detectPhones, over one match. */
  method DetectInMatch(valid: Validity, ms: seq<MappedUnit>, m: PhoneMatch) returns (ranges: seq<Range>)
    requires ValidMatch(m, Codes(ms))
    ensures ranges == RangesFrom(valid, ms, m, 0)
  {
    hide IsPhone, ValidMatch, RunRange, Codes, Longest;
    ranges := [];
    var from := 0;
    while from < |m.groups|
      invariant from <= |m.groups|
      invariant ranges + RangesFrom(valid, ms, m, from) == RangesFrom(valid, ms, m, 0)
    {
      var last := LongestPhoneFrom(valid, m.groups, from, m.plusPrefixed);
      SameLongest(valid, m.groups, m.plusPrefixed, from, last);
      if last.None? {
        from := from + 1;
      } else {
        var range := RangeOf(ms, m, from, last.value);
        ranges := ranges + [range];
        from := last.value + 1;
      }
    }
  }

  lemma SameLongest(valid: Validity, groups: seq<DigitGroup>, plusPrefixed: bool, from: nat, best: Option<nat>)
    requires best.Some? ==> IsPhone(valid, groups, plusPrefixed, from, best.value)
    requires forall t: nat :: IsPhone(valid, groups, plusPrefixed, from, t) ==> best.Some? && t <= best.value
    ensures Longest(valid, groups, plusPrefixed, from, |groups|) == best
    ensures best.Some? ==> from <= best.value < |groups|
  {
  }

  method DetectPhones(valid: Validity, ms: seq<MappedUnit>, matches: seq<PhoneMatch>) returns (ranges: seq<Range>)
    requires forall i :: 0 <= i < |matches| ==> ValidMatch(matches[i], Codes(ms))
    ensures ranges == PhoneRanges(valid, ms, matches)
  {
    hide RangesFrom, ValidMatch;
    ranges := [];
    for i := 0 to |matches|
      invariant ranges == PhoneRanges(valid, ms, matches[..i])
    {
      var found := DetectInMatch(valid, ms, matches[i]);
      assert matches[..i + 1][..i] == matches[..i];
      ranges := ranges + found;
    }
    assert matches[..|matches|] == matches;
  }

  ghost predicate Nonempty(ranges: seq<Range>, n: nat) {
    forall r :: r in ranges ==> r.start < r.end <= n
  }

  lemma RunRangeIsSound(ms: seq<MappedUnit>, n: nat, m: PhoneMatch, r: Run)
    requires Sound(ms, 0, n) && ValidMatch(m, Codes(ms)) && r.first <= r.last < |m.groups|
    ensures RunRange(ms, m, r).start < RunRange(ms, m, r).end <= n
    ensures forall k :: FirstUnit(m, r) <= k < m.groups[r.last].end ==>
      RunRange(ms, m, r).start <= ms[k].start && ms[k].end <= RunRange(ms, m, r).end
  {
    var a, b := FirstUnit(m, r), m.groups[r.last].end;
    assert Codes(ms)[a] == ms[a].code;
    StretchIsMapped(ms, n, a, b);
  }

  /** Every phone range read through a sound offset map is a non-empty range of the
      original text. */
  lemma {:induction false} PhoneRangesAreSound(valid: Validity, ms: seq<MappedUnit>, n: nat, matches: seq<PhoneMatch>)
    requires Sound(ms, 0, n) && forall i :: 0 <= i < |matches| ==> ValidMatch(matches[i], Codes(ms))
    ensures Nonempty(PhoneRanges(valid, ms, matches), n)
    decreases |matches|
  {
    hide Sound, ValidMatch;
    if matches != [] {
      var m := matches[|matches| - 1];
      var found := RangesFrom(valid, ms, m, 0);
      PhoneRangesAreSound(valid, ms, n, matches[..|matches| - 1]);
      RangesOfRuns(valid, ms, m, 0);
      forall r | r in found ensures r.start < r.end <= n {
        var i :| 0 <= i < |found| && r == found[i];
        RunRangeIsSound(ms, n, m, Runs(valid, m.groups, m.plusPrefixed, 0)[i]);
      }
    }
  }
}

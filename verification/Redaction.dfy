/** Priority filter, interval merge and splice of contact-detection.ts. The matches
    of the regular expressions are inputs: any lists of non-empty ranges. */
module Redaction {
  import opened Options
  import opened NumberWords
  import opened Normalize
  import opened PhoneRuns
  import Sorting

  datatype Kind = PHONE | EMAIL | URL | HANDLE | OFF_PLATFORM

  /** `range` is what to mask; None for a mention that is recorded, not masked. */
  datatype Detection = Detection(kind: Kind, range: Option<Range>)

  const PLACEHOLDER: Text := [0x5b, 0x2022, 0x2022, 0x2022, 0x5d]

  predicate Meet(a: Range, b: Range) {
    a.start < b.end && b.start < a.end
  }

  predicate Overlaps(d: Detection, taken: seq<Detection>) {
    d.range.Some? && exists i :: 0 <= i < |taken| && taken[i].range.Some? && Meet(d.range.value, taken[i].range.value)
  }

  // ------------------------------------------------------- the priority filter

  /** What the filter keeps of `ds` when `taken` already holds. */
  function Keep(ds: seq<Detection>, taken: seq<Detection>): seq<Detection> {
    if ds == [] then []
    else
      var kept, last := Keep(ds[..|ds| - 1], taken), ds[|ds| - 1];
      if Overlaps(last, taken + kept) then kept else kept + [last]
  }

  method WithoutOverlaps(ds: seq<Detection>, taken: seq<Detection>) returns (kept: seq<Detection>)
    ensures kept == Keep(ds, taken)
  {
    hide Overlaps;
    kept := [];
    for i := 0 to |ds|
      invariant kept == Keep(ds[..i], taken)
    {
      assert ds[..i + 1][..i] == ds[..i];
      if !Overlaps(ds[i], taken + kept) { kept := kept + [ds[i]]; }
    }
    assert ds[..|ds|] == ds;
  }

  /** detectContacts: each kind filtered against the kinds before it. */
  method DetectContacts(emails: seq<Detection>, urls: seq<Detection>, handles: seq<Detection>, phones: seq<Detection>,
                        mentions: seq<Detection>) returns (detections: seq<Detection>)
    ensures detections == Keep(emails + urls + handles + phones, []) + mentions
  {
    hide Keep;
    var keptEmails := WithoutOverlaps(emails, []);
    var keptUrls := WithoutOverlaps(urls, keptEmails);
    var keptHandles := WithoutOverlaps(handles, keptEmails + keptUrls);
    var keptPhones := WithoutOverlaps(phones, keptEmails + keptUrls + keptHandles);
    KeepInLayers(emails, urls, []);
    KeepInLayers(emails + urls, handles, []);
    KeepInLayers(emails + urls + handles, phones, []);
    assert [] + keptEmails == keptEmails;
    assert [] + (keptEmails + keptUrls) == keptEmails + keptUrls;
    assert [] + (keptEmails + keptUrls + keptHandles) == keptEmails + keptUrls + keptHandles;
    detections := keptEmails + keptUrls + keptHandles + keptPhones + mentions;
  }

  /** Filtering layer by layer is one pass over the layers in order of priority. */
  lemma {:induction false} KeepInLayers(high: seq<Detection>, low: seq<Detection>, taken: seq<Detection>)
    ensures Keep(high + low, taken) == Keep(high, taken) + Keep(low, taken + Keep(high, taken))
    decreases |low|
  {
    hide Overlaps;
    if low == [] {
      assert high + low == high;
    } else {
      var front, last := low[..|low| - 1], low[|low| - 1];
      assert (high + low)[..|high + low| - 1] == high + front;
      KeepInLayers(high, front, taken);
      var keptHigh, keptLow := Keep(high, taken), Keep(front, taken + Keep(high, taken));
      assert taken + keptHigh + keptLow == taken + (keptHigh + keptLow);
    }
  }

  ghost predicate Disjoint(ds: seq<Detection>) {
    forall i, j :: 0 <= i < j < |ds| && ds[i].range.Some? && ds[j].range.Some? ==>
      !Meet(ds[i].range.value, ds[j].range.value)
  }

  lemma MeetIsSymmetric(a: Range, b: Range)
    ensures Meet(a, b) == Meet(b, a)
  {
  }

  /** What is kept never overlaps. */
  lemma {:induction false} KeptAreDisjoint(ds: seq<Detection>)
    ensures Disjoint(Keep(ds, []))
  {
    if ds == [] {
    } else {
      hide Meet;
      var kept, last := Keep(ds[..|ds| - 1], []), ds[|ds| - 1];
      KeptAreDisjoint(ds[..|ds| - 1]);
      assert [] + kept == kept;
      if !Overlaps(last, kept) {
        forall i | 0 <= i < |kept| && kept[i].range.Some? && last.range.Some?
          ensures !Meet(kept[i].range.value, last.range.value)
        {
          MeetIsSymmetric(kept[i].range.value, last.range.value);
        }
      }
    }
  }

  ghost predicate Among(xs: seq<Detection>, ys: seq<Detection>) {
    forall x :: x in xs ==> x in ys
  }

  /** Nothing is dropped without cause: the detection at position `i` is kept, or it
      overlaps one that was kept from a position before it, of a priority at least as
      high. */
  lemma {:induction false} DroppedForAHigherOne(ds: seq<Detection>, i: nat)
    requires i < |ds|
    ensures ds[i] in Keep(ds, []) || Overlaps(ds[i], Keep(ds[..i], []))
    ensures Among(Keep(ds, []), ds) && Among(Keep(ds[..i], []), ds[..i]) && Keep(ds[..i], []) <= Keep(ds, [])
  {
    hide Overlaps;
    KeptAreCandidates(ds);
    KeptAreCandidates(ds[..i]);
    var kept := Keep(ds[..i], []);
    assert ds[..i + 1][..i] == ds[..i] && [] + kept == kept;
    KeepGrows(ds, i + 1);
    KeepGrows(ds, i);
    if !Overlaps(ds[i], kept) {
      assert Keep(ds[..i + 1], []) == kept + [ds[i]];
      assert ds[i] == Keep(ds[..i + 1], [])[|kept|] == Keep(ds, [])[|kept|];
    }
  }

  lemma {:induction false} KeptAreCandidates(ds: seq<Detection>)
    ensures Among(Keep(ds, []), ds)
  {
    hide Overlaps;
    if ds != [] { KeptAreCandidates(ds[..|ds| - 1]); }
  }

  lemma {:induction false} KeepGrows(ds: seq<Detection>, i: nat)
    requires i <= |ds|
    ensures Keep(ds[..i], []) <= Keep(ds, [])
  {
    hide Overlaps;
    if i == |ds| {
      assert ds[..i] == ds;
    } else {
      KeepGrows(ds[..|ds| - 1], i);
      assert ds[..|ds| - 1][..i] == ds[..i];
    }
  }

  // ------------------------------------------------------------------- merging

  predicate StartsBefore(a: Range, b: Range) {
    a.start <= b.start
  }

  ghost predicate InText(rs: seq<Range>, n: nat) {
    forall r :: r in rs ==> r.start < r.end <= n
  }

  /** Sorted, with at least one unmasked position between neighbours. */
  ghost predicate Gapped(rs: seq<Range>) {
    forall i, j :: 0 <= i < j < |rs| ==> rs[i].end < rs[j].start
  }

  ghost predicate Covers(rs: seq<Range>, p: nat) {
    exists r :: r in rs && r.start <= p < r.end
  }

  function Max(a: nat, b: nat): nat {
    if a < b then b else a
  }

  /** A range that overlaps or touches the last merged one extends it. */
  function MergeInto(acc: seq<Range>, range: Range): seq<Range> {
    if acc != [] && range.start <= acc[|acc| - 1].end
    then acc[..|acc| - 1] + [Range(acc[|acc| - 1].start, Max(acc[|acc| - 1].end, range.end))]
    else acc + [range]
  }

  /** The reduction over ranges sorted by start. */
  function Merge(rs: seq<Range>): seq<Range> {
    if rs == [] then [] else MergeInto(Merge(rs[..|rs| - 1]), rs[|rs| - 1])
  }

  predicate LastStartsBy(acc: seq<Range>, start: nat) {
    acc == [] || acc[|acc| - 1].start <= start
  }

  lemma MergeIntoIsGapped(acc: seq<Range>, range: Range, n: nat)
    requires Gapped(acc) && InText(acc, n) && range.start < range.end <= n && LastStartsBy(acc, range.start)
    ensures Gapped(MergeInto(acc, range)) && InText(MergeInto(acc, range), n)
    ensures MergeInto(acc, range) != [] && LastStartsBy(MergeInto(acc, range), range.start)
  {
    if acc != [] {
      var previous := acc[|acc| - 1];
      assert previous in acc;
      assert forall r :: r in acc[..|acc| - 1] ==> r in acc;
    }
  }

  lemma MergeIntoCovers(acc: seq<Range>, range: Range, p: nat)
    requires LastStartsBy(acc, range.start)
    ensures Covers(MergeInto(acc, range), p) <==> Covers(acc, p) || range.start <= p < range.end
  {
    hide Covers;
    CoversSnoc(acc, range, p);
    if acc != [] {
      var previous := acc[|acc| - 1];
      assert acc == acc[..|acc| - 1] + [previous];
      CoversSnoc(acc[..|acc| - 1], previous, p);
      CoversSnoc(acc[..|acc| - 1], Range(previous.start, Max(previous.end, range.end)), p);
    }
  }

  lemma SortedFront(rs: seq<Range>, n: nat)
    requires Sorting.Sorted(StartsBefore, rs) && InText(rs, n) && rs != []
    ensures var front, range := rs[..|rs| - 1], rs[|rs| - 1];
      && Sorting.Sorted(StartsBefore, front) && InText(front, n)
      && range.start < range.end <= n && (front != [] ==> front[|front| - 1].start <= range.start)
      && rs == front + [range]
  {
    assert rs[|rs| - 1] in rs;
    if |rs| > 1 { assert StartsBefore(rs[|rs| - 2], rs[|rs| - 1]); }
  }

  lemma {:induction false} MergedAreGapped(rs: seq<Range>, n: nat)
    requires Sorting.Sorted(StartsBefore, rs) && InText(rs, n)
    ensures Gapped(Merge(rs)) && InText(Merge(rs), n)
    ensures if rs == [] then Merge(rs) == [] else LastStartsBy(Merge(rs), rs[|rs| - 1].start)
  {
    if rs == [] {
    } else {
      hide MergeInto, Gapped, InText;
      SortedFront(rs, n);
      MergedAreGapped(rs[..|rs| - 1], n);
      MergeIntoIsGapped(Merge(rs[..|rs| - 1]), rs[|rs| - 1], n);
    }
  }

  /** Merging covers the same positions, no more and no less. */
  lemma {:induction false} MergeCovers(rs: seq<Range>, n: nat, p: nat)
    requires Sorting.Sorted(StartsBefore, rs) && InText(rs, n)
    ensures Covers(Merge(rs), p) <==> Covers(rs, p)
  {
    hide MergeInto, Gapped, InText, Covers;
    if rs != [] {
      var front, range := rs[..|rs| - 1], rs[|rs| - 1];
      SortedFront(rs, n);
      MergeCovers(front, n, p);
      MergedAreGapped(front, n);
      MergeIntoCovers(Merge(front), range, p);
      CoversSnoc(front, range, p);
    }
  }

  lemma CoversSnoc(rs: seq<Range>, r: Range, p: nat)
    ensures Covers(rs + [r], p) <==> Covers(rs, p) || r.start <= p < r.end
  {
    if r.start <= p < r.end { assert (rs + [r])[|rs|] == r; }
    if Covers(rs, p) {
      var q :| q in rs && q.start <= p < q.end;
      assert q in rs + [r];
    }
  }

  // ------------------------------------------------------------------ splicing

  /** Ranges the splice may work on: after `from`, inside the text, apart. */
  ghost predicate Fits(rs: seq<Range>, from: nat, n: nat) {
    from <= n && Gapped(rs) && InText(rs, n) && forall i :: 0 <= i < |rs| ==> from <= rs[i].start
  }

  lemma FitsTail(rs: seq<Range>, from: nat, n: nat)
    requires Fits(rs, from, n) && rs != []
    ensures from <= rs[0].start < rs[0].end <= n && Fits(rs[1..], rs[0].end, n)
  {
    assert rs[0] in rs;
    assert forall r :: r in rs[1..] ==> r in rs;
  }

  /** The text from `from` on, with each range replaced by one placeholder. */
  ghost function Masked(text: Text, rs: seq<Range>, from: nat): Text
    requires Fits(rs, from, |text|)
  {
    if rs == [] then text[from..]
    else
      FitsTail(rs, from, |text|);
      text[from..rs[0].start] + PLACEHOLDER + Masked(text, rs[1..], rs[0].end)
  }

  lemma MaskedPrefix(text: Text, rs: seq<Range>, from: nat)
    requires Fits(rs, from, |text|)
    ensures Fits(rs, 0, |text|) && |Masked(text, rs, 0)| >= from
    ensures Masked(text, rs, 0)[..from] == text[..from]
    ensures Masked(text, rs, 0)[from..] == Masked(text, rs, from)
  {
    hide Fits;
    FitsEarlier(rs, from, |text|);
    if rs == [] {
      SplitPrefix(text, from, |text|, []);
    } else {
      FitsTail(rs, from, |text|);
      FitsTail(rs, 0, |text|);
      SplitPrefix(text, from, rs[0].start, PLACEHOLDER + Masked(text, rs[1..], rs[0].end));
      MaskedHead(text, rs, 0);
      MaskedHead(text, rs, from);
    }
  }

  lemma MaskedHead(text: Text, rs: seq<Range>, from: nat)
    requires Fits(rs, from, |text|) && rs != []
    ensures from <= rs[0].start < rs[0].end <= |text| && Fits(rs[1..], rs[0].end, |text|)
    ensures Masked(text, rs, from) == text[from..rs[0].start] + (PLACEHOLDER + Masked(text, rs[1..], rs[0].end))
  {
    FitsTail(rs, from, |text|);
  }

  lemma FitsEarlier(rs: seq<Range>, from: nat, n: nat)
    requires Fits(rs, from, n)
    ensures Fits(rs, 0, n) && from <= n
  {}

  lemma SplitPrefix(text: Text, from: nat, until: nat, rest: Text)
    requires from <= until <= |text|
    ensures (text[0..until] + rest)[..from] == text[..from]
    ensures (text[0..until] + rest)[from..] == text[from..until] + rest
  {}

  lemma FitsFrom(rs: seq<Range>, n: nat, i: nat)
    requires Fits(rs, 0, n) && i < |rs|
    ensures rs[i].start < rs[i].end <= n
    ensures Fits(rs[i..], rs[i].start, n) && Fits(rs[i + 1..], rs[i].end, n)
    ensures rs[i..][0] == rs[i] && rs[i..][1..] == rs[i + 1..]
  {
    assert rs[i] in rs;
    assert forall r :: r in rs[i..] ==> r in rs;
    assert forall r :: r in rs[i + 1..] ==> r in rs;
  }

  /** The splice: from the last range to the first, so that earlier offsets stay
      good. */
  method Splice(text: Text, merged: seq<Range>) returns (masked: Text)
    requires Fits(merged, 0, |text|)
    ensures masked == Masked(text, merged, 0)
  {
    hide Fits;
    masked := text;
    var i := |merged|;
    assert merged[i..] == [] && Fits([], 0, |text|) by { NothingFits(|text|); }
    while i > 0
      invariant i <= |merged| && Fits(merged[i..], 0, |text|)
      invariant masked == Masked(text, merged[i..], 0)
    {
      i := i - 1;
      var range := merged[i];
      FitsFrom(merged, |text|, i);
      MaskedPrefix(text, merged[i + 1..], range.end);
      MaskedPrefix(text, merged[i..], range.start);
      masked := masked[..range.start] + PLACEHOLDER + masked[range.end..];
      assert text[..range.end][..range.start] == text[..range.start];
    }
    assert merged[0..] == merged;
  }

  lemma NothingFits(n: nat)
    ensures Fits([], 0, n)
  {
  }

  /** The slices the splice took out. */
  ghost function Removed(text: Text, rs: seq<Range>): seq<Text>
    requires InText(rs, |text|)
  {
    seq(|rs|, i requires 0 <= i < |rs| => assert rs[i] in rs; text[rs[i].start..rs[i].end])
  }

  /** Puts removed slices back where their placeholders stand. */
  ghost function Restored(masked: Text, removed: seq<Text>, rs: seq<Range>, from: nat): Option<Text>
    decreases |rs|
  {
    if rs == [] || removed == [] then Some(masked)
    else if from > rs[0].start || rs[0].start - from + |PLACEHOLDER| > |masked| then None
    else
      var gap := rs[0].start - from;
      var rest := Restored(masked[gap + |PLACEHOLDER|..], removed[1..], rs[1..], rs[0].end);
      if rest.None? then None else Some(masked[..gap] + removed[0] + rest.value)
  }

  /** Masking loses nothing but the slices themselves: the output and the slices
      give the original back. */
  lemma {:induction false} MaskingIsReversible(text: Text, rs: seq<Range>, from: nat)
    requires Fits(rs, from, |text|)
    ensures Restored(Masked(text, rs, from), Removed(text, rs), rs, from) == Some(text[from..])
    decreases |rs|
  {
    if rs == [] {
    } else {
      FitsTail(rs, from, |text|);
      MaskingIsReversible(text, rs[1..], rs[0].end);
      var gap := rs[0].start - from;
      var masked := Masked(text, rs, from);
      assert masked[gap + |PLACEHOLDER|..] == Masked(text, rs[1..], rs[0].end);
      assert masked[..gap] == text[from..rs[0].start];
      assert Removed(text, rs)[1..] == Removed(text, rs[1..]);
      assert text[from..] == text[from..rs[0].start] + text[rs[0].start..rs[0].end] + text[rs[0].end..];
    }
  }

  // ----------------------------------------------------------- redactContacts

  function RangesOf(ds: seq<Detection>): seq<Range> {
    if ds == [] then []
    else RangesOf(ds[..|ds| - 1]) + (if ds[|ds| - 1].range.Some? then [ds[|ds| - 1].range.value] else [])
  }

  lemma {:induction false} RangesOfDetections(ds: seq<Detection>)
    ensures forall r :: r in RangesOf(ds) <==> exists d :: d in ds && d.range == Some(r)
  {
    if ds == [] {
    } else {
      var front, last := ds[..|ds| - 1], ds[|ds| - 1];
      RangesOfDetections(front);
      assert forall d :: d in ds <==> d in front || d == last;
    }
  }

  ghost predicate DetectionsFit(ds: seq<Detection>, n: nat) {
    forall d :: d in ds && d.range.Some? ==> d.range.value.start < d.range.value.end <= n
  }

  function MergedRanges(ds: seq<Detection>): seq<Range> {
    Merge(Sorting.Sort(StartsBefore, RangesOf(ds)))
  }

  ghost predicate Hides(ds: seq<Detection>, p: nat) {
    exists d :: d in ds && d.range.Some? && d.range.value.start <= p < d.range.value.end
  }

  lemma RangesCover(ds: seq<Detection>, ranges: seq<Range>, p: nat)
    requires forall r :: r in ranges <==> exists d :: d in ds && d.range == Some(r)
    ensures Covers(ranges, p) <==> Hides(ds, p)
  {
    if Covers(ranges, p) {
      var r :| r in ranges && r.start <= p < r.end;
      var d :| d in ds && d.range == Some(r);
    }
    if Hides(ds, p) {
      var d :| d in ds && d.range.Some? && d.range.value.start <= p < d.range.value.end;
      assert d.range.value in ranges;
    }
  }

  /** What the merge hands to the splice: ranges it can work on, which cover exactly
      the positions of the detections. */
  lemma MergedRangesFit(ds: seq<Detection>, n: nat)
    requires DetectionsFit(ds, n)
    ensures Fits(MergedRanges(ds), 0, n)
    ensures forall p: nat :: Covers(MergedRanges(ds), p) <==> Hides(ds, p)
  {
    hide Covers, Hides;
    var ranges := RangesOf(ds);
    var sorted := Sorting.Sort(StartsBefore, ranges);
    RangesOfDetections(ds);
    Sorting.SortIsSorted(StartsBefore, ranges);
    Sorting.SortKeeps(StartsBefore, ranges);
    Sorting.SameElements(sorted, ranges);
    MergedAreGapped(sorted, n);
    forall p: nat ensures Covers(MergedRanges(ds), p) <==> Hides(ds, p) {
      MergeCovers(sorted, n, p);
      RangesCover(ds, sorted, p);
    }
  }

  /** The masked text: one placeholder per merged range, the original elsewhere. */
  ghost function Redacted(text: Text, ds: seq<Detection>): Text
    requires DetectionsFit(ds, |text|)
  {
    MergedRangesFit(ds, |text|);
    Masked(text, MergedRanges(ds), 0)
  }

  function Kinds(ds: seq<Detection>): seq<Kind> {
    seq(|ds|, i requires 0 <= i < |ds| => ds[i].kind)
  }

  method RedactContacts(text: Text, detections: seq<Detection>) returns (masked: Text, kinds: seq<Kind>)
    requires DetectionsFit(detections, |text|)
    ensures masked == Redacted(text, detections) && kinds == Kinds(detections)
  {
    MergedRangesFit(detections, |text|);
    masked := Splice(text, MergedRanges(detections));
    kinds := Kinds(detections);
  }

  // ------------------------------------------------------- the whole pipeline

  function PhoneDetections(ranges: seq<Range>): seq<Detection> {
    seq(|ranges|, i requires 0 <= i < |ranges| => Detection(PHONE, Some(ranges[i])))
  }

  /** The detections of a text, given what the patterns matched on it. */
  ghost function DetectionsOf(valid: Validity, ms: seq<MappedUnit>, matches: seq<PhoneMatch>, addresses: seq<Detection>,
                              mentions: seq<Detection>): seq<Detection>
    requires forall i :: 0 <= i < |matches| ==> ValidMatch(matches[i], Codes(ms))
  {
    Keep(addresses + PhoneDetections(PhoneRanges(valid, ms, matches)), []) + mentions
  }

  /** Whatever the patterns matched, the detections fit the text, so masking is
      well defined: spelled numbers and look-alikes are masked where they stand in
      the original. */
  lemma PipelineFits(valid: Validity, ms: seq<MappedUnit>, n: nat, matches: seq<PhoneMatch>, addresses: seq<Detection>,
                     mentions: seq<Detection>)
    requires Sound(ms, 0, n) && forall i :: 0 <= i < |matches| ==> ValidMatch(matches[i], Codes(ms))
    requires DetectionsFit(addresses, n) && forall d :: d in mentions ==> d.range.None?
    ensures DetectionsFit(DetectionsOf(valid, ms, matches, addresses, mentions), n)
  {
    hide Sound, ValidMatch, Keep;
    var ranges := PhoneRanges(valid, ms, matches);
    var all := addresses + PhoneDetections(ranges);
    PhoneRangesAreSound(valid, ms, n, matches);
    assert forall d :: d in PhoneDetections(ranges) ==> d.range.Some? && d.range.value in ranges;
    KeptAreCandidates(all);
  }

  // ------------------------------------------------- no number survives whole

  ghost predicate MaskedSomewhere(range: Range, merged: seq<Range>) {
    exists p: nat :: range.start <= p < range.end && Covers(merged, p)
  }

  lemma {:induction false} RunIsDetected(valid: Validity, ms: seq<MappedUnit>, matches: seq<PhoneMatch>, i: nat, r: Run)
    requires (forall j :: 0 <= j < |matches| ==> ValidMatch(matches[j], Codes(ms))) && i < |matches|
    requires r in Runs(valid, matches[i].groups, matches[i].plusPrefixed, 0)
    ensures r.first <= r.last < |matches[i].groups|
    ensures RunRange(ms, matches[i], r) in PhoneRanges(valid, ms, matches)
    decreases |matches|
  {
    hide ValidMatch, Runs, RangesFrom, RunRange, Codes;
    var front := matches[..|matches| - 1];
    if i < |front| {
      RunIsDetected(valid, ms, front, i, r);
    } else {
      RangesOfRuns(valid, ms, matches[i], 0);
      var k :| 0 <= k < |Runs(valid, matches[i].groups, matches[i].plusPrefixed, 0)|
        && Runs(valid, matches[i].groups, matches[i].plusPrefixed, 0)[k] == r;
      assert RangesFrom(valid, ms, matches[i], 0)[k] == RunRange(ms, matches[i], r);
    }
  }

  /** Every candidate meets something kept: itself, or what it was dropped for. */
  lemma CandidateMeetsKept(ds: seq<Detection>, d: Detection) returns (kept: Detection)
    requires d in ds && d.range.Some? && d.range.value.start < d.range.value.end
    ensures kept in Keep(ds, []) && kept.range.Some? && Meet(d.range.value, kept.range.value)
    ensures d in Keep(ds, []) ==> kept == d
  {
    hide Keep;
    var i :| 0 <= i < |ds| && ds[i] == d;
    DroppedForAHigherOne(ds, i);
    if d in Keep(ds, []) {
      kept := d;
    } else {
      var before := Keep(ds[..i], []);
      var j :| 0 <= j < |before| && before[j].range.Some? && Meet(d.range.value, before[j].range.value);
      kept := before[j];
      assert kept == Keep(ds, [])[j];
    }
  }

  lemma MeetingIsMasked(ds: seq<Detection>, n: nat, kept: Detection, range: Range)
    requires DetectionsFit(ds, n) && kept in ds && kept.range.Some? && Meet(range, kept.range.value)
    requires range.start < range.end
    ensures MaskedSomewhere(range, MergedRanges(ds))
  {
    hide Covers;
    MergedRangesFit(ds, n);
    var p := Max(range.start, kept.range.value.start);
    assert Hides(ds, p);
  }

  /** The promise of the masking, end to end: whatever the patterns matched, every detected
      number loses some of its original text, all of it unless an address it overlaps was
      masked instead. */
  lemma DetectedNumberIsHit(valid: Validity, ms: seq<MappedUnit>, n: nat, matches: seq<PhoneMatch>,
        addresses: seq<Detection>, mentions: seq<Detection>, i: nat, r: Run)
    requires Sound(ms, 0, n) && forall j :: 0 <= j < |matches| ==> ValidMatch(matches[j], Codes(ms))
    requires DetectionsFit(addresses, n) && forall d :: d in mentions ==> d.range.None?
    requires i < |matches| && r in Runs(valid, matches[i].groups, matches[i].plusPrefixed, 0)
    ensures r.first <= r.last < |matches[i].groups|
    ensures var range := RunRange(ms, matches[i], r);
      var ds := DetectionsOf(valid, ms, matches, addresses, mentions);
      && MaskedSomewhere(range, MergedRanges(ds))
      && (Detection(PHONE, Some(range)) in ds ==> forall p: nat :: range.start <= p < range.end ==>
        Covers(MergedRanges(ds), p))
  {
    hide Sound, ValidMatch, Keep, Runs, RunRange, PhoneRanges, MergedRanges, Covers, MaskedSomewhere, Codes;
    RunIsDetected(valid, ms, matches, i, r);
    RunRangeIsSound(ms, n, matches[i], r);
    PipelineFits(valid, ms, n, matches, addresses, mentions);
    var range, ranges := RunRange(ms, matches[i], r), PhoneRanges(valid, ms, matches);
    var all, d := addresses + PhoneDetections(ranges), Detection(PHONE, Some(range));
    var k :| 0 <= k < |ranges| && ranges[k] == range;
    assert PhoneDetections(ranges)[k] == d;
    var kept := CandidateMeetsKept(all, d);
    var ds := DetectionsOf(valid, ms, matches, addresses, mentions);
    MeetingIsMasked(ds, n, kept, range);
    if d in ds {
      MergedRangesFit(ds, n);
      forall p: nat | range.start <= p < range.end ensures Covers(MergedRanges(ds), p) { assert Hides(ds, p); }
    }
  }

  /** And so for any valid number among the matched digits: it shares a group with a detected
      one, and if that one was kept, the group they share is masked whole. */
  lemma EveryNumberIsReached(valid: Validity, ms: seq<MappedUnit>, n: nat, matches: seq<PhoneMatch>,
        addresses: seq<Detection>, mentions: seq<Detection>, i: nat, a: nat, b: nat)
    returns (r: Run, g: nat)
    requires Sound(ms, 0, n) && forall j :: 0 <= j < |matches| ==> ValidMatch(matches[j], Codes(ms))
    requires DetectionsFit(addresses, n) && forall d :: d in mentions ==> d.range.None?
    requires i < |matches| && IsPhone(valid, matches[i].groups, matches[i].plusPrefixed, a, b)
    ensures r in Runs(valid, matches[i].groups, matches[i].plusPrefixed, 0) && r.first <= r.last < |matches[i].groups|
    ensures a <= g <= b && r.first <= g <= r.last
    ensures var ds, group := DetectionsOf(valid, ms, matches, addresses, mentions), matches[i].groups[g];
      && MaskedSomewhere(RunRange(ms, matches[i], r), MergedRanges(ds))
      && (Detection(PHONE, Some(RunRange(ms, matches[i], r))) in ds ==>
          forall k, p: nat :: group.start <= k < group.end && ms[k].start <= p < ms[k].end ==>
            Covers(MergedRanges(ds), p))
  {
    var m := matches[i];
    RunsMissNothing(valid, m.groups, m.plusPrefixed, 0, a, b);
    hide Sound, Keep, Runs, MergedRanges, Covers, MaskedSomewhere, IsPhone, DetectionsOf, DetectionsFit;
    r :| r in Runs(valid, m.groups, m.plusPrefixed, 0) && r.first <= b && a <= r.last;
    g := if a <= r.first then r.first else a;
    DetectedNumberIsHit(valid, ms, n, matches, addresses, mentions, i, r);
    RunRangeIsSound(ms, n, m, r);
    GroupInRun(m, Codes(ms), r, g);
  }

  lemma GroupInRun(m: PhoneMatch, text: Text, r: Run, g: nat)
    requires ValidMatch(m, text) && r.first <= g <= r.last < |m.groups|
    ensures FirstUnit(m, r) <= m.groups[g].start && m.groups[g].end <= m.groups[r.last].end
  {}

  /** A number dictated in words is masked where its words stand: when its written digits are
      a detected run, the words lose some of their text, and all of it when the run is kept. */
  lemma DictatedNumberIsHit(valid: Validity, lex: Lexicon, tokens: seq<Token>, n: nat, target: nat, vs: seq<Dictable>,
        matches: seq<PhoneMatch>, addresses: seq<Detection>, mentions: seq<Detection>, i: nat, r: Run, k: nat)
    requires Tokenised(tokens, n) && ValidLexicon(lex) && target < |tokens| && RunAt(lex, tokens, target) != []
    requires RunWords(tokens, RunAt(lex, tokens, target)) == SpellAll(vs) && NoFusion(vs)
    requires var ms := Expand(lex, tokens, 0);
      && k + |Written(vs)| <= |ms| && ms[k..k + |Written(vs)|] == UnitsAt(lex, tokens, target)
      && forall j :: 0 <= j < |matches| ==> ValidMatch(matches[j], Codes(ms))
    requires DetectionsFit(addresses, n) && forall d :: d in mentions ==> d.range.None?
    requires i < |matches| && r in Runs(valid, matches[i].groups, matches[i].plusPrefixed, 0)
    requires r.first <= r.last < |matches[i].groups|
    requires FirstUnit(matches[i], r) == k && matches[i].groups[r.last].end == k + |Written(vs)|
    ensures var run, ms := RunAt(lex, tokens, target), Expand(lex, tokens, 0);
      var words := Range(tokens[run[0]].start, tokens[run[|run| - 1]].end);
      var ds := DetectionsOf(valid, ms, matches, addresses, mentions);
      && RunRange(ms, matches[i], r) == words
      && MaskedSomewhere(words, MergedRanges(ds))
      && (Detection(PHONE, Some(words)) in ds ==> forall p: nat :: words.start <= p < words.end ==>
        Covers(MergedRanges(ds), p))
  {
    hide Sound, Tokenised, Runs, MergedRanges, MaskedSomewhere, Covers, DetectionsOf, RunAt, UnitsAt, Expand, Written,
      SpellAll, ValidLexicon, ValidMatch, NoFusion, RunWords, DetectionsFit;
    var ms, units := Expand(lex, tokens, 0), UnitsAt(lex, tokens, target);
    ExpandStartsSound(lex, tokens, n);
    DictatedUnits(lex, tokens, target, vs);
    assert |units| == |Codes(units)|;
    assert ms[k] == units[0] && ms[k + |units| - 1] == units[|units| - 1];
    DetectedNumberIsHit(valid, ms, n, matches, addresses, mentions, i, r);
  }

  lemma ExpandStartsSound(lex: Lexicon, tokens: seq<Token>, n: nat)
    requires Tokenised(tokens, n)
    ensures Sound(Expand(lex, tokens, 0), 0, n)
  {
    ExpandIsSound(lex, tokens, n, 0);
  }

  // --------------------------------------------------- exactly when a number is hit

  /** The guard of the filter at position `k`. */
  predicate PassesAt(ds: seq<Detection>, taken: seq<Detection>, k: int) {
    0 <= k < |ds| && !Overlaps(ds[k], taken + Keep(ds[..k], taken))
  }

  lemma PassesInFront(ds: seq<Detection>, taken: seq<Detection>, k: int)
    requires 0 <= k < |ds| - 1
    ensures PassesAt(ds[..|ds| - 1], taken, k) <==> PassesAt(ds, taken, k)
  {
    assert ds[..|ds| - 1][..k] == ds[..k];
  }

  lemma KeepLast(ds: seq<Detection>, taken: seq<Detection>, d: Detection)
    requires ds != []
    ensures d in Keep(ds, taken) <==>
      d in Keep(ds[..|ds| - 1], taken) || (PassesAt(ds, taken, |ds| - 1) && d == ds[|ds| - 1])
  {
    hide Overlaps;
  }

  /** What the filter keeps is what passed its guard when its turn came. */
  lemma {:induction false} KeptPassedTheGuard(ds: seq<Detection>, taken: seq<Detection>, d: Detection)
    ensures d in Keep(ds, taken) <==> exists k :: PassesAt(ds, taken, k) && ds[k] == d
  {
    hide Overlaps;
    if ds != [] {
      var front := ds[..|ds| - 1];
      KeptPassedTheGuard(front, taken, d);
      KeepLast(ds, taken, d);
      hide Keep;
      if k :| PassesAt(front, taken, k) && front[k] == d {
        PassesInFront(ds, taken, k);
        assert ds[k] == d;
      }
      if k :| PassesAt(ds, taken, k) && ds[k] == d {
        if k < |front| {
          PassesInFront(ds, taken, k);
          assert front[k] == d;
        }
      }
    }
  }

  ghost predicate MeetsOne(range: Range, ds: seq<Detection>) {
    exists d :: d in ds && d.range.Some? && Meet(range, d.range.value)
  }

  lemma MaskedIffMet(ds: seq<Detection>, n: nat, range: Range)
    requires DetectionsFit(ds, n) && range.start < range.end
    ensures MaskedSomewhere(range, MergedRanges(ds)) <==> MeetsOne(range, ds)
  {
    hide Covers, MergedRanges;
    MergedRangesFit(ds, n);
    if MaskedSomewhere(range, MergedRanges(ds)) {
      var p: nat :| range.start <= p < range.end && Covers(MergedRanges(ds), p);
      assert Hides(ds, p);
    }
    if d :| d in ds && d.range.Some? && Meet(range, d.range.value) {
      MeetingIsMasked(ds, n, d, range);
    }
  }

  lemma MeetsEither(range: Range, a: seq<Detection>, b: seq<Detection>)
    ensures MeetsOne(range, a + b) <==> MeetsOne(range, a) || MeetsOne(range, b)
  {
    hide Meet;
    assert forall d :: d in a + b <==> d in a || d in b;
  }

  /** Some number meets the range and passed the guard: it overlaps neither an address kept
      nor a number kept before it. */
  ghost predicate MeetsPassing(range: Range, phones: seq<Detection>, taken: seq<Detection>) {
    exists k :: PassesAt(phones, taken, k) && phones[k].range.Some? && Meet(range, phones[k].range.value)
  }

  lemma MeetsKept(range: Range, phones: seq<Detection>, taken: seq<Detection>)
    ensures MeetsOne(range, Keep(phones, taken)) <==> MeetsPassing(range, phones, taken)
  {
    hide Meet, Keep, Overlaps;
    if d :| d in Keep(phones, taken) && d.range.Some? && Meet(range, d.range.value) {
      KeptPassedTheGuard(phones, taken, d);
    }
    if k :| PassesAt(phones, taken, k) && phones[k].range.Some? && Meet(range, phones[k].range.value) {
      KeptPassedTheGuard(phones, taken, phones[k]);
    }
  }

  /** Any stretch of the original, a number in particular, loses some of its text exactly
      when an address kept meets it, or a detected number that passed the filter's guard. */
  lemma StretchIsHitExactly(valid: Validity, ms: seq<MappedUnit>, n: nat, matches: seq<PhoneMatch>,
        addresses: seq<Detection>, mentions: seq<Detection>, range: Range)
    requires Sound(ms, 0, n) && forall j :: 0 <= j < |matches| ==> ValidMatch(matches[j], Codes(ms))
    requires DetectionsFit(addresses, n) && forall d :: d in mentions ==> d.range.None?
    requires range.start < range.end
    ensures var taken, phones := Keep(addresses, []), PhoneDetections(PhoneRanges(valid, ms, matches));
      MaskedSomewhere(range, MergedRanges(DetectionsOf(valid, ms, matches, addresses, mentions)))
      <==> MeetsOne(range, taken) || MeetsPassing(range, phones, taken)
  {
    hide Sound, ValidMatch, Keep, PhoneRanges, MergedRanges, MaskedSomewhere, Codes, MeetsPassing, PhoneDetections,
      DetectionsFit;
    var taken, phones := Keep(addresses, []), PhoneDetections(PhoneRanges(valid, ms, matches));
    var ds := DetectionsOf(valid, ms, matches, addresses, mentions);
    PipelineFits(valid, ms, n, matches, addresses, mentions);
    MaskedIffMet(ds, n, range);
    KeepInLayers(addresses, phones, []);
    assert [] + taken == taken;
    MeetsKept(range, phones, taken);
    assert !MeetsOne(range, mentions);
    hide MeetsOne;
    MeetsEither(range, taken, Keep(phones, taken));
    MeetsEither(range, taken + Keep(phones, taken), mentions);
  }

  /** So a valid number among the matched digits is hit exactly under that condition. */
  lemma NumberIsHitExactly(valid: Validity, ms: seq<MappedUnit>, n: nat, matches: seq<PhoneMatch>,
        addresses: seq<Detection>, mentions: seq<Detection>, i: nat, a: nat, b: nat)
    requires Sound(ms, 0, n) && forall j :: 0 <= j < |matches| ==> ValidMatch(matches[j], Codes(ms))
    requires DetectionsFit(addresses, n) && forall d :: d in mentions ==> d.range.None?
    requires i < |matches| && IsPhone(valid, matches[i].groups, matches[i].plusPrefixed, a, b)
    ensures var taken, phones := Keep(addresses, []), PhoneDetections(PhoneRanges(valid, ms, matches));
      var range := RunRange(ms, matches[i], Run(a, b));
      MaskedSomewhere(range, MergedRanges(DetectionsOf(valid, ms, matches, addresses, mentions)))
      <==> MeetsOne(range, taken) || MeetsPassing(range, phones, taken)
  {
    hide Sound, Keep, PhoneRanges, MergedRanges, MaskedSomewhere, Codes, MeetsPassing, DetectionsFit, RunRange,
      ValidMatch, DetectionsOf, MeetsOne;
    RunRangeIsSound(ms, n, matches[i], Run(a, b));
    StretchIsHitExactly(valid, ms, n, matches, addresses, mentions, RunRange(ms, matches[i], Run(a, b)));
  }

  // ------------------------------------------------------- a number that stays

  const AT_SIGN: CodeUnit := 0x40

  /** A handle of three digits, a space and nine digits, as in "@212 612345678". */
  ghost predicate IsHandleAndNumber(text: Text) {
    && |text| == 14 && text[0] == AT_SIGN && text[4] == SPACE
    && forall i :: 1 <= i < 14 && i != 4 ==> IsDigit(text[i])
  }

  /** What the phone pattern matches there: it starts after the at sign. */
  function TwoGroups(text: Text): PhoneMatch
    requires |text| == 14
  {
    PhoneMatch(1, false, [DigitGroup(text[1..4], 1, 4), DigitGroup(text[5..14], 5, 14)])
  }

  /** What the handle pattern matches there: it stops at the space. */
  function HandleMatch(): Detection { Detection(HANDLE, Some(Range(0, 4))) }

  lemma TwoGroupsMatch(text: Text)
    requires IsHandleAndNumber(text)
    ensures Codes(Aligned(text, 0)) == text && ValidMatch(TwoGroups(text), text) && Sound(Aligned(text, 0), 0, 14)
  {}

  lemma BothGroupsAreOneRange(valid: Validity, text: Text)
    requires IsHandleAndNumber(text) && IsPhone(valid, TwoGroups(text).groups, false, 0, 1)
    ensures ValidMatch(TwoGroups(text), Codes(Aligned(text, 0)))
    ensures PhoneRanges(valid, Aligned(text, 0), [TwoGroups(text)]) == [Range(1, 14)]
  {
    var ms, m := Aligned(text, 0), TwoGroups(text);
    TwoGroupsMatch(text);
    hide IsPhone, ValidMatch, Codes;
    assert [m][..0] == [];
    assert RunRange(ms, m, Run(0, 1)) == Range(1, 14);
    assert RangesFrom(valid, ms, m, 2) == [];
    assert RangesFrom(valid, ms, m, 0) == [Range(1, 14)];
  }

  lemma HandleWins()
    ensures Keep([HandleMatch(), Detection(PHONE, Some(Range(1, 14)))], []) == [HandleMatch()]
  {
    var handle, phone := HandleMatch(), Detection(PHONE, Some(Range(1, 14)));
    assert [handle, phone][..1] == [handle] && [handle][..0] == [];
    assert Keep([handle], []) == [handle];
    assert Overlaps(phone, [] + [handle]);
  }

  lemma HandleTextStays(lex: Lexicon, tokens: seq<Token>, text: Text)
    requires IsHandleAndNumber(text) && TokensOf(tokens, text) && forall t :: t in tokens ==> !InRun(lex, t)
    ensures Expand(lex, tokens, 0) == Aligned(text, 0)
  {
    hide InRun, LooksNumeric;
    forall t | t in tokens ensures Shown(t) == t.text {
      var i :| 0 <= i < |tokens| && tokens[i] == t;
      assert ValidToken(t);
      TokenRange(tokens, |text|, i, i + 1);
      assert forall k :: 0 <= k < |t.text| ==> t.text[k] == text[t.start + k] && Lookalike(t.text[k]).None?;
    }
    PlainTextStays(lex, tokens, text, 0);
    assert text[0..] == text;
    assert StartOf(tokens, |text|, 0) == 0;
  }

  /** Not every valid number is hit: when the digits of a handle and the number after it
      together make a number, that one is dropped for the handle, and the number after it
      stays even if it is valid on its own. */
  lemma NumberBesideAHandleStays(valid: Validity, lex: Lexicon, tokens: seq<Token>, text: Text)
    requires IsHandleAndNumber(text) && TokensOf(tokens, text) && forall t :: t in tokens ==> !InRun(lex, t)
    requires IsPhone(valid, TwoGroups(text).groups, false, 0, 1) && IsPhone(valid, TwoGroups(text).groups, false, 1, 1)
    ensures ValidMatch(TwoGroups(text), Codes(Expand(lex, tokens, 0)))
    ensures var ds := DetectionsOf(valid, Expand(lex, tokens, 0), [TwoGroups(text)], [HandleMatch()], []);
      forall p: nat :: 5 <= p < 14 ==> !Covers(MergedRanges(ds), p)
  {
    HandleTextStays(lex, tokens, text);
    BothGroupsAreOneRange(valid, text);
    HandleWins();
    hide IsPhone, ValidMatch, Codes, MergedRanges, Covers, Keep, PhoneRanges, TwoGroups, Expand, InRun, TokensOf,
      IsHandleAndNumber;
    var handle, phone := HandleMatch(), Detection(PHONE, Some(Range(1, 14)));
    assert PhoneDetections([Range(1, 14)]) == [phone];
    assert [handle] + [phone] == [handle, phone];
    assert DetectionsOf(valid, Aligned(text, 0), [TwoGroups(text)], [handle], []) == [handle];
    MergedRangesFit([handle], 14);
  }
}

/** Speaker assignment after diarization. Each transcribed segment takes
    the label of the diarization turn it overlaps most, and consecutive
    segments with the same speaker are merged into one transcript record
    whose text is their stripped texts joined by single spaces.

    The transcription and diarization models are not part of this model:
    their outputs, the segment list and the turn list, are inputs. */
module PostProcessing {
  import opened Common
  import opened Models

  datatype Segment = Segment(start: real, end: real, text: string)
  datatype Turn = Turn(start: real, end: real, speaker: string)

  const UnknownSpeaker: string := "Unknown"

  function Min(a: real, b: real): real { if a <= b then a else b }
  function Max(a: real, b: real): real { if a >= b then a else b }

  /** max(0, min(end, turn.end) - max(start, turn.start)). */
  function Overlap(s: Segment, t: Turn): (o: real)
    ensures o >= 0.0
    ensures o > 0.0 <==> Max(s.start, t.start) < Min(s.end, t.end)
  {
    Max(0.0, Min(s.end, t.end) - Max(s.start, t.start))
  }

  // ---------------------------------------------------------------------
  // Speaker of one segment.

  /** The pair (max_overlap, speaker) after scanning the given turns in
      order, starting from (0, "Unknown"); only a strictly larger overlap
      replaces the current pair. */
  function Scan(s: Segment, turns: seq<Turn>): (real, string)
  {
    if turns == [] then (0.0, UnknownSpeaker)
    else
      var prev := Scan(s, turns[..|turns| - 1]);
      var last := turns[|turns| - 1];
      var o := Overlap(s, last);
      if o > prev.0 then (o, last.speaker) else prev
  }

  function BestSpeaker(s: Segment, turns: seq<Turn>): string {
    Scan(s, turns).1
  }

  /** Turn `k` has the largest overlap with `s`, that overlap is positive,
      and every earlier turn overlaps strictly less. */
  ghost predicate FirstLargest(s: Segment, turns: seq<Turn>, k: int) {
    && 0 <= k < |turns|
    && Overlap(s, turns[k]) > 0.0
    && (forall j | 0 <= j < |turns| :: Overlap(s, turns[j]) <= Overlap(s, turns[k]))
    && (forall j | 0 <= j < k :: Overlap(s, turns[j]) < Overlap(s, turns[k]))
  }

  ghost predicate NoOverlap(s: Segment, turns: seq<Turn>) {
    forall j | 0 <= j < |turns| :: Overlap(s, turns[j]) == 0.0
  }

  /** The scan ends with "Unknown" when no turn overlaps the segment, and
      otherwise with the label of the first turn of largest overlap. */
  lemma {:induction false} ScanChoosesFirstLargest(s: Segment, turns: seq<Turn>)
    ensures NoOverlap(s, turns) ==> Scan(s, turns) == (0.0, UnknownSpeaker)
    ensures !NoOverlap(s, turns) ==>
      exists k :: FirstLargest(s, turns, k) && Scan(s, turns) == (Overlap(s, turns[k]), turns[k].speaker)
  {
    if turns != [] {
      var init := turns[..|turns| - 1];
      var last := turns[|turns| - 1];
      ScanChoosesFirstLargest(s, init);
      assert turns == init + [last];
      var o := Overlap(s, last);
      if NoOverlap(s, init) {
        if o > 0.0 {
          ExtendWithLarger(s, init, last);
        }
      } else {
        var k :| FirstLargest(s, init, k) && Scan(s, init) == (Overlap(s, init[k]), init[k].speaker);
        if o > Overlap(s, init[k]) {
          ExtendWithLarger(s, init, last);
        } else {
          ExtendKeepsFirst(s, init, last, k);
        }
      }
    }
  }

  lemma ExtendWithLarger(s: Segment, init: seq<Turn>, last: Turn)
    requires Overlap(s, last) > 0.0
    requires forall j | 0 <= j < |init| :: Overlap(s, init[j]) < Overlap(s, last)
    ensures FirstLargest(s, init + [last], |init|)
  {
    var turns := init + [last];
    assert forall j | 0 <= j < |init| :: turns[j] == init[j];
  }

  lemma ExtendKeepsFirst(s: Segment, init: seq<Turn>, last: Turn, k: int)
    requires FirstLargest(s, init, k)
    requires Overlap(s, last) <= Overlap(s, init[k])
    ensures FirstLargest(s, init + [last], k)
  {
    var turns := init + [last];
    assert forall j | 0 <= j < |init| :: turns[j] == init[j];
  }

  /** On equal overlaps the earlier turn keeps its place. */
  lemma TieGoesToEarlierTurn(s: Segment, t1: Turn, t2: Turn)
    requires Overlap(s, t1) > 0.0 && Overlap(s, t1) == Overlap(s, t2)
    ensures BestSpeaker(s, [t1, t2]) == t1.speaker
  {
    assert [t1, t2][..1] == [t1];
    assert [t1][..0] == [];
    assert Scan(s, [t1]) == (Overlap(s, t1), t1.speaker);
  }

  /** The inner loop of diarize: the speaker label for one segment. */
  method AssignSpeaker(s: Segment, turns: seq<Turn>) returns (speaker: string, maxOverlap: real)
    ensures (maxOverlap, speaker) == Scan(s, turns)
    ensures maxOverlap >= 0.0
  {
    speaker := UnknownSpeaker;
    maxOverlap := 0.0;
    for i := 0 to |turns|
      invariant (maxOverlap, speaker) == Scan(s, turns[..i])
    {
      assert turns[..i + 1][..i] == turns[..i];
      var overlap := Overlap(s, turns[i]);
      if overlap > maxOverlap {
        maxOverlap := overlap;
        speaker := turns[i].speaker;
      }
    }
    assert turns[..|turns|] == turns;
    ScanChoosesFirstLargest(s, turns);
  }

  // ---------------------------------------------------------------------
  // Merging consecutive segments of one speaker.

  datatype Labeled = Labeled(speaker: string, text: string)

  /** Each segment with its speaker and its stripped text, in order. */
  function Label(segments: seq<Segment>, turns: seq<Turn>): (r: seq<Labeled>)
    ensures |r| == |segments|
  {
    if segments == [] then []
    else
      var last := segments[|segments| - 1];
      Label(segments[..|segments| - 1], turns) + [Labeled(BestSpeaker(last, turns), Strip(last.text))]
  }

  /** A run: one speaker and the texts of its consecutive segments. */
  datatype Run = Run(speaker: string, texts: seq<string>)

  function RunItems(r: Run): (items: seq<Labeled>)
    ensures |items| == |r.texts|
  {
    seq(|r.texts|, i requires 0 <= i < |r.texts| => Labeled(r.speaker, r.texts[i]))
  }

  /** The labelled segments a list of runs stands for. */
  function Expand(runs: seq<Run>): seq<Labeled> {
    if runs == [] then [] else Expand(runs[..|runs| - 1]) + RunItems(runs[|runs| - 1])
  }

  ghost predicate NoAdjacentSame(runs: seq<Run>) {
    forall i | 0 < i < |runs| :: runs[i - 1].speaker != runs[i].speaker
  }

  ghost predicate NonEmptyRuns(runs: seq<Run>) {
    forall i | 0 <= i < |runs| :: runs[i].texts != []
  }

  /** Adds one labelled segment: it extends the last run when the speaker
      is the same, and starts a new run otherwise. */
  function Push(runs: seq<Run>, x: Labeled): seq<Run> {
    if runs != [] && runs[|runs| - 1].speaker == x.speaker then
      runs[..|runs| - 1] + [Run(x.speaker, runs[|runs| - 1].texts + [x.text])]
    else
      runs + [Run(x.speaker, [x.text])]
  }

  /** Maximal runs of equal speakers, built segment by segment. */
  function Runs(items: seq<Labeled>): seq<Run> {
    if items == [] then [] else Push(Runs(items[..|items| - 1]), items[|items| - 1])
  }

  lemma ExpandAppend(runs: seq<Run>, r: Run)
    ensures Expand(runs + [r]) == Expand(runs) + RunItems(r)
  {
    assert (runs + [r])[..|runs|] == runs;
  }

  lemma PushKeepsShape(runs: seq<Run>, x: Labeled)
    requires NoAdjacentSame(runs) && NonEmptyRuns(runs)
    ensures NoAdjacentSame(Push(runs, x)) && NonEmptyRuns(Push(runs, x))
    ensures Push(runs, x)[|Push(runs, x)| - 1].speaker == x.speaker
    ensures Expand(Push(runs, x)) == Expand(runs) + [x]
    ensures |Push(runs, x)| == |runs| + (if runs != [] && runs[|runs| - 1].speaker == x.speaker then 0 else 1)
  {
    if runs != [] && runs[|runs| - 1].speaker == x.speaker {
      var init := runs[..|runs| - 1];
      var lastRun := runs[|runs| - 1];
      var extended := Run(x.speaker, lastRun.texts + [x.text]);
      assert init + [lastRun] == runs;
      ExpandAppend(init, lastRun);
      ExpandAppend(init, extended);
      assert RunItems(extended) == RunItems(lastRun) + [x];
    } else {
      ExpandAppend(runs, Run(x.speaker, [x.text]));
      assert RunItems(Run(x.speaker, [x.text])) == [x];
    }
  }

  /** The runs are maximal: neighbouring runs have different speakers, no
      run is empty, and expanding the runs gives back the segments in
      order. */
  lemma {:induction false} RunsAreMaximal(items: seq<Labeled>)
    ensures NoAdjacentSame(Runs(items)) && NonEmptyRuns(Runs(items))
    ensures Expand(Runs(items)) == items
  {
    if items != [] {
      var init := items[..|items| - 1];
      RunsAreMaximal(init);
      PushKeepsShape(Runs(init), items[|items| - 1]);
      assert init + [items[|items| - 1]] == items;
    }
  }

  /** There are at most as many runs as segments, and at least one when
      there is a segment. */
  lemma {:induction false} RunsLength(items: seq<Labeled>)
    ensures |Runs(items)| <= |items|
    ensures Runs(items) == [] <==> items == []
  {
    if items != [] {
      RunsLength(items[..|items| - 1]);
    }
  }

  /** Number of positions where the speaker differs from the one before. */
  function SpeakerChanges(items: seq<Labeled>): nat {
    if |items| < 2 then 0
    else
      SpeakerChanges(items[..|items| - 1])
        + (if items[|items| - 2].speaker != items[|items| - 1].speaker then 1 else 0)
  }

  /** There is one run per speaker change, plus the first. */
  lemma {:induction false} RunsCountChanges(items: seq<Labeled>)
    requires items != []
    ensures |Runs(items)| == 1 + SpeakerChanges(items)
  {
    if |items| > 1 {
      var init := items[..|items| - 1];
      RunsCountChanges(init);
      RunsAreMaximal(init);
      PushKeepsShape(Runs(init), items[|items| - 1]);
      assert init[|init| - 1] == items[|items| - 2];
      assert Runs(init)[|Runs(init)| - 1].speaker == init[|init| - 1].speaker by {
        LastRunSpeaker(init);
      }
    }
  }

  lemma {:induction false} LastRunSpeaker(items: seq<Labeled>)
    requires items != []
    ensures Runs(items) != [] && Runs(items)[|Runs(items)| - 1].speaker == items[|items| - 1].speaker
  {
    var init := items[..|items| - 1];
    RunsAreMaximal(init);
    PushKeepsShape(Runs(init), items[|items| - 1]);
  }

  function ToRecord(r: Run): TranscriptRecord {
    TranscriptRecord(r.speaker, Join(r.texts, " "))
  }

  function Records(runs: seq<Run>): (r: seq<TranscriptRecord>)
    ensures |r| == |runs|
    ensures forall i | 0 <= i < |r| :: r[i] == ToRecord(runs[i])
  {
    seq(|runs|, i requires 0 <= i < |runs| => ToRecord(runs[i]))
  }

  /** The diarized transcript: maximal runs of the labelled segments. */
  function Transcript(segments: seq<Segment>, turns: seq<Turn>): seq<TranscriptRecord> {
    Records(Runs(Label(segments, turns)))
  }

  lemma RecordsAppend(runs: seq<Run>, r: Run)
    ensures Records(runs + [r]) == Records(runs) + [ToRecord(r)]
  {
  }

  lemma RunsSnoc(items: seq<Labeled>, x: Labeled)
    ensures Runs(items + [x]) == Push(Runs(items), x)
  {
    assert (items + [x])[..|items|] == items;
  }

  lemma LabelSnoc(segments: seq<Segment>, turns: seq<Turn>, i: int)
    requires 0 <= i < |segments|
    ensures Label(segments[..i + 1], turns)
      == Label(segments[..i], turns) + [Labeled(BestSpeaker(segments[i], turns), Strip(segments[i].text))]
  {
    assert segments[..i + 1][..i] == segments[..i];
  }

  /** Records of runs with different neighbouring speakers also have
      different neighbouring speakers. */
  lemma RecordsAlternate(runs: seq<Run>)
    requires NoAdjacentSame(runs)
    ensures forall i | 0 < i < |Records(runs)| :: Records(runs)[i - 1].speaker != Records(runs)[i].speaker
  {
    var t := Records(runs);
    assert forall i | 0 <= i < |t| :: t[i].speaker == runs[i].speaker;
  }

  /** Size bounds and speaker alternation of the diarized transcript. */
  lemma TranscriptShape(segments: seq<Segment>, turns: seq<Turn>)
    ensures segments == [] ==> Transcript(segments, turns) == []
    ensures segments != [] ==> 1 <= |Transcript(segments, turns)| <= |segments|
    ensures forall i | 0 < i < |Transcript(segments, turns)| ::
      Transcript(segments, turns)[i - 1].speaker != Transcript(segments, turns)[i].speaker
  {
    var items := Label(segments, turns);
    RunsAreMaximal(items);
    RunsLength(items);
    RecordsAlternate(Runs(items));
  }

  /** How diarize's loop state stands for the runs so far: the finished
      records, and the open run's speaker and texts. */
  ghost predicate Tracks(runs: seq<Run>, result: seq<TranscriptRecord>, speaker: Option<string>, texts: seq<string>) {
    && (speaker.None? <==> runs == [])
    && (speaker.None? ==> result == [] && texts == [])
    && (speaker.Some? ==>
      && texts != []
      && result == Records(runs[..|runs| - 1])
      && runs[|runs| - 1] == Run(speaker.value, texts))
  }

  lemma TrackStart(x: Labeled)
    ensures Tracks(Push([], x), [], Some(x.speaker), [x.text])
  {
  }

  lemma TrackExtend(runs: seq<Run>, result: seq<TranscriptRecord>, speaker: string, texts: seq<string>, x: Labeled)
    requires Tracks(runs, result, Some(speaker), texts) && x.speaker == speaker
    ensures Tracks(Push(runs, x), result, Some(speaker), texts + [x.text])
  {
    var next := Push(runs, x);
    assert next[..|next| - 1] == runs[..|runs| - 1];
  }

  lemma TrackSwitch(runs: seq<Run>, result: seq<TranscriptRecord>, speaker: string, texts: seq<string>, x: Labeled)
    requires Tracks(runs, result, Some(speaker), texts) && x.speaker != speaker
    ensures Tracks(Push(runs, x), result + [TranscriptRecord(speaker, Join(texts, " "))], Some(x.speaker), [x.text])
  {
    var next := Push(runs, x);
    assert next[..|next| - 1] == runs;
    assert runs == runs[..|runs| - 1] + [runs[|runs| - 1]];
    RecordsAppend(runs[..|runs| - 1], runs[|runs| - 1]);
  }

  lemma TrackFinish(runs: seq<Run>, result: seq<TranscriptRecord>, speaker: Option<string>, texts: seq<string>)
    requires Tracks(runs, result, speaker, texts)
    ensures texts == [] ==> result == Records(runs)
    ensures texts != [] ==> speaker.Some? && result + [TranscriptRecord(speaker.value, Join(texts, " "))] == Records(runs)
  {
    if speaker.Some? {
      assert runs == runs[..|runs| - 1] + [runs[|runs| - 1]];
      RecordsAppend(runs[..|runs| - 1], runs[|runs| - 1]);
    }
  }

  /** diarize: assign speakers, then merge consecutive segments of one
      speaker into one record. */
  method Diarize(segments: seq<Segment>, turns: seq<Turn>) returns (result: seq<TranscriptRecord>)
    ensures result == Transcript(segments, turns)
  {
    result := [];
    var currentSpeaker: Option<string> := None;
    var currentText: seq<string> := [];
    ghost var runs: seq<Run> := [];
    assert segments[..0] == [];
    for i := 0 to |segments|
      invariant runs == Runs(Label(segments[..i], turns))
      invariant Tracks(runs, result, currentSpeaker, currentText)
    {
      var seg := segments[i];
      var text := Strip(seg.text);
      var speaker, _ := AssignSpeaker(seg, turns);
      LabelSnoc(segments, turns, i);
      RunsSnoc(Label(segments[..i], turns), Labeled(speaker, text));
      ghost var x := Labeled(speaker, text);
      if currentSpeaker.None? {
        TrackStart(x);
        currentSpeaker := Some(speaker);
        currentText := currentText + [text];
      } else if speaker == currentSpeaker.value {
        TrackExtend(runs, result, speaker, currentText, x);
        currentText := currentText + [text];
      } else {
        TrackSwitch(runs, result, currentSpeaker.value, currentText, x);
        result := result + [TranscriptRecord(currentSpeaker.value, Join(currentText, " "))];
        currentSpeaker := Some(speaker);
        currentText := [text];
      }
      runs := Push(runs, x);
    }
    assert segments[..|segments|] == segments;
    TrackFinish(runs, result, currentSpeaker, currentText);
    if currentText != [] {
      result := result + [TranscriptRecord(currentSpeaker.value, Join(currentText, " "))];
    }
  }
}

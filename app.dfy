/**
 * The second chord pipeline (app.py): notes detected from audio carry start times in
 * seconds; `detect_simultaneous_notes` sorts them and groups them with the same
 * window rule as `detect_chords`; `analyze_chord` names the chord from its intervals
 * above the lowest pitch with a twelve-row template table searched for the first
 * template contained in the interval set.
 */
module App {
  import opened Wrappers
  import Seqs
  import Pitch
  import Grouping
  import Templates

  /** One detected note (`start_time`, `duration`, `pitch_midi`, `pitch_name`,
      `confidence`, `velocity`). */
  datatype AppNote = AppNote(startTime: real, duration: real, pitchMidi: int, pitchName: string,
                             confidence: real, velocity: int)

  function StartTime(n: AppNote): real {
    n.startTime
  }

  // ---------------------------------------------------------------------------
  // detect_simultaneous_notes

  /** `detect_simultaneous_notes`: the groups of the start-sorted notes, each note within
      `window` of its group's first start, keeping the groups of two notes or more. The
      input is a value, so the caller's list is left as it was. */
  method DetectSimultaneousNotes(notes: seq<AppNote>, window: real) returns (chords: seq<seq<AppNote>>)
    ensures chords == Grouping.Clusters(StartTime, window, Seqs.SortBy(notes, StartTime))
  {
    if notes == [] {
      return [];
    }
    var sorted := Seqs.SortBy(notes, StartTime);
    Seqs.SortByLength(notes, StartTime);
    chords := GroupSorted(sorted, window);
  }

  /** The grouping loop of `detect_simultaneous_notes`, over the sorted copy. */
  method GroupSorted(sorted: seq<AppNote>, window: real) returns (chords: seq<seq<AppNote>>)
    requires sorted != []
    ensures chords == Grouping.Clusters(StartTime, window, sorted)
  {
    chords := [];
    var current := [sorted[0]];
    var currentTime := sorted[0].startTime;
    Grouping.ScanStart(StartTime, window, sorted);
    var i := 1;
    while i < |sorted|
      invariant 1 <= i <= |sorted|
      invariant current != [] && currentTime == current[0].startTime
      invariant Grouping.Scanning(StartTime, window, sorted, i, chords, current)
    {
      var note := sorted[i];
      assert StartTime(note) - StartTime(current[0]) == note.startTime - currentTime;
      if note.startTime - currentTime <= window {
        Grouping.ScanJoin(StartTime, window, sorted, i, chords, current);
        current := current + [note];
      } else {
        Grouping.ScanClose(StartTime, window, sorted, i, chords, current);
        if |current| >= 2 {
          chords := chords + [current];
        }
        current := [note];
        currentTime := note.startTime;
      }
      i := i + 1;
    }
    Grouping.ScanFinish(StartTime, window, sorted, chords, current);
    chords := chords + (if |current| >= 2 then [current] else []);
  }

  /** The sorted copy is ordered by start and a permutation of the input; every chord has
      two or more notes, all within the window of its first note; and the groups, single
      notes included, put back together give the sorted copy. */
  lemma SimultaneousNotesProperties(notes: seq<AppNote>, window: real)
    ensures var sorted := Seqs.SortBy(notes, StartTime);
      && Seqs.SortedBy(sorted, StartTime)
      && multiset(sorted) == multiset(notes)
      && Seqs.Flatten(Grouping.Groups(StartTime, window, sorted)) == sorted
      && (notes == [] ==> Grouping.Clusters(StartTime, window, sorted) == [])
      && forall c :: c in Grouping.Clusters(StartTime, window, sorted) ==>
           |c| >= 2 && Grouping.InWindow(StartTime, window, c)
  {
    var sorted := Seqs.SortBy(notes, StartTime);
    Seqs.SortByProperties(notes, StartTime);
    Grouping.GroupsProperties(StartTime, window, sorted);
    Grouping.ClustersProperties(StartTime, window, sorted);
  }

  // ---------------------------------------------------------------------------
  // identify_chord_type

  /** The twelve rows of app.py's `chord_types`, in their listed order. */
  const AppChordTypes: Templates.Table := [
    Templates.Template({0, 4, 7}, "Major"),
    Templates.Template({0, 3, 7}, "Minor"),
    Templates.Template({0, 3, 6}, "Diminished"),
    Templates.Template({0, 4, 8}, "Augmented"),
    Templates.Template({0, 4, 7, 11}, "Major 7"),
    Templates.Template({0, 3, 7, 10}, "Minor 7"),
    Templates.Template({0, 4, 7, 10}, "Dominant 7"),
    Templates.Template({0, 3, 6, 10}, "Half-Diminished 7"),
    Templates.Template({0, 3, 6, 9}, "Diminished 7"),
    Templates.Template({0, 4, 7, 10, 14}, "Dominant 9"),
    Templates.Template({0, 4, 7, 11, 14}, "Major 9"),
    Templates.Template({0, 3, 7, 10, 14}, "Minor 9")
  ]

  /** `identify_chord_type` as written: the first template contained in the interval
      set, whether or not another template equals it; otherwise "Unknown". */
  function IdentifyChordType(intervals: seq<int>): string {
    match Templates.FirstSubset(AppChordTypes, Templates.IntervalSet(intervals))
    case Some(i) => AppChordTypes[i].name
    case None => "Unknown"
  }

  /** The triad a seventh template contains, listed before it. */
  function EarlierTriad(i: nat): nat
    requires 4 <= i <= 8
  {
    if i == 4 || i == 6 then 0 else if i == 5 then 1 else 2
  }

  lemma SeventhContainsTriad(i: nat)
    requires 4 <= i <= 8
    ensures EarlierTriad(i) < i
    ensures AppChordTypes[EarlierTriad(i)].intervals <= AppChordTypes[i].intervals
  {
  }

  lemma NinthContainsFourteen(i: nat)
    requires 9 <= i <= 11
    ensures 14 in AppChordTypes[i].intervals
  {
  }

  /** On intervals reduced modulo 12 the first contained template is always a triad: a
      seventh contains a triad listed earlier, and a ninth contains 14. */
  lemma FirstSubsetIsTriad(intervals: seq<int>)
    requires forall i :: 0 <= i < |intervals| ==> 0 <= intervals[i] < 12
    ensures var r := Templates.FirstSubset(AppChordTypes, Templates.IntervalSet(intervals));
      r.Some? ==> r.value < 4
  {
    var s := Templates.IntervalSet(intervals);
    var r := Templates.FirstSubset(AppChordTypes, s);
    if r.Some? && 4 <= r.value <= 8 {
      SeventhContainsTriad(r.value);
      assert false;
    } else if r.Some? && 9 <= r.value {
      NinthContainsFourteen(r.value);
      assert false;
    }
  }

  /** So the result, contrary to the documented examples, is only ever a triad name or
      "Unknown". */
  lemma OnlyTriadNames(intervals: seq<int>)
    requires forall i :: 0 <= i < |intervals| ==> 0 <= intervals[i] < 12
    ensures IdentifyChordType(intervals) in {"Major", "Minor", "Diminished", "Augmented", "Unknown"}
  {
    FirstSubsetIsTriad(intervals);
  }

  /** The documented major seventh [0, 4, 7, 11] is named "Major". */
  lemma MajorSeventhAsWritten()
    ensures IdentifyChordType([0, 4, 7, 11]) == "Major"
  {
    var s := Templates.IntervalSet([0, 4, 7, 11]);
    assert AppChordTypes[0].intervals <= s;
  }

  /** With an exact-match stage before the subset search, as the documented examples
      intend: a set equal to a template takes that template's name. */
  function IdentifyChordTypeCorrected(intervals: seq<int>): string {
    match Templates.Lookup(AppChordTypes, Templates.IntervalSet(intervals))
    case ExactMatch(i) => AppChordTypes[i].name
    case SubsetMatch(i) => AppChordTypes[i].name
    case NoMatch => "Unknown"
  }

  lemma AppChordTypesDistinct()
    ensures Templates.DistinctKeys(AppChordTypes)
  {
    AppFirstRowsDistinct();
    AppMiddleRowsDistinct();
    AppLastRowsDistinct();
  }

  /** Distinctness of the table's keys in three parts: each row differs from every
      earlier row, for the rows 0 to 4, 5 to 8 and 9 to 11. */
  lemma AppFirstRowsDistinct()
    ensures forall i, j :: 0 <= i < j < 5 ==> AppChordTypes[i].intervals != AppChordTypes[j].intervals
  {
  }

  lemma AppMiddleRowsDistinct()
    ensures forall i, j :: 0 <= i < j && 5 <= j < 9 ==> AppChordTypes[i].intervals != AppChordTypes[j].intervals
  {
  }

  lemma AppLastRowsDistinct()
    ensures forall i, j :: 0 <= i < j && 9 <= j < 12 ==> AppChordTypes[i].intervals != AppChordTypes[j].intervals
  {
  }

  /** Every template is recognised by its own interval set. */
  lemma CorrectedExact(intervals: seq<int>, i: nat)
    requires i < |AppChordTypes| && AppChordTypes[i].intervals == Templates.IntervalSet(intervals)
    ensures IdentifyChordTypeCorrected(intervals) == AppChordTypes[i].name
  {
    AppChordTypesDistinct();
  }

  /** Where no template equals the set, the correction changes nothing. */
  lemma CorrectedAgreesOtherwise(intervals: seq<int>)
    requires forall j :: 0 <= j < |AppChordTypes| ==> AppChordTypes[j].intervals != Templates.IntervalSet(intervals)
    ensures IdentifyChordTypeCorrected(intervals) == IdentifyChordType(intervals)
  {
    var s := Templates.IntervalSet(intervals);
    var m := Templates.Lookup(AppChordTypes, s);
    var r := Templates.FirstSubset(AppChordTypes, s);
    if m.SubsetMatch? {
      assert r.Some?;
      assert !(m.index < r.value) && !(r.value < m.index);
    }
  }

  lemma CorrectedExample0()
    ensures IdentifyChordTypeCorrected([0, 4, 7]) == "Major"
  {
    assert Templates.IntervalSet([0, 4, 7]) == AppChordTypes[0].intervals;
    CorrectedExact([0, 4, 7], 0);
  }

  lemma CorrectedExample1()
    ensures IdentifyChordTypeCorrected([0, 3, 7]) == "Minor"
  {
    assert Templates.IntervalSet([0, 3, 7]) == AppChordTypes[1].intervals;
    CorrectedExact([0, 3, 7], 1);
  }

  lemma CorrectedExample2()
    ensures IdentifyChordTypeCorrected([0, 4, 7, 11]) == "Major 7"
  {
    assert Templates.IntervalSet([0, 4, 7, 11]) == AppChordTypes[4].intervals;
    CorrectedExact([0, 4, 7, 11], 4);
  }

  lemma CorrectedExample3()
    ensures IdentifyChordTypeCorrected([0, 3, 7, 10]) == "Minor 7"
  {
    assert Templates.IntervalSet([0, 3, 7, 10]) == AppChordTypes[5].intervals;
    CorrectedExact([0, 3, 7, 10], 5);
  }

  lemma CorrectedExample4()
    ensures IdentifyChordTypeCorrected([0, 4, 7, 10]) == "Dominant 7"
  {
    assert Templates.IntervalSet([0, 4, 7, 10]) == AppChordTypes[6].intervals;
    CorrectedExact([0, 4, 7, 10], 6);
  }

  /** The five documented examples hold for the corrected classifier. */
  lemma DocumentedExamples()
    ensures IdentifyChordTypeCorrected([0, 4, 7]) == "Major"
    ensures IdentifyChordTypeCorrected([0, 3, 7]) == "Minor"
    ensures IdentifyChordTypeCorrected([0, 4, 7, 11]) == "Major 7"
    ensures IdentifyChordTypeCorrected([0, 3, 7, 10]) == "Minor 7"
    ensures IdentifyChordTypeCorrected([0, 4, 7, 10]) == "Dominant 7"
  {
    CorrectedExample0();
    CorrectedExample1();
    CorrectedExample2();
    CorrectedExample3();
    CorrectedExample4();
  }

  // ---------------------------------------------------------------------------
  // analyze_chord

  /** The `analyze_chord` dictionary. */
  datatype ChordReport = ChordReport(pitches: seq<int>, noteNames: seq<string>, root: string,
                                     intervals: seq<int>, chordType: string, noteCount: nat)

  function PitchesOf(chord: seq<AppNote>): seq<int> {
    seq(|chord|, i requires 0 <= i < |chord| => chord[i].pitchMidi)
  }

  /** `analyze_chord`, which names the chord with `identify_chord_type` as written; the
      original raises on an empty chord, which `detect_simultaneous_notes` never produces. */
  function AnalyzeChord(chord: seq<AppNote>): ChordReport
    requires chord != []
  {
    var pitches := Seqs.SortBy(PitchesOf(chord), Pitch.PitchKey);
    Seqs.SortByProperties(PitchesOf(chord), Pitch.PitchKey);
    var names := seq(|pitches|, i requires 0 <= i < |pitches| => Pitch.NoteName(pitches[i]));
    var intervals := Pitch.IntervalsFrom(pitches);
    ChordReport(pitches, names, Pitch.NoteName(pitches[0]), intervals,
                IdentifyChordType(intervals), |pitches|)
  }

  /** The same report with the corrected classifier. */
  function AnalyzeChordCorrected(chord: seq<AppNote>): ChordReport
    requires chord != []
  {
    var r := AnalyzeChord(chord);
    r.(chordType := IdentifyChordTypeCorrected(r.intervals))
  }

  /** The pitches ascend and are the chord's pitches rearranged, the lowest first, and the
      count is the number of pitches. */
  lemma AnalyzeChordPitches(chord: seq<AppNote>)
    requires chord != []
    ensures var r := AnalyzeChord(chord);
      && Seqs.SortedBy(r.pitches, Pitch.PitchKey)
      && multiset(r.pitches) == multiset(PitchesOf(chord))
      && r.noteCount == |r.pitches| == |chord|
      && r.pitches[0] == Seqs.MinOf(PitchesOf(chord))
  {
    Pitch.SortedPitches(PitchesOf(chord));
  }

  /** The root is the name of the lowest pitch, every name is that of its pitch, the
      intervals start at 0 and lie in 0..11, and the type is the as-written classifier's
      name for them. */
  lemma AnalyzeChordNames(chord: seq<AppNote>)
    requires chord != []
    ensures var r := AnalyzeChord(chord);
      && |r.pitches| == |chord|
      && r.root == Pitch.NoteName(r.pitches[0])
      && |r.noteNames| == |chord|
      && (forall i :: 0 <= i < |chord| ==> r.noteNames[i] == Pitch.NoteName(r.pitches[i]))
      && |r.intervals| == |chord| && r.intervals[0] == 0
      && (forall i :: 0 <= i < |chord| ==> 0 <= r.intervals[i] < 12)
      && r.chordType == IdentifyChordType(r.intervals)
  {
    Seqs.SortByProperties(PitchesOf(chord), Pitch.PitchKey);
  }

  /** Since the intervals of an analysed chord lie in 0..11, it is named with a triad or
      "Unknown" only. */
  lemma AsWrittenChordTypes(chord: seq<AppNote>)
    requires chord != []
    ensures AnalyzeChord(chord).chordType in {"Major", "Minor", "Diminished", "Augmented", "Unknown"}
  {
    OnlyTriadNames(AnalyzeChord(chord).intervals);
  }

  /** The corrected report differs only in the type, which names every chord whose interval
      set is a template after that template. */
  lemma CorrectedReport(chord: seq<AppNote>, i: nat)
    requires chord != []
    requires i < |AppChordTypes| && AppChordTypes[i].intervals == Templates.IntervalSet(AnalyzeChord(chord).intervals)
    ensures AnalyzeChordCorrected(chord) == AnalyzeChord(chord).(chordType := AppChordTypes[i].name)
  {
    CorrectedExact(AnalyzeChord(chord).intervals, i);
  }

  /** The intervals of a chord of C4, E4, G4 and B4, in that order. */
  lemma MajorSeventhIntervals(chord: seq<AppNote>)
    requires PitchesOf(chord) == [60, 64, 67, 71]
    ensures chord != [] && AnalyzeChord(chord).intervals == [0, 4, 7, 11]
  {
    assert |chord| == 4;
    Seqs.SortBySortedIdentity(PitchesOf(chord), Pitch.PitchKey);
  }

  /** A major-seventh chord is reported as "Major"; the corrected report says "Major 7". */
  lemma MajorSeventhChord(chord: seq<AppNote>)
    requires PitchesOf(chord) == [60, 64, 67, 71]
    ensures chord != []
    ensures AnalyzeChord(chord).chordType == "Major"
    ensures AnalyzeChordCorrected(chord).chordType == "Major 7"
  {
    MajorSeventhIntervals(chord);
    MajorSeventhAsWritten();
    CorrectedExample2();
  }
}

# Jazz piano feedback: a verified model of its symbolic core

The repository is a jazz-piano practice assistant. A recording (audio or MIDI) is
analysed, the result is classified in jazz terms, and the player gets scored
feedback, optionally enriched with passages from a markdown knowledge base. This
project models the parts of it that are plain logic and proves what they promise:

- **MIDI analysis** (`midi_analyzer.py`, module `MidiAnalyzer`):
  - note-on and note-off messages are paired into notes;
  - notes are clustered into chords by a start-time window;
  - chords are named from their intervals with an ordered template table;
  - the key is guessed as the most common note name;
  - velocity dynamics, voice leading between consecutive chords, and the
    assembled analysis result.
- **The audio chord pipeline** (`app.py`, module `App`): the chord grouping sorts
  its input first, and uses a twelve-row template table with first-subset-wins
  matching.
- **The knowledge base text handling** (`knowledge_loader.py`, module
  `KnowledgeLoader`): markdown is split at `## ` headers. The prompt context is
  assembled from search results: query choice, de-duplication, a cap of three
  parts, truncation at 500 characters, the banner and the end marker.
- **The rule-based feedback of the service** (`main.py`, module `JazzFeedback`):
  - the clipped tempo-stability and rhythm-complexity measures;
  - the tempo category, rhythm and density assessments, swing feel and similar
    artists;
  - the category scores and their tips, and the overall score.
- **The earlier version of the service** (`main_OLD_backup.py`, module
  `JazzFeedbackBackup`): its inline swing feel and shorter tips. It cuts the
  language-model reply down to its JSON object, and falls back to rule-based
  feedback.

Shared modules:

- `Pitch`: `midi_to_note_name`, which both analysers define identically.
- `Grouping`: the window clustering used by both chord detectors.
- `Templates`: the ordered interval-set table and its two searches.
- `Seqs`: `sorted`, `Counter.most_common`, `min`, `max` and slicing.
- `Text`: `strip`, `replace`, `find`, `rfind`, `split`, `lower` and `str(int)`.
- `Wrappers`: `Option`.

The loops of the source are methods with loop invariants, each proved against a
specification function:

- `extract_notes`: `MidiAnalyzer.ReduceTrack`, `ExtractNotes` and
  `ExtractNotesPerTrack`;
- `detect_chords`: `MidiAnalyzer.DetectChords`;
- `detect_simultaneous_notes`: `App.GroupSorted`;
- `analyze_voice_leading`: `MidiAnalyzer.AnalyzeVoiceLeading`;
- `_split_by_headers`: `KnowledgeLoader.ScanLines`;
- the de-duplication and formatting loops of `get_context_for_analysis`.

The properties are then proved about those functions. The classifiers and score
formulas are pure functions over `real`.

Some behaviours of the source are proved as they are, since they may well be
intended:

- A tempo below 60 BPM is classed "Very Fast" (`JazzFeedback.SlowTempoIsVeryFast`).
- The melody score treats a density of exactly 4 as balanced, while the density
  assessment calls it dense (`JazzFeedback.MelodyAtFour`).
- The `### ` test in the header check never decides anything
  (`KnowledgeLoader.HeaderIff`).
- The de-duplication key runs source and title together without a separator, so
  two different hits can count as one (`KnowledgeLoader.KeyCollision`).

## Model

| member | source | states |
|---|---|---|
| Pitch.PitchClass | midi_analyzer.py:15 | the index into the name table always lies in 0..11 (Python's `%` by 12 is never negative) |
| Pitch.NoteName | midi_analyzer.py:11-16 | a note name is at least two characters long and begins with the name of the note's pitch class |
| Pitch.OctaveRange | app.py:111-116 | for MIDI numbers 0..127 the octave runs from -1 to 9; it is -1 exactly below 12 and 9 exactly from 120 |
| Pitch.NoteNameRoundTrip | midi_analyzer.py:11-16 | reading a rendered note name back (class name, then the octave) gives the MIDI number again |
| Pitch.NoteNameInjective | app.py:111-116 | different MIDI numbers always have different names |
| Pitch.NoteNameExamples | midi_analyzer.py:12 | 60 is "C4", as documented; 0 is "C-1" and 127 is "G9" |
| Pitch.SortedPitches | midi_analyzer.py:202 | `sorted` of the chord's pitches ascends, is a permutation of them, and starts with their minimum |
| Pitch.IntervalsFrom | midi_analyzer.py:210 | one interval per pitch, each the pitch class of the distance from the lowest pitch, so all lie in 0..11 and the first is 0 |
| Text.StripProperties | knowledge_loader.py:130 | `strip()` is empty exactly for all-white-space text; otherwise it neither starts nor ends with white space, and it is a contiguous slice of the input |
| Text.RemoveAllShrinks | main_OLD_backup.py:477 | removing every occurrence of a pattern never lengthens the text and adds no character |
| Text.Lower | knowledge_loader.py:208 | lower-casing keeps the length and maps each character separately |
| Text.FindChar | main_OLD_backup.py:481 | `find` gives -1 exactly when the character is absent, and otherwise the first index holding it |
| Text.RFindChar | main_OLD_backup.py:482 | `rfind` gives -1 exactly when the character is absent, and otherwise the last index holding it |
| Text.IntToStringRoundTrip | midi_analyzer.py:16 | `int(str(i)) == i` for every integer, negative octaves included |
| Text.NegativeRoundTrip | midi_analyzer.py:16 | the round trip for negative integers, the "-1" octave among them |
| Text.ParseNegative | midi_analyzer.py:16 | a minus sign followed by digits parses as the negated value of those digits |
| Text.DigitsOfNat | midi_analyzer.py:16 | the decimal digits of a natural number evaluate back to that number |
| Text.Split | knowledge_loader.py:124 | `split('\n')` gives at least one piece, and no piece contains the separator |
| Text.JoinSplit | knowledge_loader.py:124 | joining the pieces with the separator gives back the text, so the splitter sees every line |
| Text.SplitJoin | knowledge_loader.py:124 | splitting separator-free pieces joined by the separator gives back the pieces |
| Text.Title | knowledge_loader.py:148 | `title()` keeps the length and every character up to case; characters that are no letter stay as they are, and a letter is upper-case exactly when it follows no letter |
| Text.TitleExample | knowledge_loader.py:148 | "jazz theory" becomes "Jazz Theory" |
| Seqs.SortByProperties | midi_analyzer.py:152 | the key sort is ordered by key, is a permutation of the input, keeps its length, and is stable: the elements with any one key keep their input order |
| Seqs.Take | midi_analyzer.py:75 | `s[:n]` is the prefix of length min(n, len(s)) |
| Seqs.MinOf | midi_analyzer.py:61 | `min` is an element that no element undercuts |
| Seqs.MaxOf | midi_analyzer.py:62 | `max` is an element that no element exceeds |
| Seqs.MostCommonFirst | midi_analyzer.py:284-286 | the first entry of `most_common` occurs in the input and no entry is more frequent; every entry seen before its first occurrence is strictly less frequent, so it is the first-seen most frequent entry |
| Seqs.MostCommonRanked | midi_analyzer.py:56-57 | `most_common(n)` lists exactly min(n, number of distinct entries) distinct entries of the input, by non-increasing count and, among equal counts, in order of first occurrence |
| Seqs.FirstIndex | midi_analyzer.py:56 | the position of the first occurrence of an element: it holds the element and no earlier position does |
| Seqs.DistinctInOrder | midi_analyzer.py:56 | a `Counter` lists its keys in order of first occurrence |
| Seqs.SortBySortedIdentity | app.py:174 | `sorted` leaves an already sorted sequence as it is |
| Seqs.SortByTies | midi_analyzer.py:57 | the stable sort keeps elements of equal key in their earlier order |
| Seqs.RankedMembers | midi_analyzer.py:56-57 | the full ranking of a `Counter` lists every element of the input exactly once |
| Seqs.RankedOrder | midi_analyzer.py:57 | the ranking is by non-increasing count |
| Seqs.RankedTies | midi_analyzer.py:57 | elements of equal count are ranked in order of first occurrence |
| Seqs.Omitted | midi_analyzer.py:57 | an element that `most_common(n)` leaves out is ranked after all its entries |
| Seqs.MostCommonTop | midi_analyzer.py:57 | an element that `most_common(n)` leaves out is no more frequent than its last entry |
| Seqs.MostCommonTopTies | midi_analyzer.py:57 | an element left out with the same count as a listed entry occurs first after it |
| Seqs.MeanBounds | midi_analyzer.py:216-217 | an average lies between every lower and every upper bound of its values |
| Templates.IntervalSet | midi_analyzer.py:242 | `frozenset(intervals)` holds exactly the listed intervals, so repetitions and order do not matter |
| Templates.FirstSubset | midi_analyzer.py:267-269 | the first row, in table order, whose set is contained in the interval set; none exactly when no row is contained |
| Templates.Exact | midi_analyzer.py:263-264 | the row whose set equals the interval set; with distinct keys it is the only such row |
| Templates.Lookup | midi_analyzer.py:262-271 | exact match first; otherwise the first contained row, where no row equals the set; no match exactly when no row is contained |
| Grouping.ScanStart | midi_analyzer.py:171-173 | before the loop: no chords yet, and the first note opens the group |
| Grouping.ScanJoin | midi_analyzer.py:176-178 | a note within the window of the group's first start joins the group, and the loop state stays on track for the clustering |
| Grouping.ScanClose | midi_analyzer.py:179-185 | any other note closes the group, which is kept when it has two or more notes, and opens the next |
| Grouping.ScanFinish | midi_analyzer.py:187-189 | after the last note, keeping the open group when it has two or more notes completes the clustering |
| Grouping.GroupsFromProperties | midi_analyzer.py:175-185 | from an open group, the groups concatenate to the open group and the rest; each lies in the window of its first note; each later group starts beyond the window of the previous group's first note |
| Grouping.GroupsFromCover | midi_analyzer.py:175-185 | the groups put back together are the open group followed by the remaining notes, and the first group extends the open one |
| Grouping.GroupsFromWindows | midi_analyzer.py:176-185 | every group lies in the window of its first note, and consecutive groups start more than a window apart |
| Grouping.GroupsProperties | midi_analyzer.py:157-189 | the groups are consecutive non-empty runs that together give the input, none for an empty input, each within the window, consecutive ones more than a window apart |
| Grouping.PolyphonicProperties | midi_analyzer.py:181-182 | the kept groups are exactly the groups of two or more notes |
| Grouping.ClustersProperties | midi_analyzer.py:168-191 | no chords for no notes; every chord is one of the groups, has two or more notes and lies in the window; every group of two or more notes is a chord |
| Grouping.IntegralKeysGroupByEqualKey | midi_analyzer.py:46 | with whole-number sorted starts and a window below 1, every group is a run of one start value, and consecutive groups have different starts |
| Grouping.GroupsFromEqualKeys | midi_analyzer.py:176 | the same from an open group of equal starts: each group holds notes of one start only |
| Grouping.PolyphonicAppend | midi_analyzer.py:181-189 | filtering the groups of two or more notes commutes with concatenation |
| MidiAnalyzer.StepConsistent | midi_analyzer.py:128-149 | one message keeps every note's duration equal to end minus start, its name that of its pitch, its velocity positive; it emits at most one note, after the earlier ones |
| MidiAnalyzer.StepOrdered | midi_analyzer.py:126-149 | a message at a later time keeps every pending start at or before the clock and every note ending no earlier than it starts |
| MidiAnalyzer.RunTrackConsistent | midi_analyzer.py:125-149 | a whole track keeps those note facts and only appends notes |
| MidiAnalyzer.RunTrackOrdered | midi_analyzer.py:123-149 | within one track the clock never goes back, so from a state with pending starts at or before zero every note ends no earlier than it starts |
| MidiAnalyzer.StepCounts | midi_analyzer.py:128-149 | only a note start adds a pending entry, only a note end emits a note, and each message does at most one of these |
| MidiAnalyzer.RunTrackCounts | midi_analyzer.py:125-149 | a track emits at most as many notes as it has note ends, and notes plus pending entries grow by at most its note starts |
| MidiAnalyzer.RunTracksFacts | midi_analyzer.py:118-149 | over all tracks with the shared dictionary: the note facts hold, and there are at most as many notes as note starts and as note ends |
| MidiAnalyzer.RunTracksPerTrackFacts | midi_analyzer.py:122-149 | with a dictionary per track, moreover every note ends no earlier than it starts |
| MidiAnalyzer.SingleTrackOrdered | midi_analyzer.py:122-149 | a single-track file pairs correctly even with the shared dictionary: every note ends no earlier than it starts |
| MidiAnalyzer.ReduceTrack | midi_analyzer.py:123-149 | the inner loop over one track ends in the reduction of that track from the given dictionary and notes |
| MidiAnalyzer.SortedNotes | midi_analyzer.py:152 | the sort by start is ordered, a permutation of the notes, and holds only input notes |
| MidiAnalyzer.ExtractNotes | midi_analyzer.py:116-154 | as written: the stable sort by start of what the shared-dictionary reduction emits. Every note is named after its pitch, has positive velocity and duration end minus start. There are at most as many notes as starts and as ends. Notes end no earlier than they start when the file has one track |
| MidiAnalyzer.ExtractNotesPerTrack | midi_analyzer.py:116-154 | corrected: the same with a dictionary per track, and every note ends no earlier than it starts |
| MidiAnalyzer.StartOverwrites | midi_analyzer.py:128-134 | a note start emits nothing and replaces any pending entry for its note with its own time, velocity and channel |
| MidiAnalyzer.UnmatchedEndIgnored | midi_analyzer.py:136-138 | a note end (note-off, or note-on with velocity 0) with no pending entry changes nothing |
| MidiAnalyzer.OverwriteExample | midi_analyzer.py:128-149 | two note-ons for one pitch before its note-off give one note, started at the second note-on: the first start is lost |
| MidiAnalyzer.DanglingDropped | midi_analyzer.py:120-154 | a note-on that is never released stays pending and produces no note |
| MidiAnalyzer.CrossTrackPairing | midi_analyzer.py:120-149 | with the shared dictionary a note-on at tick 1000 of one track pairs with a note-off at tick 10 of the next: a note ending before it starts, duration -990. With a dictionary per track there is no note |
| MidiAnalyzer.DetectChords | midi_analyzer.py:157-191 | the loop computes exactly the clustering of the notes (proved about `Grouping.Clusters`) |
| MidiAnalyzer.ChordsShareStartTick | midi_analyzer.py:46 | for start-sorted notes and the 0.05 window, every group is non-empty, shares one start tick, and starts at a later tick than the group before |
| MidiAnalyzer.ChordsAreGroups | midi_analyzer.py:181-189 | every chord reported with the 0.05 window is one of those groups and has two or more notes |
| MidiAnalyzer.ChordTypesDistinct | midi_analyzer.py:245-260 | the fourteen interval sets of the table are pairwise different, as dictionary keys are |
| MidiAnalyzer.FirstRowsDistinct | midi_analyzer.py:246-250 | the rows 0 to 4 differ pairwise |
| MidiAnalyzer.MiddleRowsDistinct | midi_analyzer.py:246-254 | each of the rows 5 to 8 differs from every earlier row |
| MidiAnalyzer.LastRowsDistinct | midi_analyzer.py:246-259 | each of the rows 9 to 13 differs from every earlier row |
| MidiAnalyzer.ExactRule | midi_analyzer.py:262-264 | a set equal to a template gets that template's name |
| MidiAnalyzer.ExtendedRule | midi_analyzer.py:266-269 | otherwise the first template in table order contained in the set gives its name with " (extended)" |
| MidiAnalyzer.UnknownRule | midi_analyzer.py:271 | a set that contains no template is "Unknown" |
| MidiAnalyzer.IdentifyChordTypeExamples | midi_analyzer.py:235-240 | the documented examples are named as documented, and repeated intervals do not matter |
| MidiAnalyzer.UnknownExample | midi_analyzer.py:271 | a semitone cluster {0, 1} is "Unknown" |
| MidiAnalyzer.NinthsUnreachable | midi_analyzer.py:255-257 | intervals reduced modulo 12 never match the three ninth templates, neither exactly nor as a subset |
| MidiAnalyzer.MajorExtended | midi_analyzer.py:266-269 | any set containing the major triad that is not itself a template is "Major (extended)", since Major is listed first |
| MidiAnalyzer.ChordPitches | midi_analyzer.py:202 | the chord's pitches ascend, are a permutation of the notes' pitches, and the first is the lowest |
| MidiAnalyzer.ChordStartBounds | midi_analyzer.py:216 | the average start lies between the earliest and the latest start |
| MidiAnalyzer.AnalyzeChordProperties | midi_analyzer.py:194-228 | the root is the lowest pitch's name and every name is its pitch's. The intervals start at 0 and lie in 0..11, and the type is named from them. The count is the number of notes, and the average start lies within the starts |
| MidiAnalyzer.TonicGuess | midi_analyzer.py:281-287 | nothing exactly for no names; otherwise the first-seen most frequent name followed by " (vermutlich)": no name is more frequent, and every name before its first occurrence is strictly less frequent |
| MidiAnalyzer.OctaveSuffix | midi_analyzer.py:280 | the length of the longest trailing run of digits and minus signs |
| MidiAnalyzer.OctaveSuffixAppend | midi_analyzer.py:280 | after a name that does not end in an octave character, the octave run is exactly the appended octave |
| MidiAnalyzer.OctaveChars | midi_analyzer.py:16 | the rendered octave consists of digits and minus signs only |
| MidiAnalyzer.StripOctaveOfName | midi_analyzer.py:280 | removing the whole octave from a rendered name leaves its pitch-class name |
| MidiAnalyzer.DetectScaleOfPitches | midi_analyzer.py:274-289 | on the names of real pitches the corrected guess counts pitch classes: it names a most frequent pitch class |
| MidiAnalyzer.TonicOfOne | midi_analyzer.py:284-287 | a single name is its own guess |
| MidiAnalyzer.LowOctaveTonicAsWritten | midi_analyzer.py:280 | as written, a note of octave -1 ("C-1") keeps its minus sign: the guess is "C- (vermutlich)" |
| MidiAnalyzer.LowOctaveTonicIsNoName | midi_analyzer.py:280 | that tonic ("C-" and the like) is no pitch-class name |
| MidiAnalyzer.SingleNoteTonic | midi_analyzer.py:274-289 | with the whole octave removed, a single note of any octave is guessed as its pitch class |
| MidiAnalyzer.AnalyzeDynamics | midi_analyzer.py:316-329 | `{"range": 0}` exactly for no notes. Otherwise the minimum and maximum are velocities of the notes bounding all of them, and the range is their non-negative difference |
| MidiAnalyzer.NearestIndex | midi_analyzer.py:354 | `min` by distance gives a pitch no farther than any other, and the first of the nearest ones |
| MidiAnalyzer.MovementsLand | midi_analyzer.py:352-356 | one movement per voice; each voice lands on a pitch of the next chord, and stays put exactly when its pitch is in the next chord |
| MidiAnalyzer.SmoothIff | midi_analyzer.py:363 | all movements are at most two semitones exactly when every voice has a pitch of the next chord within two semitones |
| MidiAnalyzer.SmoothNearby | midi_analyzer.py:363 | smooth movements put a pitch of the next chord within two semitones of every voice |
| MidiAnalyzer.RoughFar | midi_analyzer.py:363 | a movement over two semitones means that voice has no pitch of the next chord within two semitones |
| MidiAnalyzer.NearestIsClosest | midi_analyzer.py:354 | the chosen pitch is at least as close as every pitch of the next chord |
| MidiAnalyzer.TransitionLands | midi_analyzer.py:351-362 | an entry has one movement per voice of the first chord, and each lands on a pitch of the second |
| MidiAnalyzer.TransitionMovements | midi_analyzer.py:351-362 | the movements of an entry are the nearest-pitch moves of the first chord's voices into the second |
| MidiAnalyzer.TransitionStays | midi_analyzer.py:347-362 | a voice's movement is zero exactly when its pitch is a common tone |
| MidiAnalyzer.TransitionSmooth | midi_analyzer.py:363 | an entry is smooth exactly when every voice has a pitch of the next chord within two semitones |
| MidiAnalyzer.RepeatedChordIsSmooth | midi_analyzer.py:347-363 | repeating the same pitches moves no voice, is smooth, and counts every distinct pitch as common |
| MidiAnalyzer.VoiceMovements | midi_analyzer.py:352-356 | the inner loop computes each voice's move to its first nearest pitch of the next chord |
| MidiAnalyzer.AnalyzeVoiceLeading | midi_analyzer.py:332-366 | no entries for fewer than two chords; otherwise one per consecutive pair, each the transition between them |
| MidiAnalyzer.ChordsOf | midi_analyzer.py:46 | the chords reported with the 0.05 window are the clustering of the notes and are never empty |
| MidiAnalyzer.AnalyzeChords | midi_analyzer.py:49-52 | the loop analyses every chord, in order |
| MidiAnalyzer.AnalyzeNotes | midi_analyzer.py:36-92 | as written, the assembly from the notes on is the analysis summary: nothing for no notes, otherwise the count, the first 100 notes, the range, the five most common names, the guess with only the last character of each name dropped, the end of the last note, the chords and the dynamics |
| MidiAnalyzer.AnalyzeMidiFile | midi_analyzer.py:18-92 | as written, the analysis of a file is the summary of the notes that the shared-dictionary reduction extracts, with the given tempo |
| MidiAnalyzer.AnalyzeMidiFileCorrected | midi_analyzer.py:18-92 | corrected: the analysis with a pending-note dictionary per track and the whole octave removed before the key guess |
| MidiAnalyzer.CrossTrackAnalysis | midi_analyzer.py:34-43 | as written, a note-on in one track and a note-off in another make the analysis report one note that ends before it starts; the corrected analysis finds no notes |
| MidiAnalyzer.CorrectedNotesFacts | midi_analyzer.py:34-43 | the per-track notes are sorted by start, named after their pitches and never end before they start; there are none exactly when no note was paired |
| MidiAnalyzer.SingleTrackNotes | midi_analyzer.py:116-154 | for a file of one track the shared dictionary does no harm: every extracted note ends no earlier than it starts |
| MidiAnalyzer.ExtractedNotesFacts | midi_analyzer.py:34-43 | the notes the analysis works on (shared dictionary) are sorted by start; each is named after its pitch, has positive velocity and duration end minus start; there are none exactly when no note was paired |
| MidiAnalyzer.SummaryShape | midi_analyzer.py:36-89 | the error answer exactly for no notes. Otherwise: the count of the notes and at most the first 100 of them; the duration is the end of the last-starting note. The tempo, dynamics and first twenty chords are as given |
| MidiAnalyzer.SummaryPitchRange | midi_analyzer.py:60-81 | the range is the lowest and the highest pitch of the notes, with their names |
| MidiAnalyzer.SummaryMostCommon | midi_analyzer.py:55-57 | exactly min(5, number of distinct names) distinct note names of the notes, at least one, by non-increasing frequency; every name left out is no more frequent than the last one listed |
| MidiAnalyzer.SummaryNames | midi_analyzer.py:55-57 | the notes listed as most common are `most_common(5)` of the note names |
| MidiAnalyzer.TopFive | midi_analyzer.py:57 | `most_common(5)` of a non-empty list has min(5, distinct) distinct entries of it by non-increasing count, and leaves out nothing more frequent than its last entry |
| MidiAnalyzer.SummaryScale | midi_analyzer.py:65 | the detected scale of the as-written summary is never missing; for notes named after pitches 12 to 131 (one-digit octaves) dropping the last character leaves the pitch class, and the guess is the pitch-class guess |
| MidiAnalyzer.DropLastDigitOfName | midi_analyzer.py:280 | for pitches 12 to 131 dropping the last character of the name leaves exactly the pitch-class name |
| MidiAnalyzer.LowNoteSummary | midi_analyzer.py:65 | as written, the analysis of a single note of octave -1 reports the tonic with a stray "-" |
| MidiAnalyzer.CorrectedSummaryScale | midi_analyzer.py:274-289 | the corrected analysis differs from the as-written one only in the key guess, which is the pitch-class guess and never missing |
| MidiAnalyzer.ReportedChordsProperties | midi_analyzer.py:86 | at most twenty chords are reported, each the analysis of the matching chord group of two or more notes |
| App.DetectSimultaneousNotes | app.py:118-155 | the chords are the clustering of the start-sorted copy; the caller's list is a value and stays as it was |
| App.GroupSorted | app.py:135-155 | the loop over the sorted copy computes exactly its clustering |
| App.SimultaneousNotesProperties | app.py:118-155 | the copy is sorted by start and a permutation of the input, and the groups (singletons included) give the sorted copy. No chords for no notes; every chord has two or more notes within the window of its first |
| App.SeventhContainsTriad | app.py:207-211 | every seventh template contains a triad listed before it |
| App.NinthContainsFourteen | app.py:212-214 | every ninth template contains 14 |
| App.FirstSubsetIsTriad | app.py:217-220 | for intervals in 0..11 the first contained template is one of the four triads |
| App.OnlyTriadNames | app.py:188-222 | so the result is always "Major", "Minor", "Diminished", "Augmented" or "Unknown" |
| App.MajorSeventhAsWritten | app.py:195 | the documented major seventh [0, 4, 7, 11] is named "Major" |
| App.AppChordTypesDistinct | app.py:202-215 | the twelve interval sets are pairwise different |
| App.AppFirstRowsDistinct | app.py:203-207 | the rows 0 to 4 differ pairwise |
| App.AppMiddleRowsDistinct | app.py:203-211 | each of the rows 5 to 8 differs from every earlier row |
| App.AppLastRowsDistinct | app.py:203-214 | each of the rows 9 to 11 differs from every earlier row |
| App.CorrectedExact | app.py:192-197 | with an exact-match stage every template is recognised by its own interval set |
| App.CorrectedAgreesOtherwise | app.py:217-222 | where no template equals the set, the corrected classifier answers as the original |
| App.DocumentedExamples | app.py:192-197 | the corrected classifier names all five documented examples as documented |
| App.AnalyzeChordPitches | app.py:169-185 | the pitches ascend, are the chord's pitches rearranged with the lowest first, and the count is their number |
| App.AnalyzeChordNames | app.py:170-184 | the root is the lowest pitch's name and every name is its pitch's; the intervals start at 0 and lie in 0..11; the type is the as-written first-subset classification of the intervals |
| App.AsWrittenChordTypes | app.py:174-177 | every chord app.py analyses is named with a triad or "Unknown" only |
| App.CorrectedReport | app.py:217-222 | when a chord's interval set equals a template's, the corrected analysis is the as-written one with that template's name |
| App.MajorSeventhIntervals | app.py:170-177 | a chord of C4, E4, G4 and B4 gives the intervals [0, 4, 7, 11] |
| App.MajorSeventhChord | app.py:170-222 | as written, the analysis names that chord "Major"; the corrected analysis names it "Major 7" |
| KnowledgeLoader.Chunks | knowledge_loader.py:121-140 | the splitter always has an open section |
| KnowledgeLoader.Kept | knowledge_loader.py:130-131 | the sections kept have content and come from the input |
| KnowledgeLoader.Basename | knowledge_loader.py:247 | the base name is the part of the path after its last '/': a suffix of the path with no '/' in it, preceded by a '/' unless it is the whole path |
| KnowledgeLoader.KeptStep | knowledge_loader.py:130-131 | closing a section keeps it exactly when its stripped content is non-empty |
| KnowledgeLoader.HeaderStep | knowledge_loader.py:128-137 | a header closes the open section, keeping it if it has content, and opens one titled by the header |
| KnowledgeLoader.BodyStep | knowledge_loader.py:138-140 | any other line is appended to the open section followed by a newline |
| KnowledgeLoader.ScanLines | knowledge_loader.py:121-140 | the line loop ends with the sections closed so far that have content and the open section |
| KnowledgeLoader.SplitByHeaders | knowledge_loader.py:110-154 | the method returns exactly the sections the splitter specifies |
| KnowledgeLoader.HeaderIff | knowledge_loader.py:128 | a line counts as a header exactly when it starts with "## " |
| KnowledgeLoader.ChunksCount | knowledge_loader.py:121-140 | there is one section before the first header and one per header |
| KnowledgeLoader.ChunksTitles | knowledge_loader.py:122-137 | the sections are titled "Introduction" and then by their headers, "##" removed and stripped, in order |
| KnowledgeLoader.ChunksContents | knowledge_loader.py:126-140 | the contents put together are exactly the non-header lines, in order, each with its newline: no header line lands in any section |
| KnowledgeLoader.SplitSpecProperties | knowledge_loader.py:142-154 | the result is never empty; every section has content unless the result is the single fallback holding the whole file |
| KnowledgeLoader.KeptEmpty | knowledge_loader.py:146-147 | the fallback is taken exactly when no section has content |
| KnowledgeLoader.NoHeaders | knowledge_loader.py:122-140 | a file without header lines is one section titled "Introduction" |
| KnowledgeLoader.NoHeaderLines | knowledge_loader.py:128 | no header lines means no headers found |
| KnowledgeLoader.QueriesProperties | knowledge_loader.py:207-228 | one to three searches. Bebop/fast gives the bebop search; otherwise ballad/slow gives the ballad search; otherwise modal gives the modal search; none exactly when no keyword occurs. A rhythm search fires exactly above 7 or below 4. The progression search always comes last |
| KnowledgeLoader.DedupProperties | knowledge_loader.py:234-241 | the parts kept have pairwise different keys, are input parts, and cover every input key |
| KnowledgeLoader.DedupPrefix | knowledge_loader.py:237-241 | later parts never displace earlier ones, so the first occurrence of a key is the one kept, and order is preserved |
| KnowledgeLoader.DedupIdempotent | knowledge_loader.py:234-241 | de-duplicating twice changes nothing |
| KnowledgeLoader.DistinctKeysFixed | knowledge_loader.py:237-241 | parts with distinct keys are all kept, in order |
| KnowledgeLoader.KeysAppend | knowledge_loader.py:238-240 | adding a part adds its key to the seen set |
| KnowledgeLoader.KeyCollision | knowledge_loader.py:238 | source "a" with title "bc" and source "ab" with title "c" share a key, so the second hit is dropped |
| KnowledgeLoader.Truncate | knowledge_loader.py:249 | content of at most 500 characters is kept; longer content becomes its first 500 characters and "..." |
| KnowledgeLoader.DedupParts | knowledge_loader.py:235-241 | the loop with the seen set computes the de-duplication |
| KnowledgeLoader.FormatAllStep | knowledge_loader.py:245-250 | formatting one more part appends its block |
| KnowledgeLoader.AppendPart | knowledge_loader.py:246-250 | one pass appends the title line, the source line and the truncated content |
| KnowledgeLoader.FormatStep | knowledge_loader.py:245-250 | the loop invariant advances by one part |
| KnowledgeLoader.FormatParts | knowledge_loader.py:245-250 | the loop appends the blocks of the parts, in order |
| KnowledgeLoader.GatherParts | knowledge_loader.py:205-228 | the searches issued are the chosen queries, results concatenated in order |
| KnowledgeLoader.GetContextForAnalysis | knowledge_loader.py:190-254 | the context is the one specified for the gathered results |
| KnowledgeLoader.GatherQueries | knowledge_loader.py:207-228 | the gathered results are the category results, then the rhythm results, then the progression results |
| KnowledgeLoader.GatherAppend | knowledge_loader.py:210-228 | gathering over two lists of queries is the concatenation of the two gatherings |
| KnowledgeLoader.ContextShape | knowledge_loader.py:231-254 | no parts give ""; otherwise the context starts with the banner, ends with the end marker, and formats min(n, 3) parts, where n ≥ 1 is the number of distinct hits |
| JazzFeedback.Clip | main.py:124 | `np.clip` lies within the bounds, keeps values inside and moves values outside to the nearer bound |
| JazzFeedback.TempoStability | main.py:115-124 | 0.5 for fewer than three beats, otherwise in [0, 1]; it is 1 minus the ratio for a ratio in [0, 1] and 0 beyond (main_OLD_backup.py:323-328 is the same) |
| JazzFeedback.RhythmComplexity | main.py:140-151 | 1.0 for fewer than three onsets, otherwise in [0, 10]: 5 times the ratio up to 2, and 10 beyond (main_OLD_backup.py:341-346 is the same) |
| JazzFeedback.SimilarArtists | main.py:237-255 | always exactly two names |
| JazzFeedback.AnalyzeJazzPatterns | main.py:176-221 | the analysis always names two similar artists |
| JazzFeedback.TempoCategoryIntervals | main.py:185-196 | "Ballad" exactly on [60, 100), "Medium Swing" on [100, 140), "Up-Tempo/Bebop" on [140, 200), "Very Fast" everywhere else, below 60 included |
| JazzFeedback.ReferenceFollowsCategory | main.py:185-196 | two tempos get the same reference exactly when they get the same category |
| JazzFeedback.AssessmentIntervals | main.py:199-234 | the rhythm assessment splits at 3 and 6, the density assessment at 2 and 4, the swing feel at 3 and 6, each exactly one of its three strings |
| JazzFeedback.SwingMatchesRhythm | main.py:199-234 | the swing feel and the rhythm assessment determine each other |
| JazzFeedback.SimilarArtistsRules | main.py:246-253 | each pair is chosen exactly when its rule holds and no earlier rule does |
| JazzFeedback.ArtistsAgreeWithCategories | main.py:185-253 | Parker comes only with the bebop category and Coltrane only with dense lines. Evans comes only with sparse phrasing, in a ballad or a "Very Fast" tempo |
| JazzFeedback.SlowTempoIsVeryFast | main.py:194-196 | 50 BPM is classed "Very Fast" with the Giant Steps reference, and with sparse phrasing compared with Evans and Jarrett |
| JazzFeedback.RhythmScore | main.py:320 | five times the stability plus 5 for a complexity in [3, 6], else plus 3; it lies in [3, 10] for a stability in [0, 1] |
| JazzFeedback.MelodyScore | main.py:347 | 6.5 exactly for a density in [2, 4], otherwise 5.5 |
| JazzFeedback.ArticulationScore | main.py:324 | twice the dynamic range, capped at 10, and non-negative for a non-negative range |
| JazzFeedback.MelodyAtFour | main.py:207-212 | a density of 4 scores as balanced melody while it is assessed as dense |
| JazzFeedback.RuleBasedFeedbackProperties | main.py:310-363 | three tips per category; harmony 7.0; melody 6.5 or 5.5 as the density says; articulation at most 10; rhythm in [3, 10] for a stability in [0, 1] |
| JazzFeedback.TipsNameArtists | main.py:331-353 | the second rhythm tip names the first artist, the last melody tip names both, and the last rhythm tip names the swing feel |
| JazzFeedback.JoinTwo | main.py:352 | joining two names with ", " puts them in order around the comma |
| JazzFeedback.OverallBetween | main.py:396-401 | the mean of four scores lies within any bounds they all share |
| JazzFeedback.OverallScoreBounds | main.py:385-401 | for a stability in [0, 1] and a non-negative dynamic range the overall score lies in [3.875, 8.375] |
| JazzFeedback.MeasuredScoreBounds | main.py:115-151 | measured stabilities always lie in [0, 1], so the bounds hold for every non-negative dynamic range |
| JazzFeedbackBackup.SwingFeel | main_OLD_backup.py:396 | "Classic Swing Feel" exactly for a complexity in [3, 6), otherwise "Complex Swing" |
| JazzFeedbackBackup.AnalyzeJazzPatterns | main_OLD_backup.py:349-398 | the analysis always names two similar artists |
| JazzFeedbackBackup.AgreesWithLaterVersion | main_OLD_backup.py:349-398 | both versions agree on category, reference, assessments and artists. Their classic swing feel covers the same interval. Below 3 this version says "Complex Swing" where the later one says straight eighths |
| JazzFeedbackBackup.SwingMatchesRhythm | main_OLD_backup.py:367-396 | the swing feel is "Classic" exactly when the rhythm is assessed as moderately complex |
| JazzFeedbackBackup.RuleBasedAgreesWithLaterVersion | main_OLD_backup.py:494-544 | three tips per category and the later version's four scores, hence its overall score |
| JazzFeedbackBackup.Slice | main_OLD_backup.py:483 | `s[lo:hi]` is the slice when the bounds are in order, empty when they are not, and never longer than the text |
| JazzFeedbackBackup.JsonSliceFallbacks | main_OLD_backup.py:479-485 | without a "{" the cleaned reply is parsed as it is. With a "{" but no "}" after it the candidate is empty. The candidate is never longer than the cleaned reply |
| JazzFeedbackBackup.SliceBetweenBraces | main_OLD_backup.py:483 | a slice from a "{" through a later "}" starts with "{" and ends with "}" |
| JazzFeedbackBackup.JsonSliceObject | main_OLD_backup.py:480-483 | when the last "}" comes after the first "{", the candidate runs from the first "{" through the last "}", so it starts with "{" and ends with "}" |
| JazzFeedbackBackup.JsonSliceBetween | main_OLD_backup.py:481-483 | in that case the candidate is the slice between the two indices found |
| JazzFeedbackBackup.JsonSliceWidest | main_OLD_backup.py:481-482 | no "{" comes before the slice and no "}" after it |
| JazzFeedbackBackup.ApertusFeedback | main_OLD_backup.py:476-491 | no reply gives no feedback. Otherwise the parser gets the cleaned reply when it holds no "{", the cleaned reply from its first "{" through its last "}" when a "}" follows the first "{", and the empty text when none does |
| JazzFeedbackBackup.CandidateCases | main_OLD_backup.py:477-485 | the text handed to the parser in each of those three cases of the cleaned reply |
| JazzFeedbackBackup.ProcessAudioScore | main_OLD_backup.py:559-580 | model feedback is used when there is any. Otherwise the overall score is the later version's, in [3.875, 8.375] for a stability in [0, 1] and a non-negative dynamic range |

## Findings

| source | as written | input that shows it | evidently intended | confidence | as-written member | corrected member |
|---|---|---|---|---|---|---|
| midi_analyzer.py:120-149 | one pending-note dictionary shared by all tracks, while each track's clock restarts at zero | a note-on for 60 at tick 1000 in the first track and a note-off for 60 at tick 10 in the second give a note from 1000 to 10, duration -990 | a note-off pairs only with a note-on of its own track, so every note ends no earlier than it starts | medium, not executed | MidiAnalyzer.CrossTrackPairing | MidiAnalyzer.ExtractNotesPerTrack |
| app.py:217-222 | the first template contained in the interval set wins, with no exact-match stage | [0, 4, 7, 11], documented as a major seventh, is named "Major"; no seventh or ninth name is ever returned | a set equal to a template gets that template's name, as the documented examples say | high, not executed | App.MajorSeventhAsWritten | App.DocumentedExamples |
| midi_analyzer.py:280 | only the last character of a note name is removed as the octave | "C-1" (MIDI 0 to 11) counts as "C-", so a low note gives the tonic "C- (vermutlich)" | the whole octave number, sign included, is removed | high, not executed | MidiAnalyzer.LowOctaveTonicAsWritten | MidiAnalyzer.SingleNoteTonic |

Where each finding is modelled:

- **Track pairing.** The as-written reduction is
  `MidiAnalyzer.ExtractNotes` (`RunTracks`), which `AnalyzeMidiFile` uses
  (`CrossTrackAnalysis`). The corrected one is `ExtractNotesPerTrack`
  (`RunTracksPerTrack`, `RunTracksPerTrackFacts`), which
  `AnalyzeMidiFileCorrected` uses.
- **Chord names in app.py.** The as-written classifier is `App.IdentifyChordType`
  (`OnlyTriadNames`). The corrected one is `IdentifyChordTypeCorrected`
  (`CorrectedExact`, `CorrectedAgreesOtherwise`). `App.AnalyzeChord` uses the
  as-written one and `App.AnalyzeChordCorrected` the corrected one
  (`MajorSeventhChord`).
- **Key guess.** The as-written guess is `MidiAnalyzer.DetectScaleAsWritten`. The
  corrected one is `DetectScale` (`DetectScaleOfPitches`). The analysis summary
  uses the as-written one (`LowNoteSummary`), and `CorrectedSummary` the
  corrected one (`CorrectedSummaryScale`).

## Left out

- Reading MIDI files and `extract_tempo` are left out: the mido library decodes
  them. Tracks come in as sequences of (kind, note, velocity, channel, delta
  time) messages, and the tempo is a parameter of `MidiAnalyzer.AnalyzeMidiFile`.
- `analyze_timing`, and the mean and standard deviation in `analyze_dynamics`,
  are left out: they are numpy floating-point statistics. `MidiAnalyzer.Dynamics`
  holds the minimum, the maximum and the range only.
- The ratios behind the tempo stability and the rhythm complexity are parameters:
  they are standard deviations over means, computed with numpy. Only the branch
  and the clipping are modelled.
- The audio feature extraction, the pitch tracking, the Basic Pitch inference
  and the Streamlit page are left out: they are librosa, machine-learning and UI
  code. The features enter as the reals of `JazzFeedback.Features`, and app.py's
  detected notes as `App.AppNote` values.
- The embedding model, the vector store behind `search`, and reading the
  knowledge files are left out: they are library I/O. The search is a function
  parameter of `KnowledgeLoader.GetContextForAnalysis`.
- The language-model clients, the prompts and `json.loads` are left out: they are
  network calls or string formatting. The reply is an `Option` parameter, and the
  parse, together with the checks made on its result, is a function parameter of
  `JazzFeedbackBackup.ApertusFeedback`. A failed call is a missing reply.
- The web endpoints, background tasks, event loops, temporary files, the shared
  results dictionary and the HTML page are left out: they are I/O and
  concurrency.
- The feedback sentences are left out: they format floats and percentages. The
  tempo inside the first rhythm tip, printed without decimals, is the parameter
  `tempoText`.
- JazzFeedback.OverallScore: means the unrounded category scores. The source
  rounds the rhythm and articulation scores, and then the overall score, to one
  decimal, and this model has no decimal rounding.
- JazzFeedbackBackup.ApertusFeedback: the source's `if not feedback` also falls
  back for an empty parsed object, which the parse parameter stands for by
  answering `None`.
- MidiAnalyzer.AnalyzeChord: requires a non-empty chord, and
  `App.AnalyzeChord` likewise. The source raises an `IndexError` on an empty
  one, and the detectors never produce one.
- MidiAnalyzer.AnalyzeVoiceLeading: requires that no non-empty chord is followed
  by an empty one. The source raises a `ValueError` from `min` there, and
  analysed chords are never empty.
- JazzFeedback.RuleBasedFeedback: requires at least one similar artist, and so
  does the backup version. The source raises an `IndexError` otherwise, and the
  artist choice always gives two.
- Exceptions are not modelled. The error dictionaries that `analyze_midi_file`
  returns from its `except` branch and the re-raised errors in app.py are left
  out; the "No notes found" answer is modelled as `MidiAnalyzer.NoNotes`.
- Text handling is ASCII only:
  - `Text.Lower` and `Text.Title` change ASCII letters only;
  - `Text.IsSpace` lists the characters Python's `isspace` accepts;
  - there is no Unicode normalisation.
- MidiAnalyzer.AnalyzeChord: the average start time and velocity are exact
  real means; Python's float division and its rounding are not modelled.
- App.GroupSorted, App.DetectSimultaneousNotes, Grouping.Clusters,
  JazzFeedback.RhythmComplexity, JazzFeedback.RhythmScore and the other score
  formulas: float arithmetic is modelled as exact real arithmetic. Decisions
  exactly at a window or threshold boundary can therefore differ from the
  source. For example, app.py computes 1.05 - 1.0 as slightly more than 0.05,
  so two notes starting at 1.0 and 1.05 form no chord there but one chord here.
  The same holds for `5 * ratio` against the bounds 3 and 6, and for the score
  sums.

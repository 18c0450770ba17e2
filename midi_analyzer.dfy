/**
 * The symbolic MIDI analysis of midi_analyzer.py: pairing note-on and note-off
 * messages into notes, clustering notes into chords, naming chords from their
 * intervals, the most-common-note key guess, dynamics, voice leading, and the
 * assembly of the analysis result.
 *
 * A MIDI file is given as its tracks, each a sequence of messages as the MIDI
 * library delivers them: a kind, a note number, a velocity, a channel and a delta
 * time in ticks (non-negative). Times of notes are ticks since the start of their
 * track.
 */
module MidiAnalyzer {
  import opened Wrappers
  import Seqs
  import Pitch
  import Grouping
  import Templates
  import Text

  // ---------------------------------------------------------------------------
  // Messages, pending notes and notes

  datatype MsgKind = NoteOn | NoteOff | OtherMsg

  datatype Message = Message(kind: MsgKind, note: int, velocity: int, channel: int, time: nat)

  type Track = seq<Message>

  /** An entry of the pending-note dictionary `active_notes`. */
  datatype Pending = Pending(start: int, velocity: int, channel: int)

  datatype Note = Note(pitch: int, noteName: string, start: int, end: int, duration: int,
                       velocity: int, channel: int)

  /** The state of the reduction: the pending-note dictionary and the notes emitted so far. */
  datatype Reduction = Reduction(active: map<int, Pending>, notes: seq<Note>)

  const Empty := Reduction(map[], [])

  /** A note starts: a note-on with positive velocity. */
  predicate IsStart(m: Message) {
    m.kind == NoteOn && m.velocity > 0
  }

  /** A note ends: a note-off, or a note-on with velocity zero. */
  predicate IsEnd(m: Message) {
    m.kind == NoteOff || (m.kind == NoteOn && m.velocity == 0)
  }

  /** The note emitted when `pitch`, pending as `p`, ends at time `t`. */
  function MakeNote(pitch: int, p: Pending, t: int): Note {
    Note(pitch, Pitch.NoteName(pitch), p.start, t, t - p.start, p.velocity, p.channel)
  }

  /** One message at track time `t`: a start records (or overwrites) the pending entry
      of its note; an end for a pending note emits that note and removes the entry;
      everything else leaves the state alone. */
  function Step(r: Reduction, m: Message, t: int): Reduction {
    if IsStart(m) then
      Reduction(r.active[m.note := Pending(t, m.velocity, m.channel)], r.notes)
    else if IsEnd(m) && m.note in r.active then
      Reduction(r.active - {m.note}, r.notes + [MakeNote(m.note, r.active[m.note], t)])
    else
      r
  }

  /** The track time after the messages `msgs` (the sum of their delta times). */
  function TrackTime(msgs: Track): nat {
    if msgs == [] then 0 else TrackTime(msgs[..|msgs| - 1]) + msgs[|msgs| - 1].time
  }

  /** The state after feeding one track, whose clock starts at zero, to state `r`. */
  function RunTrack(r: Reduction, msgs: Track): Reduction {
    if msgs == [] then r
    else Step(RunTrack(r, msgs[..|msgs| - 1]), msgs[|msgs| - 1], TrackTime(msgs))
  }

  /** The state after all tracks, with one pending-note dictionary shared by all of them
      (the code as written). */
  function RunTracks(tracks: seq<Track>): Reduction {
    if tracks == [] then Empty
    else RunTrack(RunTracks(tracks[..|tracks| - 1]), tracks[|tracks| - 1])
  }

  /** The state after all tracks when each track starts with an empty pending-note
      dictionary (pairing a note-off only with a note-on of its own track). */
  function RunTracksPerTrack(tracks: seq<Track>): Reduction {
    if tracks == [] then Empty
    else RunTrack(Reduction(map[], RunTracksPerTrack(tracks[..|tracks| - 1]).notes), tracks[|tracks| - 1])
  }

  /** The sort key of `notes.sort(key=lambda x: x['start'])`. */
  function StartKey(n: Note): real {
    n.start as real
  }

  /** Number of note starts in a track, and in all tracks. */
  function Starts(msgs: Track): nat {
    if msgs == [] then 0 else Starts(msgs[..|msgs| - 1]) + (if IsStart(msgs[|msgs| - 1]) then 1 else 0)
  }

  function AllStarts(tracks: seq<Track>): nat {
    if tracks == [] then 0 else AllStarts(tracks[..|tracks| - 1]) + Starts(tracks[|tracks| - 1])
  }

  /** Number of note ends in a track, and in all tracks. */
  function Ends(msgs: Track): nat {
    if msgs == [] then 0 else Ends(msgs[..|msgs| - 1]) + (if IsEnd(msgs[|msgs| - 1]) then 1 else 0)
  }

  function AllEnds(tracks: seq<Track>): nat {
    if tracks == [] then 0 else AllEnds(tracks[..|tracks| - 1]) + Ends(tracks[|tracks| - 1])
  }

  // ---------------------------------------------------------------------------
  // Invariants of the reduction

  /** What every emitted note satisfies whatever the order of the messages: its duration
      is its end minus its start, its name is the name of its pitch, its velocity is
      positive (as is that of every pending entry). */
  ghost predicate Consistent(r: Reduction) {
    && (forall k :: k in r.active ==> r.active[k].velocity > 0)
    && (forall i :: 0 <= i < |r.notes| ==>
          && r.notes[i].duration == r.notes[i].end - r.notes[i].start
          && r.notes[i].noteName == Pitch.NoteName(r.notes[i].pitch)
          && r.notes[i].velocity > 0)
  }

  /** Every pending entry started at or before `t`, and every note ends at or after its start. */
  ghost predicate Ordered(r: Reduction, t: int) {
    && (forall k :: k in r.active ==> r.active[k].start <= t)
    && (forall i :: 0 <= i < |r.notes| ==> r.notes[i].start <= r.notes[i].end)
  }

  lemma StepConsistent(r: Reduction, m: Message, t: int)
    requires Consistent(r)
    ensures Consistent(Step(r, m, t))
    ensures |r.notes| <= |Step(r, m, t).notes| <= |r.notes| + 1
    ensures Step(r, m, t).notes[..|r.notes|] == r.notes
  {
  }

  lemma StepOrdered(r: Reduction, m: Message, t: int, t': int)
    requires Ordered(r, t) && t <= t'
    ensures Ordered(Step(r, m, t'), t')
  {
  }

  /** Feeding a track keeps the notes already emitted as a prefix and keeps `Consistent`. */
  lemma {:induction false} RunTrackConsistent(r: Reduction, msgs: Track)
    requires Consistent(r)
    ensures Consistent(RunTrack(r, msgs))
    ensures |r.notes| <= |RunTrack(r, msgs).notes|
    ensures RunTrack(r, msgs).notes[..|r.notes|] == r.notes
  {
    if msgs != [] {
      var init := msgs[..|msgs| - 1];
      RunTrackConsistent(r, init);
      StepConsistent(RunTrack(r, init), msgs[|msgs| - 1], TrackTime(msgs));
    }
  }

  /** Within one track the clock never goes back, so a state whose pending entries all
      started at time zero or before yields notes that end no earlier than they start. */
  lemma {:induction false} RunTrackOrdered(r: Reduction, msgs: Track)
    requires Ordered(r, 0)
    ensures Ordered(RunTrack(r, msgs), TrackTime(msgs))
  {
    if msgs != [] {
      var init := msgs[..|msgs| - 1];
      RunTrackOrdered(r, init);
      StepOrdered(RunTrack(r, init), msgs[|msgs| - 1], TrackTime(init), TrackTime(msgs));
    }
  }

  /** Each message emits at most one note, only a note end emits one, and only a note
      start adds a pending entry. */
  lemma StepCounts(r: Reduction, m: Message, t: int)
    ensures |Step(r, m, t).notes| + |Step(r, m, t).active| <=
            |r.notes| + |r.active| + (if IsStart(m) then 1 else 0)
    ensures |Step(r, m, t).notes| <= |r.notes| + (if IsEnd(m) then 1 else 0)
  {
    if IsStart(m) {
    } else if IsEnd(m) && m.note in r.active {
      assert (r.active - {m.note}).Keys == r.active.Keys - {m.note};
      assert |r.active.Keys - {m.note}| == |r.active.Keys| - 1;
    }
  }

  lemma {:induction false} RunTrackCounts(r: Reduction, msgs: Track)
    ensures |RunTrack(r, msgs).notes| + |RunTrack(r, msgs).active| <= |r.notes| + |r.active| + Starts(msgs)
    ensures |RunTrack(r, msgs).notes| <= |r.notes| + Ends(msgs)
  {
    if msgs != [] {
      var init := msgs[..|msgs| - 1];
      RunTrackCounts(r, init);
      StepCounts(RunTrack(r, init), msgs[|msgs| - 1], TrackTime(msgs));
    }
  }

  /** With one shared dictionary: every note is `Consistent`, there are at most as many
      notes as note starts and as note ends. */
  lemma {:induction false} RunTracksFacts(tracks: seq<Track>)
    ensures Consistent(RunTracks(tracks))
    ensures |RunTracks(tracks).notes| + |RunTracks(tracks).active| <= AllStarts(tracks)
    ensures |RunTracks(tracks).notes| <= AllEnds(tracks)
  {
    if tracks != [] {
      var init := tracks[..|tracks| - 1];
      RunTracksFacts(init);
      RunTrackConsistent(RunTracks(init), tracks[|tracks| - 1]);
      RunTrackCounts(RunTracks(init), tracks[|tracks| - 1]);
    }
  }

  /** With a dictionary per track: the same facts, and moreover every note ends no earlier
      than it starts. */
  lemma {:induction false} RunTracksPerTrackFacts(tracks: seq<Track>)
    ensures Consistent(RunTracksPerTrack(tracks))
    ensures Ordered(Reduction(map[], RunTracksPerTrack(tracks).notes), 0)
    ensures |RunTracksPerTrack(tracks).notes| <= AllStarts(tracks)
    ensures |RunTracksPerTrack(tracks).notes| <= AllEnds(tracks)
  {
    if tracks != [] {
      var init := tracks[..|tracks| - 1];
      RunTracksPerTrackFacts(init);
      var r := Reduction(map[], RunTracksPerTrack(init).notes);
      RunTrackConsistent(r, tracks[|tracks| - 1]);
      RunTrackCounts(r, tracks[|tracks| - 1]);
      RunTrackOrdered(r, tracks[|tracks| - 1]);
    }
  }

  /** A file of a single track pairs correctly even with the shared dictionary. */
  lemma SingleTrackOrdered(track: Track)
    ensures forall i :: 0 <= i < |RunTracks([track]).notes| ==>
              RunTracks([track]).notes[i].start <= RunTracks([track]).notes[i].end
  {
    assert [track][..0] == [];
    RunTrackOrdered(Empty, track);
  }

  // ---------------------------------------------------------------------------
  // extract_notes

  lemma NextMessage(r: Reduction, track: Track, i: nat)
    requires i < |track|
    ensures TrackTime(track[..i + 1]) == TrackTime(track[..i]) + track[i].time
    ensures RunTrack(r, track[..i + 1]) == Step(RunTrack(r, track[..i]), track[i], TrackTime(track[..i + 1]))
  {
    assert track[..i + 1][..i] == track[..i];
  }

  /** The inner loop of `extract_notes` over one track, starting from the given
      dictionary and note list. */
  method ReduceTrack(active0: map<int, Pending>, notes0: seq<Note>, track: Track)
    returns (active: map<int, Pending>, notes: seq<Note>)
    ensures Reduction(active, notes) == RunTrack(Reduction(active0, notes0), track)
  {
    active, notes := active0, notes0;
    var trackTime := 0;
    var i := 0;
    while i < |track|
      invariant 0 <= i <= |track|
      invariant trackTime == TrackTime(track[..i])
      invariant Reduction(active, notes) == RunTrack(Reduction(active0, notes0), track[..i])
    {
      ghost var before := Reduction(active, notes);
      var msg := track[i];
      trackTime := trackTime + msg.time;
      NextMessage(Reduction(active0, notes0), track, i);
      if msg.kind == NoteOn && msg.velocity > 0 {
        active := active[msg.note := Pending(trackTime, msg.velocity, msg.channel)];
        assert IsStart(msg);
      } else if msg.kind == NoteOff || (msg.kind == NoteOn && msg.velocity == 0) {
        if msg.note in active {
          var data := active[msg.note];
          assert MakeNote(msg.note, data, trackTime) == Note(msg.note, Pitch.NoteName(msg.note), data.start,
            trackTime, trackTime - data.start, data.velocity, data.channel);
          notes := notes + [Note(msg.note, Pitch.NoteName(msg.note), data.start, trackTime,
                                 trackTime - data.start, data.velocity, data.channel)];
          active := active - {msg.note};
        }
      }
      i := i + 1;
    }
    assert track[..i] == track;
  }

  /** Facts about a stable sort of notes by start that hold for every note of the input. */
  lemma SortedNotes(unsorted: seq<Note>)
    ensures var s := Seqs.SortBy(unsorted, StartKey);
      && Seqs.SortedBy(s, StartKey)
      && multiset(s) == multiset(unsorted)
      && |s| == |unsorted|
      && forall i :: 0 <= i < |s| ==> s[i] in unsorted
  {
    var s := Seqs.SortBy(unsorted, StartKey);
    Seqs.SortByProperties(unsorted, StartKey);
    forall i | 0 <= i < |s| ensures s[i] in unsorted {
      assert s[i] in multiset(s);
    }
  }

  /** `extract_notes` as written: one dictionary for all tracks, the track clock restarting
      at zero for every track, then a stable sort by start. */
  method ExtractNotes(tracks: seq<Track>) returns (notes: seq<Note>)
    ensures notes == Seqs.SortBy(RunTracks(tracks).notes, StartKey)
    ensures Seqs.SortedBy(notes, StartKey)
    ensures multiset(notes) == multiset(RunTracks(tracks).notes)
    ensures forall i :: 0 <= i < |notes| ==>
              && notes[i].duration == notes[i].end - notes[i].start
              && notes[i].noteName == Pitch.NoteName(notes[i].pitch)
              && notes[i].velocity > 0
    ensures |notes| <= AllStarts(tracks) && |notes| <= AllEnds(tracks)
    ensures |tracks| == 1 ==> forall i :: 0 <= i < |notes| ==> notes[i].start <= notes[i].end
  {
    var active: map<int, Pending> := map[];
    var collected: seq<Note> := [];
    var t := 0;
    while t < |tracks|
      invariant 0 <= t <= |tracks|
      invariant Reduction(active, collected) == RunTracks(tracks[..t])
    {
      assert tracks[..t + 1][..t] == tracks[..t];
      active, collected := ReduceTrack(active, collected, tracks[t]);
      t := t + 1;
    }
    assert tracks[..t] == tracks;
    notes := Seqs.SortBy(collected, StartKey);
    SortedNotes(collected);
    RunTracksFacts(tracks);
    if |tracks| == 1 {
      assert tracks == [tracks[0]];
      SingleTrackOrdered(tracks[0]);
    }
  }

  /** `extract_notes` with the dictionary emptied at the start of every track: each note
      off is paired only with a note on of its own track, and every note has a
      non-negative duration. */
  method ExtractNotesPerTrack(tracks: seq<Track>) returns (notes: seq<Note>)
    ensures notes == Seqs.SortBy(RunTracksPerTrack(tracks).notes, StartKey)
    ensures Seqs.SortedBy(notes, StartKey)
    ensures multiset(notes) == multiset(RunTracksPerTrack(tracks).notes)
    ensures forall i :: 0 <= i < |notes| ==>
              && notes[i].start <= notes[i].end
              && notes[i].duration == notes[i].end - notes[i].start
              && notes[i].noteName == Pitch.NoteName(notes[i].pitch)
              && notes[i].velocity > 0
    ensures |notes| <= AllStarts(tracks) && |notes| <= AllEnds(tracks)
  {
    var collected: seq<Note> := [];
    var t := 0;
    while t < |tracks|
      invariant 0 <= t <= |tracks|
      invariant collected == RunTracksPerTrack(tracks[..t]).notes
    {
      assert tracks[..t + 1][..t] == tracks[..t];
      var active;
      active, collected := ReduceTrack(map[], collected, tracks[t]);
      t := t + 1;
    }
    assert tracks[..t] == tracks;
    notes := Seqs.SortBy(collected, StartKey);
    SortedNotes(collected);
    RunTracksPerTrackFacts(tracks);
  }

  // ---------------------------------------------------------------------------
  // The pending-entry policy

  /** A note start never emits a note, and records its own time as the pending start,
      replacing any entry for the same note. */
  lemma StartOverwrites(r: Reduction, m: Message, t: int)
    requires IsStart(m)
    ensures Step(r, m, t).notes == r.notes
    ensures m.note in Step(r, m, t).active && Step(r, m, t).active[m.note] == Pending(t, m.velocity, m.channel)
  {
  }

  /** A note end with no pending entry is ignored. */
  lemma UnmatchedEndIgnored(r: Reduction, m: Message, t: int)
    requires IsEnd(m) && m.note !in r.active
    ensures Step(r, m, t) == r
  {
  }

  /** Two note-ons for middle C before its note-off give one note, from the second start. */
  lemma OverwriteExample()
    ensures RunTracks([[Message(NoteOn, 60, 64, 0, 0), Message(NoteOn, 60, 80, 0, 5),
                        Message(NoteOff, 60, 0, 0, 5)]]).notes
            == [Note(60, "C4", 5, 10, 5, 80, 0)]
  {
    var m1, m2, m3 := Message(NoteOn, 60, 64, 0, 0), Message(NoteOn, 60, 80, 0, 5), Message(NoteOff, 60, 0, 0, 5);
    var msgs := [m1, m2, m3];
    var noTracks: seq<Track> := [];
    assert [msgs][..0] == noTracks;
    assert msgs[..2] == [m1, m2] && [m1, m2][..1] == [m1] && [m1][..0] == [];
    assert TrackTime([m1]) == 0 && TrackTime([m1, m2]) == 5 && TrackTime(msgs) == 10;
    assert RunTrack(Empty, []) == Empty;
    var r1 := Step(Empty, m1, 0);
    assert RunTrack(Empty, [m1]) == r1;
    var r2 := Step(r1, m2, 5);
    assert RunTrack(Empty, [m1, m2]) == r2;
    assert r2.active == map[60 := Pending(5, 80, 0)];
    Pitch.NoteNameExamples();
    assert RunTrack(Empty, msgs) == Step(r2, m3, 10);
    assert RunTracks([msgs]) == RunTrack(Empty, msgs);
  }

  /** A note-on that is never released produces no note. */
  lemma DanglingDropped()
    ensures RunTracks([[Message(NoteOn, 60, 64, 0, 0)]]).notes == []
    ensures 60 in RunTracks([[Message(NoteOn, 60, 64, 0, 0)]]).active
  {
    var msgs := [Message(NoteOn, 60, 64, 0, 0)];
    var noTracks: seq<Track> := [];
    assert [msgs][..0] == noTracks;
    assert msgs[..0] == [];
  }

  /** The shared dictionary pairs a note-on of one track with a note-off of the next, whose
      clock restarted: the note ends before it starts. With a dictionary per track the
      two messages produce no note. */
  lemma CrossTrackPairing()
    ensures RunTracks([[Message(NoteOn, 60, 64, 0, 1000)], [Message(NoteOff, 60, 0, 0, 10)]]).notes
            == [Note(60, "C4", 1000, 10, -990, 64, 0)]
    ensures RunTracksPerTrack([[Message(NoteOn, 60, 64, 0, 1000)], [Message(NoteOff, 60, 0, 0, 10)]]).notes
            == []
  {
    var on, off := Message(NoteOn, 60, 64, 0, 1000), Message(NoteOff, 60, 0, 0, 10);
    var tracks := [[on], [off]];
    var noTracks: seq<Track> := [];
    assert tracks[..1] == [[on]] && tracks[..1][..0] == noTracks;
    assert [on][..0] == [] && [off][..0] == [];
    assert TrackTime([on]) == 1000 && TrackTime([off]) == 10;
    assert RunTrack(Empty, []) == Empty;
    assert RunTrack(Empty, [on]) == Step(Empty, on, 1000);
    var first := Step(Empty, on, 1000);
    assert RunTracks(noTracks) == Empty;
    assert RunTracks([[on]]) == first;
    assert RunTracks(tracks[..1]) == first;
    Pitch.NoteNameExamples();
    assert RunTracks(tracks) == RunTrack(first, [off]);
    assert RunTrack(first, [off]) == Step(first, off, 10);
  }

  // ---------------------------------------------------------------------------
  // detect_chords

  /** The window `analyze_midi_file` passes to `detect_chords`. */
  const ChordWindow: real := 0.05

  /** `detect_chords`: the groups of notes within `window` of the group's first start,
      keeping those of two notes or more (what these chords satisfy is proved about
      `Grouping.Clusters`). */
  method DetectChords(notes: seq<Note>, window: real) returns (chords: seq<seq<Note>>)
    ensures chords == Grouping.Clusters(StartKey, window, notes)
  {
    if notes == [] {
      return [];
    }
    chords := [];
    var current := [notes[0]];
    var currentTime := notes[0].start;
    Grouping.ScanStart(StartKey, window, notes);
    var i := 1;
    while i < |notes|
      invariant 1 <= i <= |notes|
      invariant current != [] && currentTime == current[0].start
      invariant Grouping.Scanning(StartKey, window, notes, i, chords, current)
    {
      var note := notes[i];
      assert StartKey(note) - StartKey(current[0]) == (note.start - currentTime) as real;
      if (note.start - currentTime) as real <= window {
        Grouping.ScanJoin(StartKey, window, notes, i, chords, current);
        current := current + [note];
      } else {
        Grouping.ScanClose(StartKey, window, notes, i, chords, current);
        if |current| >= 2 {
          chords := chords + [current];
        }
        current := [note];
        currentTime := note.start;
      }
      i := i + 1;
    }
    Grouping.ScanFinish(StartKey, window, notes, chords, current);
    chords := chords + (if |current| >= 2 then [current] else []);
  }

  /** With tick starts, sorted notes and the 0.05 window, a group is a run of notes sharing
      one start tick, and each group starts at a later tick than the one before. */
  lemma ChordsShareStartTick(notes: seq<Note>)
    requires Seqs.SortedBy(notes, StartKey)
    ensures var gs := Grouping.Groups(StartKey, ChordWindow, notes);
      && (forall i :: 0 <= i < |gs| ==> gs[i] != [])
      && (forall i, j :: 0 <= i < |gs| && 0 <= j < |gs[i]| ==> gs[i][j].start == gs[i][0].start)
      && (forall i :: 0 < i < |gs| ==> gs[i - 1][0].start < gs[i][0].start)
  {
    Grouping.IntegralKeysGroupByEqualKey(StartKey, ChordWindow, notes);
    Grouping.GroupsProperties(StartKey, ChordWindow, notes);
  }

  /** So a chord is one of those groups, of two or more notes: exactly the notes that
      start at one tick, when there are two or more of them. */
  lemma ChordsAreGroups(notes: seq<Note>)
    ensures forall c :: c in Grouping.Clusters(StartKey, ChordWindow, notes) ==>
              c in Grouping.Groups(StartKey, ChordWindow, notes) && |c| >= 2
  {
    Grouping.ClustersProperties(StartKey, ChordWindow, notes);
  }

  // ---------------------------------------------------------------------------
  // identify_chord_type

  /** The `chord_types` table, in its listed order. */
  const ChordTypes: Templates.Table := [
    Templates.Template({0, 4, 7}, "Major"),
    Templates.Template({0, 3, 7}, "Minor"),
    Templates.Template({0, 3, 6}, "Diminished"),
    Templates.Template({0, 4, 8}, "Augmented"),
    Templates.Template({0, 4, 7, 11}, "Major 7"),
    Templates.Template({0, 3, 7, 10}, "Minor 7"),
    Templates.Template({0, 4, 7, 10}, "Dominant 7"),
    Templates.Template({0, 3, 6, 10}, "Half-Diminished 7"),
    Templates.Template({0, 3, 6, 9}, "Diminished 7"),
    Templates.Template({0, 4, 7, 10, 14}, "Dominant 9"),
    Templates.Template({0, 4, 7, 11, 14}, "Major 9"),
    Templates.Template({0, 3, 7, 10, 14}, "Minor 9"),
    Templates.Template({0, 5, 7}, "Sus4"),
    Templates.Template({0, 2, 7}, "Sus2")
  ]

  /** `identify_chord_type`: the name of the template equal to the interval set; otherwise
      the first template contained in it, marked extended; otherwise "Unknown". */
  function IdentifyChordType(intervals: seq<int>): string {
    match Templates.Lookup(ChordTypes, Templates.IntervalSet(intervals))
    case ExactMatch(i) => ChordTypes[i].name
    case SubsetMatch(i) => ChordTypes[i].name + " (extended)"
    case NoMatch => "Unknown"
  }

  lemma ChordTypesDistinct()
    ensures Templates.DistinctKeys(ChordTypes)
  {
    FirstRowsDistinct();
    MiddleRowsDistinct();
    LastRowsDistinct();
  }

  /** Distinctness of the table's keys in three parts: each row differs from every
      earlier row, for the rows 0 to 4, 5 to 8 and 9 to 13. */
  lemma FirstRowsDistinct()
    ensures forall i, j :: 0 <= i < j < 5 ==> ChordTypes[i].intervals != ChordTypes[j].intervals
  {
  }

  lemma MiddleRowsDistinct()
    ensures forall i, j :: 0 <= i < j && 5 <= j < 9 ==> ChordTypes[i].intervals != ChordTypes[j].intervals
  {
  }

  lemma LastRowsDistinct()
    ensures forall i, j :: 0 <= i < j && 9 <= j < 14 ==> ChordTypes[i].intervals != ChordTypes[j].intervals
  {
  }

  /** First rule: a set equal to a template gets that template's name. */
  lemma ExactRule(intervals: seq<int>, i: nat)
    requires i < |ChordTypes| && ChordTypes[i].intervals == Templates.IntervalSet(intervals)
    ensures IdentifyChordType(intervals) == ChordTypes[i].name
  {
    ChordTypesDistinct();
  }

  /** Second rule: otherwise the first template (in table order) contained in the set
      gives the name, marked extended. */
  lemma ExtendedRule(intervals: seq<int>, i: nat)
    requires forall j :: 0 <= j < |ChordTypes| ==> ChordTypes[j].intervals != Templates.IntervalSet(intervals)
    requires i < |ChordTypes| && ChordTypes[i].intervals <= Templates.IntervalSet(intervals)
    requires forall j :: 0 <= j < i ==> !(ChordTypes[j].intervals <= Templates.IntervalSet(intervals))
    ensures IdentifyChordType(intervals) == ChordTypes[i].name + " (extended)"
  {
    var m := Templates.Lookup(ChordTypes, Templates.IntervalSet(intervals));
    assert m.SubsetMatch?;
    assert !(m.index < i) && !(i < m.index);
  }

  /** Third rule: a set containing no template is "Unknown". */
  lemma UnknownRule(intervals: seq<int>)
    requires forall j :: 0 <= j < |ChordTypes| ==> !(ChordTypes[j].intervals <= Templates.IntervalSet(intervals))
    ensures IdentifyChordType(intervals) == "Unknown"
  {
  }

  lemma ExactExample0()
    ensures IdentifyChordType([0, 4, 7]) == "Major"
  {
    assert Templates.IntervalSet([0, 4, 7]) == ChordTypes[0].intervals;
    ExactRule([0, 4, 7], 0);
  }

  lemma ExactExample1()
    ensures IdentifyChordType([0, 3, 7]) == "Minor"
  {
    assert Templates.IntervalSet([0, 3, 7]) == ChordTypes[1].intervals;
    ExactRule([0, 3, 7], 1);
  }

  lemma ExactExample2()
    ensures IdentifyChordType([0, 4, 7, 11]) == "Major 7"
  {
    assert Templates.IntervalSet([0, 4, 7, 11]) == ChordTypes[4].intervals;
    ExactRule([0, 4, 7, 11], 4);
  }

  lemma ExactExample3()
    ensures IdentifyChordType([0, 3, 7, 10]) == "Minor 7"
  {
    assert Templates.IntervalSet([0, 3, 7, 10]) == ChordTypes[5].intervals;
    ExactRule([0, 3, 7, 10], 5);
  }

  lemma ExactExample4()
    ensures IdentifyChordType([0, 4, 7, 10]) == "Dominant 7"
  {
    assert Templates.IntervalSet([0, 4, 7, 10]) == ChordTypes[6].intervals;
    ExactRule([0, 4, 7, 10], 6);
  }

  lemma ExactExample5()
    ensures IdentifyChordType([0, 0, 7, 4, 4]) == "Major"
  {
    assert Templates.IntervalSet([0, 0, 7, 4, 4]) == ChordTypes[0].intervals;
    ExactRule([0, 0, 7, 4, 4], 0);
  }

  /** The documented examples (exact matches; repeated intervals do not matter). */
  lemma IdentifyChordTypeExamples()
    ensures IdentifyChordType([0, 4, 7]) == "Major"
    ensures IdentifyChordType([0, 3, 7]) == "Minor"
    ensures IdentifyChordType([0, 4, 7, 11]) == "Major 7"
    ensures IdentifyChordType([0, 3, 7, 10]) == "Minor 7"
    ensures IdentifyChordType([0, 4, 7, 10]) == "Dominant 7"
    ensures IdentifyChordType([0, 0, 7, 4, 4]) == "Major"
  {
    ExactExample0();
    ExactExample1();
    ExactExample2();
    ExactExample3();
    ExactExample4();
    ExactExample5();
  }

  lemma UnknownExample()
    ensures IdentifyChordType([0, 1]) == "Unknown"
  {
    assert Templates.IntervalSet([0, 1]) == {0, 1};
    UnknownRule([0, 1]);
  }

  /** Intervals reduced modulo 12 never contain 14, so the three ninth templates can
      match neither exactly nor as a subset. */
  lemma NinthsUnreachable(intervals: seq<int>)
    requires forall i :: 0 <= i < |intervals| ==> 0 <= intervals[i] < 12
    ensures var m := Templates.Lookup(ChordTypes, Templates.IntervalSet(intervals));
      m.NoMatch? || !(9 <= m.index <= 11)
  {
    var s := Templates.IntervalSet(intervals);
    assert 14 !in s;
    var m := Templates.Lookup(ChordTypes, s);
    if !m.NoMatch? {
      assert ChordTypes[m.index].intervals <= s;
      assert 14 !in ChordTypes[m.index].intervals;
      assert 14 in ChordTypes[9].intervals && 14 in ChordTypes[10].intervals && 14 in ChordTypes[11].intervals;
    }
  }

  /** Major is listed first, so any set that strictly contains the major triad and is not
      itself a template is an extended major chord. */
  lemma MajorExtended(intervals: seq<int>)
    requires {0, 4, 7} <= Templates.IntervalSet(intervals)
    requires forall j :: 0 <= j < |ChordTypes| ==> ChordTypes[j].intervals != Templates.IntervalSet(intervals)
    ensures IdentifyChordType(intervals) == "Major (extended)"
  {
    var m := Templates.Lookup(ChordTypes, Templates.IntervalSet(intervals));
    assert ChordTypes[0].intervals <= Templates.IntervalSet(intervals);
    assert m.SubsetMatch? && m.index == 0;
    assert ChordTypes[0].name + " (extended)" == "Major (extended)";
  }

  // ---------------------------------------------------------------------------
  // analyze_chord

  datatype ChordInfo = ChordInfo(root: string, chordType: string, noteNames: seq<string>,
                                 pitches: seq<int>, intervals: seq<int>, startTime: real,
                                 velocity: real, noteCount: nat)

  function PitchesOf(chord: seq<Note>): seq<int> {
    seq(|chord|, i requires 0 <= i < |chord| => chord[i].pitch)
  }

  function AnalyzeChord(chord: seq<Note>): ChordInfo
    requires chord != []
  {
    var pitches := Seqs.SortBy(PitchesOf(chord), Pitch.PitchKey);
    Seqs.SortByProperties(PitchesOf(chord), Pitch.PitchKey);
    var names := seq(|pitches|, i requires 0 <= i < |pitches| => Pitch.NoteName(pitches[i]));
    var intervals := Pitch.IntervalsFrom(pitches);
    ChordInfo(names[0], IdentifyChordType(intervals), names, pitches, intervals,
              Seqs.Mean(seq(|chord|, i requires 0 <= i < |chord| => chord[i].start as real)),
              Seqs.Mean(seq(|chord|, i requires 0 <= i < |chord| => chord[i].velocity as real)),
              |chord|)
  }

  /** The chord's pitches in ascending order, a permutation of the notes' pitches, the
      first being the lowest. */
  lemma ChordPitches(chord: seq<Note>)
    requires chord != []
    ensures var ps := Seqs.SortBy(PitchesOf(chord), Pitch.PitchKey);
      && Seqs.SortedBy(ps, Pitch.PitchKey)
      && multiset(ps) == multiset(PitchesOf(chord))
      && |ps| == |chord|
      && ps[0] == Seqs.MinOf(PitchesOf(chord))
  {
    Pitch.SortedPitches(PitchesOf(chord));
  }

  /** The average start of a chord lies between its earliest and latest start. */
  lemma ChordStartBounds(chord: seq<Note>)
    requires chord != []
    ensures Seqs.MinOf(StartsOf(chord)) as real <= AnalyzeChord(chord).startTime <= Seqs.MaxOf(StartsOf(chord)) as real
  {
    var st := StartsOf(chord);
    var starts := seq(|chord|, i requires 0 <= i < |chord| => chord[i].start as real);
    assert forall i :: 0 <= i < |chord| ==> st[i] == chord[i].start;
    Seqs.MeanBounds(starts, Seqs.MinOf(st) as real, Seqs.MaxOf(st) as real);
  }

  /** `analyze_chord`: pitches ascending (a permutation of the notes' pitches), the root is
      the name of the lowest pitch, the intervals are the pitch classes above the root,
      the type is named from those intervals, the count is the number of notes, and the
      average start lies within the notes' starts. */
  lemma AnalyzeChordProperties(chord: seq<Note>)
    requires chord != []
    ensures var info := AnalyzeChord(chord);
      && Seqs.SortedBy(info.pitches, Pitch.PitchKey)
      && multiset(info.pitches) == multiset(PitchesOf(chord))
      && |info.pitches| == |chord|
      && info.root == Pitch.NoteName(Seqs.MinOf(PitchesOf(chord)))
      && |info.noteNames| == |chord|
      && (forall i :: 0 <= i < |chord| ==> info.noteNames[i] == Pitch.NoteName(info.pitches[i]))
      && |info.intervals| == |chord| && info.intervals[0] == 0
      && (forall i :: 0 <= i < |chord| ==> 0 <= info.intervals[i] < 12)
      && info.chordType == IdentifyChordType(info.intervals)
      && info.noteCount == |chord|
      && Seqs.MinOf(StartsOf(chord)) as real <= info.startTime <= Seqs.MaxOf(StartsOf(chord)) as real
  {
    ChordPitches(chord);
    ChordStartBounds(chord);
  }

  function StartsOf(notes: seq<Note>): seq<int> {
    seq(|notes|, i requires 0 <= i < |notes| => notes[i].start)
  }

  // ---------------------------------------------------------------------------
  // detect_scale_from_notes

  /** The most common entry followed by " (vermutlich)", of several equally common ones the
      first seen: the entry at the first index `k` no entry is more frequent than, and every
      entry before which is less frequent. Nothing for an empty list. */
  function TonicGuess(stripped: seq<string>): (r: Option<string>)
    ensures r.None? <==> stripped == []
    ensures r.Some? ==> exists k :: && 0 <= k < |stripped| && r.value == stripped[k] + " (vermutlich)"
                          && (forall j :: 0 <= j < |stripped| ==> Seqs.Count(stripped, stripped[j]) <= Seqs.Count(stripped, stripped[k]))
                          && (forall j :: 0 <= j < k ==> Seqs.Count(stripped, stripped[j]) < Seqs.Count(stripped, stripped[k]))
  {
    if stripped == [] then None
    else
      Seqs.MostCommonFirst(stripped, 3);
      var tonic := Seqs.MostCommon(stripped, 3)[0];
      var k := Seqs.FirstIndex(stripped, tonic);
      assert stripped[k] == tonic;
      Some(tonic + " (vermutlich)")
  }

  /** `n[:-1] if len(n) > 1 and n[-1].isdigit() else n`: only the last character goes. */
  function DropLastDigit(name: string): string {
    if |name| > 1 && Text.IsDigit(name[|name| - 1]) then name[..|name| - 1] else name
  }

  /** `detect_scale_from_notes` as written. */
  function DetectScaleAsWritten(names: seq<string>): Option<string> {
    TonicGuess(seq(|names|, i requires 0 <= i < |names| => DropLastDigit(names[i])))
  }

  predicate IsOctaveChar(c: char) {
    Text.IsDigit(c) || c == '-'
  }

  /** Length of the longest suffix made of digits and minus signs. */
  function OctaveSuffix(s: string): (k: nat)
    ensures k <= |s|
    ensures forall i :: |s| - k <= i < |s| ==> IsOctaveChar(s[i])
    ensures k < |s| ==> !IsOctaveChar(s[|s| - 1 - k])
  {
    if s == [] || !IsOctaveChar(s[|s| - 1]) then 0 else OctaveSuffix(s[..|s| - 1]) + 1
  }

  /** The name without its octave number, sign included (a name that is all octave
      characters is kept, as the length guard of the original keeps one-character names). */
  function StripOctave(name: string): string {
    var k := OctaveSuffix(name);
    if k < |name| then name[..|name| - k] else name
  }

  /** The key guess with the whole octave number removed from every name. */
  function DetectScale(names: seq<string>): Option<string> {
    TonicGuess(seq(|names|, i requires 0 <= i < |names| => StripOctave(names[i])))
  }

  lemma {:induction false} OctaveSuffixAppend(a: string, b: string)
    requires a != [] && !IsOctaveChar(a[|a| - 1])
    requires forall i :: 0 <= i < |b| ==> IsOctaveChar(b[i])
    ensures OctaveSuffix(a + b) == |b|
    decreases |b|
  {
    if b == [] {
      assert a + b == a;
    } else {
      var b' := b[..|b| - 1];
      assert (a + b)[..|a + b| - 1] == a + b';
      OctaveSuffixAppend(a, b');
    }
  }

  /** The rendered octave consists of digits and at most a leading minus sign. */
  lemma OctaveChars(i: int)
    ensures forall j :: 0 <= j < |Text.IntToString(i)| ==> IsOctaveChar(Text.IntToString(i)[j])
  {
    var r := Text.IntToString(i);
    if i < 0 {
      var d := Text.NatToString(-i);
      assert r == "-" + d;
      forall j | 0 <= j < |r| ensures IsOctaveChar(r[j]) {
        if j > 0 { assert r[j] == d[j - 1]; }
      }
    }
  }

  /** Stripping the octave from a rendered note name leaves its pitch-class name. */
  lemma StripOctaveOfName(n: int)
    ensures StripOctave(Pitch.NoteName(n)) == Pitch.NoteNames[Pitch.PitchClass(n)]
  {
    var cls := Pitch.NoteNames[Pitch.PitchClass(n)];
    var oct := Text.IntToString(Pitch.Octave(n));
    assert Pitch.NoteName(n) == cls + oct;
    assert cls != [] && !IsOctaveChar(cls[|cls| - 1]);
    OctaveChars(Pitch.Octave(n));
    OctaveSuffixAppend(cls, oct);
    assert (cls + oct)[..|cls|] == cls;
  }

  function NamesOf(pitches: seq<int>): seq<string> {
    seq(|pitches|, i requires 0 <= i < |pitches| => Pitch.NoteName(pitches[i]))
  }

  function ClassNamesOf(pitches: seq<int>): seq<string> {
    seq(|pitches|, i requires 0 <= i < |pitches| => Pitch.NoteNames[Pitch.PitchClass(pitches[i])])
  }

  /** On the names of real pitches the key guess is the name of a most frequent pitch class:
      it counts pitch classes, not pitch-class-and-octave pairs. */
  lemma DetectScaleOfPitches(pitches: seq<int>)
    ensures DetectScale(NamesOf(pitches)) == TonicGuess(ClassNamesOf(pitches))
    ensures pitches != [] ==>
              exists k :: (&& 0 <= k < |pitches|
                           && DetectScale(NamesOf(pitches)) == Some(Pitch.NoteNames[Pitch.PitchClass(pitches[k])] + " (vermutlich)")
                           && forall j :: 0 <= j < |pitches| ==>
                                Seqs.Count(ClassNamesOf(pitches), ClassNamesOf(pitches)[j])
                                <= Seqs.Count(ClassNamesOf(pitches), ClassNamesOf(pitches)[k]))
  {
    var names := NamesOf(pitches);
    var stripped := seq(|names|, i requires 0 <= i < |names| => StripOctave(names[i]));
    forall i | 0 <= i < |pitches| ensures stripped[i] == ClassNamesOf(pitches)[i] {
      StripOctaveOfName(pitches[i]);
    }
    assert stripped == ClassNamesOf(pitches);
    if pitches != [] {
      var cls := ClassNamesOf(pitches);
      var r := TonicGuess(cls);
      var k :| && 0 <= k < |cls| && r.value == cls[k] + " (vermutlich)"
               && (forall j :: 0 <= j < |cls| ==> Seqs.Count(cls, cls[j]) <= Seqs.Count(cls, cls[k]));
      assert cls[k] == Pitch.NoteNames[Pitch.PitchClass(pitches[k])];
    }
  }

  lemma TonicOfOne(name: string)
    ensures TonicGuess([name]) == Some(name + " (vermutlich)")
  {
  }

  /** As written, a note of octave -1 (pitches 0 to 11) loses only the "1" of its name:
      "C-1" counts as "C-", which is no pitch-class name. */
  lemma LowOctaveTonicAsWritten(n: int)
    requires 0 <= n < 12
    ensures DetectScaleAsWritten([Pitch.NoteName(n)]) == Some(Pitch.NoteNames[n] + "-" + " (vermutlich)")
  {
    var cls := Pitch.NoteNames[n];
    assert Pitch.PitchClass(n) == n && Pitch.Octave(n) == -1;
    assert Text.IntToString(-1) == "-" + Text.NatToString(1) == "-1";
    var name := Pitch.NoteName(n);
    assert name == cls + "-1";
    assert DropLastDigit(name) == cls + "-" by {
      assert name[..|name| - 1] == cls + "-";
    }
    var asWritten := seq(1, i requires 0 <= i < 1 => DropLastDigit([name][i]));
    assert asWritten == [cls + "-"];
    TonicOfOne(cls + "-");
  }

  /** And that tonic is no pitch-class name. */
  lemma LowOctaveTonicIsNoName(n: int)
    requires 0 <= n < 12
    ensures Pitch.NoteNames[n] + "-" !in Pitch.NoteNames
  {
    var x := Pitch.NoteNames[n] + "-";
    assert x[|x| - 1] == '-';
    assert forall j :: 0 <= j < 12 ==> Pitch.NoteNames[j][|Pitch.NoteNames[j]| - 1] != '-';
  }

  /** With the whole octave removed, a single note counts under its pitch-class name. */
  lemma SingleNoteTonic(n: int)
    ensures DetectScale([Pitch.NoteName(n)]) == Some(Pitch.NoteNames[Pitch.PitchClass(n)] + " (vermutlich)")
  {
    var names := [Pitch.NoteName(n)];
    StripOctaveOfName(n);
    var corrected := seq(1, i requires 0 <= i < 1 => StripOctave(names[i]));
    assert corrected == [Pitch.NoteNames[Pitch.PitchClass(n)]];
    TonicOfOne(Pitch.NoteNames[Pitch.PitchClass(n)]);
  }

  // ---------------------------------------------------------------------------
  // analyze_dynamics

  /** `{"range": 0}` for no notes; otherwise the velocity extremes and their difference
      (the mean and standard deviation are not modelled). */
  datatype Dynamics = RangeOnly(range: int) | Dynamics(min: int, max: int, range: int)

  function VelocitiesOf(notes: seq<Note>): seq<int> {
    seq(|notes|, i requires 0 <= i < |notes| => notes[i].velocity)
  }

  function AnalyzeDynamics(notes: seq<Note>): (d: Dynamics)
    ensures notes == [] ==> d == RangeOnly(0)
    ensures notes != [] ==> d.Dynamics?
    ensures d.Dynamics? ==>
              && d.min in VelocitiesOf(notes) && d.max in VelocitiesOf(notes)
              && (forall i :: 0 <= i < |notes| ==> d.min <= notes[i].velocity <= d.max)
              && 0 <= d.range == d.max - d.min
  {
    if notes == [] then RangeOnly(0)
    else
      var vs := VelocitiesOf(notes);
      var lo, hi := Seqs.MinOf(vs), Seqs.MaxOf(vs);
      assert forall i :: 0 <= i < |notes| ==> vs[i] == notes[i].velocity;
      Dynamics(lo, hi, hi - lo)
  }

  // ---------------------------------------------------------------------------
  // analyze_voice_leading

  datatype VoiceLeading = VoiceLeading(fromChord: string, toChord: string, commonTones: nat,
                                       movements: seq<int>, smooth: bool)

  function Abs(x: int): nat {
    if x < 0 then -x else x
  }

  /** Index of the first pitch of `ps` nearest to `p` (`min(ps, key=lambda q: abs(q - p))`). */
  function NearestIndex(ps: seq<int>, p: int): (k: nat)
    requires ps != []
    ensures k < |ps|
    ensures forall i :: 0 <= i < |ps| ==> Abs(ps[k] - p) <= Abs(ps[i] - p)
    ensures forall j :: 0 <= j < k ==> Abs(ps[j] - p) > Abs(ps[k] - p)
  {
    if |ps| == 1 then 0
    else
      var k := NearestIndex(ps[1..], p) + 1;
      if Abs(ps[0] - p) <= Abs(ps[k] - p) then 0 else k
  }

  function Nearest(ps: seq<int>, p: int): int
    requires ps != []
  {
    ps[NearestIndex(ps, p)]
  }

  /** Every voice of `from` moves to its nearest pitch in `to`. */
  function Movements(from: seq<int>, to: seq<int>): seq<int>
    requires from == [] || to != []
  {
    seq(|from|, i requires 0 <= i < |from| => Nearest(to, from[i]) - from[i])
  }

  function PitchSet(ps: seq<int>): set<int> {
    set p | p in ps
  }

  predicate AllSmall(movements: seq<int>) {
    forall i :: 0 <= i < |movements| ==> Abs(movements[i]) <= 2
  }

  function Label(c: ChordInfo): string {
    c.root + " " + c.chordType
  }

  /** One entry of `analyze_voice_leading`. */
  function Transition(c1: ChordInfo, c2: ChordInfo): VoiceLeading
    requires c1.pitches == [] || c2.pitches != []
  {
    var mv := Movements(c1.pitches, c2.pitches);
    VoiceLeading(Label(c1), Label(c2), |PitchSet(c1.pitches) * PitchSet(c2.pitches)|, mv, AllSmall(mv))
  }

  /** Every voice lands on a pitch of the next chord, and stays put exactly when its pitch
      is one of the next chord's. */
  lemma MovementsLand(from: seq<int>, to: seq<int>)
    requires from == [] || to != []
    ensures |Movements(from, to)| == |from|
    ensures forall i :: 0 <= i < |from| ==> from[i] + Movements(from, to)[i] in to
    ensures forall i :: 0 <= i < |from| ==> (Movements(from, to)[i] == 0 <==> from[i] in to)
  {
    var mv := Movements(from, to);
    forall i | 0 <= i < |from| ensures mv[i] == 0 <==> from[i] in to {
      if from[i] in to {
        var j :| 0 <= j < |to| && to[j] == from[i];
        assert Abs(to[j] - from[i]) == 0;
      }
    }
  }

  /** Some pitch of `ps` lies within two semitones of `p`. */
  predicate WithinTwo(ps: seq<int>, p: int) {
    exists q :: q in ps && Abs(q - p) <= 2
  }

  /** All movements are at most two semitones exactly when every voice has a pitch of the
      next chord within two semitones. */
  lemma SmoothIff(from: seq<int>, to: seq<int>)
    requires from == [] || to != []
    ensures AllSmall(Movements(from, to)) <==> forall i :: 0 <= i < |from| ==> WithinTwo(to, from[i])
  {
    if AllSmall(Movements(from, to)) {
      SmoothNearby(from, to);
    } else {
      RoughFar(from, to);
    }
  }

  lemma SmoothNearby(from: seq<int>, to: seq<int>)
    requires from == [] || to != []
    requires AllSmall(Movements(from, to))
    ensures forall i :: 0 <= i < |from| ==> WithinTwo(to, from[i])
  {
    var mv := Movements(from, to);
    forall i | 0 <= i < |from| ensures WithinTwo(to, from[i]) {
      var k := NearestIndex(to, from[i]);
      assert mv[i] == to[k] - from[i];
      assert to[k] in to && Abs(to[k] - from[i]) <= 2;
    }
  }

  lemma RoughFar(from: seq<int>, to: seq<int>)
    requires from == [] || to != []
    requires !AllSmall(Movements(from, to))
    ensures exists i :: 0 <= i < |from| && !WithinTwo(to, from[i])
  {
    var mv := Movements(from, to);
    var i :| 0 <= i < |mv| && Abs(mv[i]) > 2;
    var p := from[i];
    assert Abs(Nearest(to, p) - p) > 2;
    forall q | q in to ensures Abs(q - p) > 2 {
      NearestIsClosest(to, p, q);
    }
    assert !WithinTwo(to, from[i]);
  }

  lemma NearestIsClosest(ps: seq<int>, p: int, q: int)
    requires q in ps
    ensures Abs(Nearest(ps, p) - p) <= Abs(q - p)
  {
    var j :| 0 <= j < |ps| && ps[j] == q;
    var k := NearestIndex(ps, p);
    assert Abs(ps[k] - p) <= Abs(ps[j] - p);
  }

  /** `analyze_voice_leading` entry: there is one movement per voice, and each voice
      lands on a pitch of the next chord. */
  lemma TransitionLands(c1: ChordInfo, c2: ChordInfo)
    requires c1.pitches == [] || c2.pitches != []
    ensures |Transition(c1, c2).movements| == |c1.pitches|
    ensures var mv := Transition(c1, c2).movements;
      forall i :: 0 <= i < |c1.pitches| ==> c1.pitches[i] + mv[i] in c2.pitches
  {
    var mv := Transition(c1, c2).movements;
    TransitionMovements(c1, c2);
    forall i | 0 <= i < |c1.pitches| ensures c1.pitches[i] + mv[i] in c2.pitches {
      var k := NearestIndex(c2.pitches, c1.pitches[i]);
      assert mv[i] == c2.pitches[k] - c1.pitches[i];
      assert c1.pitches[i] + mv[i] == c2.pitches[k];
    }
  }

  lemma TransitionMovements(c1: ChordInfo, c2: ChordInfo)
    requires c1.pitches == [] || c2.pitches != []
    ensures Transition(c1, c2).movements == Movements(c1.pitches, c2.pitches)
  {
  }

  /** `analyze_voice_leading` entry: a voice stays put exactly when its pitch is a common
      tone. */
  lemma TransitionStays(c1: ChordInfo, c2: ChordInfo)
    requires c1.pitches == [] || c2.pitches != []
    ensures var mv := Transition(c1, c2).movements;
      forall i :: 0 <= i < |c1.pitches| ==> (mv[i] == 0 <==> c1.pitches[i] in c2.pitches)
  {
    assert Transition(c1, c2).movements == Movements(c1.pitches, c2.pitches);
    MovementsLand(c1.pitches, c2.pitches);
  }

  /** `analyze_voice_leading` entry: the step is smooth exactly when every voice has a
      pitch of the next chord within two semitones. */
  lemma TransitionSmooth(c1: ChordInfo, c2: ChordInfo)
    requires c1.pitches == [] || c2.pitches != []
    ensures Transition(c1, c2).smooth <==> forall i :: 0 <= i < |c1.pitches| ==> WithinTwo(c2.pitches, c1.pitches[i])
  {
    assert Transition(c1, c2).smooth == AllSmall(Movements(c1.pitches, c2.pitches));
    SmoothIff(c1.pitches, c2.pitches);
  }

  /** Moving from a chord to the same pitches keeps every voice and is smooth. */
  lemma RepeatedChordIsSmooth(c1: ChordInfo, c2: ChordInfo)
    requires c1.pitches == c2.pitches
    ensures var v := Transition(c1, c2);
      && v.smooth && v.commonTones == |PitchSet(c1.pitches)|
      && forall i :: 0 <= i < |v.movements| ==> v.movements[i] == 0
  {
    MovementsLand(c1.pitches, c2.pitches);
    assert PitchSet(c1.pitches) * PitchSet(c2.pitches) == PitchSet(c1.pitches);
  }

  /** Consecutive chords for which `min` over the second chord's pitches is defined. */
  ghost predicate Chainable(chords: seq<ChordInfo>) {
    forall i :: 0 < i < |chords| ==> chords[i - 1].pitches == [] || chords[i].pitches != []
  }

  /** The inner loop of `analyze_voice_leading`: the move of each voice to its nearest
      pitch in the next chord. */
  method VoiceMovements(from: seq<int>, to: seq<int>) returns (movements: seq<int>)
    requires from == [] || to != []
    ensures movements == Movements(from, to)
  {
    movements := [];
    var j := 0;
    while j < |from|
      invariant 0 <= j <= |from|
      invariant movements == Movements(from, to)[..j]
    {
      var closest := Nearest(to, from[j]);
      movements := movements + [closest - from[j]];
      j := j + 1;
    }
  }

  /** `analyze_voice_leading`: one entry per pair of consecutive chords. */
  method AnalyzeVoiceLeading(chords: seq<ChordInfo>) returns (voiceLeading: seq<VoiceLeading>)
    requires Chainable(chords)
    ensures |chords| < 2 ==> voiceLeading == []
    ensures |chords| >= 2 ==> |voiceLeading| == |chords| - 1
    ensures forall i :: 0 <= i < |voiceLeading| ==> voiceLeading[i] == Transition(chords[i], chords[i + 1])
  {
    if |chords| < 2 {
      return [];
    }
    voiceLeading := [];
    var i := 0;
    while i < |chords| - 1
      invariant 0 <= i <= |chords| - 1
      invariant |voiceLeading| == i
      invariant forall k :: 0 <= k < i ==> voiceLeading[k] == Transition(chords[k], chords[k + 1])
    {
      var chord1, chord2 := chords[i], chords[i + 1];
      var movements := VoiceMovements(chord1.pitches, chord2.pitches);
      var entry := VoiceLeading(Label(chord1), Label(chord2),
                                |PitchSet(chord1.pitches) * PitchSet(chord2.pitches)|, movements, AllSmall(movements));
      assert entry == Transition(chord1, chord2);
      voiceLeading := voiceLeading + [entry];
      i := i + 1;
    }
  }

  // ---------------------------------------------------------------------------
  // analyze_midi_file

  datatype PitchRange = PitchRange(min: int, max: int, minNote: string, maxNote: string)

  /** The result dictionary: `NoNotes` is the `"No notes found"` answer. */
  datatype Analysis =
    | NoNotes
    | Analysis(totalNotes: nat, notes: seq<Note>, pitchRange: PitchRange,
               mostCommonNotes: seq<string>, detectedScale: Option<string>, tempoBpm: real,
               duration: int, chords: seq<ChordInfo>, dynamics: Dynamics)

  function NoteNamesOf(notes: seq<Note>): seq<string> {
    seq(|notes|, i requires 0 <= i < |notes| => notes[i].noteName)
  }

  /** `analyze_chord` of every chord. */
  function ChordAnalyses(chords: seq<seq<Note>>): seq<ChordInfo>
    requires forall i :: 0 <= i < |chords| ==> chords[i] != []
  {
    seq(|chords|, i requires 0 <= i < |chords| => AnalyzeChord(chords[i]))
  }

  /** The chords `detect_chords` reports with the 0.05 window. */
  function ChordsOf(notes: seq<Note>): (cs: seq<seq<Note>>)
    ensures forall i :: 0 <= i < |cs| ==> |cs[i]| >= 2
  {
    var cs := Grouping.Clusters(StartKey, ChordWindow, notes);
    Grouping.ClustersProperties(StartKey, ChordWindow, notes);
    assert forall i :: 0 <= i < |cs| ==> cs[i] in cs;
    cs
  }

  /** The first twenty analysed chords, as the result lists them. */
  function ReportedChords(notes: seq<Note>): seq<ChordInfo> {
    Seqs.Take(ChordAnalyses(ChordsOf(notes)), 20)
  }

  /** The notes `extract_notes` hands to the analysis (one dictionary shared by all tracks). */
  function ExtractedNotes(tracks: seq<Track>): seq<Note> {
    Seqs.SortBy(RunTracks(tracks).notes, StartKey)
  }

  /** The notes with a dictionary per track. */
  function CorrectedNotes(tracks: seq<Track>): seq<Note> {
    Seqs.SortBy(RunTracksPerTrack(tracks).notes, StartKey)
  }

  /** The analysis of the extracted, start-sorted notes; the tempo is read from the file
      by code outside this model and arrives as a parameter. */
  function Summary(notes: seq<Note>, tempoBpm: real): Analysis {
    if notes == [] then NoNotes
    else
      var names := NoteNamesOf(notes);
      var pitches := PitchesOf(notes);
      var lo, hi := Seqs.MinOf(pitches), Seqs.MaxOf(pitches);
      Analysis(|notes|, Seqs.Take(notes, 100),
               PitchRange(lo, hi, Pitch.NoteName(lo), Pitch.NoteName(hi)),
               Seqs.MostCommon(names, 5), DetectScaleAsWritten(names), tempoBpm,
               notes[|notes| - 1].end, ReportedChords(notes), AnalyzeDynamics(notes))
  }

  /** The analysis with the whole octave removed before the key guess. */
  function CorrectedSummary(notes: seq<Note>, tempoBpm: real): Analysis {
    var a := Summary(notes, tempoBpm);
    if a.NoNotes? then a else a.(detectedScale := DetectScale(NoteNamesOf(notes)))
  }

  /** The loop of `analyze_midi_file` over the detected chords. */
  method AnalyzeChords(chords: seq<seq<Note>>) returns (chordAnalysis: seq<ChordInfo>)
    requires forall i :: 0 <= i < |chords| ==> chords[i] != []
    ensures chordAnalysis == ChordAnalyses(chords)
  {
    ghost var all := ChordAnalyses(chords);
    chordAnalysis := [];
    var i := 0;
    while i < |chords|
      invariant 0 <= i <= |chords|
      invariant chordAnalysis == all[..i]
    {
      var info := AnalyzeChord(chords[i]);
      assert info == all[i];
      Seqs.PrefixNext(all, i);
      chordAnalysis := chordAnalysis + [info];
      i := i + 1;
    }
    assert all[..i] == all;
  }

  /** `analyze_midi_file` from the extracted notes on. */
  method AnalyzeNotes(notes: seq<Note>, tempoBpm: real) returns (result: Analysis)
    ensures result == Summary(notes, tempoBpm)
  {
    if notes == [] {
      return NoNotes;
    }
    var duration := notes[|notes| - 1].end;
    var chords := DetectChords(notes, ChordWindow);
    assert chords == ChordsOf(notes);
    var chordAnalysis := AnalyzeChords(chords);
    var names := NoteNamesOf(notes);
    var pitches := PitchesOf(notes);
    var minPitch, maxPitch := Seqs.MinOf(pitches), Seqs.MaxOf(pitches);
    result := Analysis(|notes|, Seqs.Take(notes, 100),
                       PitchRange(minPitch, maxPitch, Pitch.NoteName(minPitch), Pitch.NoteName(maxPitch)),
                       Seqs.MostCommon(names, 5), DetectScaleAsWritten(names), tempoBpm,
                       duration, Seqs.Take(chordAnalysis, 20), AnalyzeDynamics(notes));
  }

  /** `analyze_midi_file` on the file's tracks. */
  method AnalyzeMidiFile(tracks: seq<Track>, tempoBpm: real) returns (result: Analysis)
    ensures result == Summary(ExtractedNotes(tracks), tempoBpm)
  {
    var notes := ExtractNotes(tracks);
    result := AnalyzeNotes(notes, tempoBpm);
  }

  /** The analysis with both corrections: a dictionary per track, and the whole octave
      removed before the key guess. */
  method AnalyzeMidiFileCorrected(tracks: seq<Track>, tempoBpm: real) returns (result: Analysis)
    ensures result == CorrectedSummary(CorrectedNotes(tracks), tempoBpm)
  {
    var notes := ExtractNotesPerTrack(tracks);
    result := AnalyzeNotes(notes, tempoBpm);
    if result.Analysis? {
      result := result.(detectedScale := DetectScale(NoteNamesOf(notes)));
    }
  }

  /** The extracted notes are sorted by start and each is named after its pitch, with a
      positive velocity and a duration of end minus start; there are none exactly when no
      note was paired. */
  lemma ExtractedNotesFacts(tracks: seq<Track>)
    ensures var notes := ExtractedNotes(tracks);
      && Seqs.SortedBy(notes, StartKey)
      && (notes == [] <==> RunTracks(tracks).notes == [])
      && (forall i :: 0 <= i < |notes| ==>
           && notes[i].noteName == Pitch.NoteName(notes[i].pitch)
           && notes[i].duration == notes[i].end - notes[i].start
           && notes[i].velocity > 0)
  {
    var unsorted := RunTracks(tracks).notes;
    SortedNotes(unsorted);
    RunTracksFacts(tracks);
    var notes := ExtractedNotes(tracks);
    forall i | 0 <= i < |notes|
      ensures && notes[i].noteName == Pitch.NoteName(notes[i].pitch)
              && notes[i].duration == notes[i].end - notes[i].start
              && notes[i].velocity > 0
    {
      var j :| 0 <= j < |unsorted| && unsorted[j] == notes[i];
    }
  }

  /** For a file of one track, every extracted note ends no earlier than it starts. */
  lemma SingleTrackNotes(track: Track)
    ensures var notes := ExtractedNotes([track]);
      forall i :: 0 <= i < |notes| ==> notes[i].start <= notes[i].end
  {
    var unsorted := RunTracks([track]).notes;
    SortedNotes(unsorted);
    SingleTrackOrdered(track);
    var notes := ExtractedNotes([track]);
    forall i | 0 <= i < |notes| ensures notes[i].start <= notes[i].end {
      var j :| 0 <= j < |unsorted| && unsorted[j] == notes[i];
    }
  }

  /** With a dictionary per track every note moreover ends no earlier than it starts. */
  lemma CorrectedNotesFacts(tracks: seq<Track>)
    ensures var notes := CorrectedNotes(tracks);
      && Seqs.SortedBy(notes, StartKey)
      && (notes == [] <==> RunTracksPerTrack(tracks).notes == [])
      && forall i :: 0 <= i < |notes| ==>
           notes[i].noteName == Pitch.NoteName(notes[i].pitch) && notes[i].start <= notes[i].end
  {
    var unsorted := RunTracksPerTrack(tracks).notes;
    SortedNotes(unsorted);
    RunTracksPerTrackFacts(tracks);
    var notes := CorrectedNotes(tracks);
    forall i | 0 <= i < |notes|
      ensures notes[i].noteName == Pitch.NoteName(notes[i].pitch) && notes[i].start <= notes[i].end
    {
      var j :| 0 <= j < |unsorted| && unsorted[j] == notes[i];
    }
  }

  /** A note-on at tick 1000 of one track and a note-off at tick 10 of the next: the file
      analysis reports one note, which ends before it starts; the corrected analysis
      reports no notes. */
  lemma CrossTrackAnalysis(tempoBpm: real)
    ensures var tracks := [[Message(NoteOn, 60, 64, 0, 1000)], [Message(NoteOff, 60, 0, 0, 10)]];
      && Summary(ExtractedNotes(tracks), tempoBpm).Analysis?
      && Summary(ExtractedNotes(tracks), tempoBpm).totalNotes == 1
      && ExtractedNotes(tracks)[0].end < ExtractedNotes(tracks)[0].start
      && CorrectedSummary(CorrectedNotes(tracks), tempoBpm) == NoNotes
  {
    var tracks := [[Message(NoteOn, 60, 64, 0, 1000)], [Message(NoteOff, 60, 0, 0, 10)]];
    CrossTrackPairing();
    assert RunTracks(tracks).notes == [Note(60, "C4", 1000, 10, -990, 64, 0)];
    assert RunTracksPerTrack(tracks).notes == [];
  }

  /** No notes gives the error answer; otherwise the count is the number of notes, at most
      the first hundred are listed, and the duration is the end of the last-starting note. */
  lemma SummaryShape(notes: seq<Note>, tempoBpm: real)
    ensures Summary(notes, tempoBpm).NoNotes? <==> notes == []
    ensures var a := Summary(notes, tempoBpm);
      a.Analysis? ==>
        && a.totalNotes == |notes|
        && |a.notes| == (if |notes| < 100 then |notes| else 100)
        && a.notes == notes[..|a.notes|]
        && a.duration == notes[|notes| - 1].end
        && a.tempoBpm == tempoBpm
        && a.chords == ReportedChords(notes)
        && a.dynamics == AnalyzeDynamics(notes)
  {
  }

  /** The pitch range is the lowest and the highest pitch of the notes, with their names. */
  lemma SummaryPitchRange(notes: seq<Note>, tempoBpm: real)
    requires notes != []
    ensures var r := Summary(notes, tempoBpm).pitchRange;
      && r.min in PitchesOf(notes) && r.max in PitchesOf(notes)
      && (forall i :: 0 <= i < |notes| ==> r.min <= notes[i].pitch <= r.max)
      && r.minNote == Pitch.NoteName(r.min) && r.maxNote == Pitch.NoteName(r.max)
  {
    var ps := PitchesOf(notes);
    assert forall i :: 0 <= i < |notes| ==> ps[i] == notes[i].pitch;
  }

  /** The five most common names (fewer when there are fewer distinct ones), distinct,
      taken from the notes, in order of falling frequency; no name left out is more
      frequent than the last one listed. */
  lemma SummaryMostCommon(notes: seq<Note>, tempoBpm: real)
    requires notes != []
    ensures var mc := Summary(notes, tempoBpm).mostCommonNotes;
      var names := NoteNamesOf(notes);
      && |mc| == (if |Seqs.Distinct(names)| < 5 then |Seqs.Distinct(names)| else 5)
      && 1 <= |mc|
      && (forall i :: 0 <= i < |mc| ==> mc[i] in names)
      && (forall i, j :: 0 <= i < j < |mc| ==>
            mc[i] != mc[j] && Seqs.Count(names, mc[i]) >= Seqs.Count(names, mc[j]))
      && (forall x :: x in names && x !in mc ==> Seqs.Count(names, x) <= Seqs.Count(names, mc[|mc| - 1]))
  {
    var a := Summary(notes, tempoBpm);
    var names := NoteNamesOf(notes);
    SummaryNames(notes, tempoBpm);
    TopFive(names, a.mostCommonNotes);
  }

  lemma SummaryNames(notes: seq<Note>, tempoBpm: real)
    requires notes != []
    ensures Summary(notes, tempoBpm).Analysis?
    ensures Summary(notes, tempoBpm).mostCommonNotes == Seqs.MostCommon(NoteNamesOf(notes), 5)
  {
  }

  lemma TopFive(names: seq<string>, mc: seq<string>)
    requires names != []
    requires mc == Seqs.MostCommon(names, 5)
    ensures && |mc| == (if |Seqs.Distinct(names)| < 5 then |Seqs.Distinct(names)| else 5)
      && 1 <= |mc|
      && (forall i :: 0 <= i < |mc| ==> mc[i] in names)
      && (forall i, j :: 0 <= i < j < |mc| ==>
            mc[i] != mc[j] && Seqs.Count(names, mc[i]) >= Seqs.Count(names, mc[j]))
      && (forall x :: x in names && x !in mc ==> Seqs.Count(names, x) <= Seqs.Count(names, mc[|mc| - 1]))
  {
    Seqs.MostCommonRanked(names, 5);
    Seqs.MostCommonFirst(names, 5);
    Seqs.MostCommonTop(names, 5);
  }

  /** The detected scale is never missing for notes. For notes named after pitches from
      12 to 131 (octaves 0 to 9, one digit each) it is the guess over their pitch classes,
      as the corrected analysis gives for every pitch. */
  lemma SummaryScale(notes: seq<Note>, tempoBpm: real)
    requires notes != []
    ensures Summary(notes, tempoBpm).detectedScale.Some?
    ensures (forall i :: 0 <= i < |notes| ==>
               notes[i].noteName == Pitch.NoteName(notes[i].pitch) && 12 <= notes[i].pitch < 132) ==>
            Summary(notes, tempoBpm).detectedScale == TonicGuess(ClassNamesOf(PitchesOf(notes)))
  {
    if forall i :: 0 <= i < |notes| ==>
         notes[i].noteName == Pitch.NoteName(notes[i].pitch) && 12 <= notes[i].pitch < 132 {
      var names := NoteNamesOf(notes);
      var dropped := seq(|names|, i requires 0 <= i < |names| => DropLastDigit(names[i]));
      forall i | 0 <= i < |notes| ensures dropped[i] == ClassNamesOf(PitchesOf(notes))[i] {
        DropLastDigitOfName(notes[i].pitch);
      }
      assert dropped == ClassNamesOf(PitchesOf(notes));
    }
  }

  /** A note name of octave 0 to 9 loses exactly its octave digit. */
  lemma DropLastDigitOfName(n: int)
    requires 12 <= n < 132
    ensures DropLastDigit(Pitch.NoteName(n)) == Pitch.NoteNames[Pitch.PitchClass(n)]
  {
    var cls := Pitch.NoteNames[Pitch.PitchClass(n)];
    var oct := Pitch.Octave(n);
    assert 0 <= oct < 10;
    assert Text.IntToString(oct) == [Text.DigitChar(oct)];
    var name := Pitch.NoteName(n);
    assert name == cls + [Text.DigitChar(oct)];
    assert name[..|name| - 1] == cls;
  }

  /** As written, the analysis of a single note of octave -1 guesses a tonic with a
      trailing minus sign ("C- (vermutlich)" for "C-1"). */
  lemma LowNoteSummary(note: Note, tempoBpm: real)
    requires 0 <= note.pitch < 12 && note.noteName == Pitch.NoteName(note.pitch)
    ensures Summary([note], tempoBpm).detectedScale == Some(Pitch.NoteNames[note.pitch] + "-" + " (vermutlich)")
  {
    assert NoteNamesOf([note]) == [Pitch.NoteName(note.pitch)];
    LowOctaveTonicAsWritten(note.pitch);
  }

  /** The corrected analysis differs only in its detected scale, which for notes named
      after their pitches is the guess over their pitch classes. */
  lemma CorrectedSummaryScale(notes: seq<Note>, tempoBpm: real)
    requires notes != []
    requires forall i :: 0 <= i < |notes| ==> notes[i].noteName == Pitch.NoteName(notes[i].pitch)
    ensures Summary(notes, tempoBpm).Analysis?
    ensures CorrectedSummary(notes, tempoBpm) ==
            Summary(notes, tempoBpm).(detectedScale := TonicGuess(ClassNamesOf(PitchesOf(notes))))
    ensures CorrectedSummary(notes, tempoBpm).detectedScale.Some?
  {
    assert NoteNamesOf(notes) == NamesOf(PitchesOf(notes));
    DetectScaleOfPitches(PitchesOf(notes));
  }

  /** At most twenty chords are reported, each the analysis of the corresponding chord group,
      which holds two or more notes (so its `noteCount` is at least two, by
      `AnalyzeChordProperties`). */
  lemma ReportedChordsProperties(notes: seq<Note>)
    ensures var rc := ReportedChords(notes);
      var cs := Grouping.Clusters(StartKey, ChordWindow, notes);
      && |rc| == (if |cs| < 20 then |cs| else 20)
      && forall i :: 0 <= i < |rc| ==> |cs[i]| >= 2 && rc[i] == AnalyzeChord(cs[i])
  {
    var cs := ChordsOf(notes);
    assert cs == Grouping.Clusters(StartKey, ChordWindow, notes);
    var all := ChordAnalyses(cs);
    var rc := ReportedChords(notes);
    forall i | 0 <= i < |rc| ensures rc[i] == AnalyzeChord(cs[i]) {
      assert rc[i] == all[i];
    }
  }
}

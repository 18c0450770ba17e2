/**
 * MIDI note numbers and their names, as `midi_to_note_name` renders them
 * (the function is written identically in midi_analyzer.py and app.py).
 */
module Pitch {
  import opened Wrappers
  import Text
  import Seqs

  /** The twelve pitch-class names, index = pitch class (0 = C). */
  const NoteNames: seq<string> := ["C", "C#", "D", "D#", "E", "F", "F#", "G", "G#", "A", "A#", "B"]

  /** `midi_number % 12`: Python's `%` by a positive divisor is never negative, like Dafny's. */
  function PitchClass(n: int): (pc: nat)
    ensures pc < 12
  {
    n % 12
  }

  /** `midi_number // 12 - 1`: Python floors, which for a positive divisor is Dafny's `/`. */
  function Octave(n: int): int {
    n / 12 - 1
  }

  /** `midi_to_note_name(n)`: the pitch-class name followed by `str` of the octave. */
  function NoteName(n: int): (r: string)
    ensures |r| >= 2
    ensures Text.StartsWith(r, NoteNames[PitchClass(n)])
  {
    NoteNames[PitchClass(n)] + Text.IntToString(Octave(n))
  }

  /** For a MIDI number in 0..127 the octave runs from -1 to 9. */
  lemma OctaveRange(n: int)
    requires 0 <= n <= 127
    ensures -1 <= Octave(n) <= 9
    ensures Octave(n) == -1 <==> n < 12
    ensures Octave(n) == 9 <==> 120 <= n
  {
  }

  /** The sort key of a pitch. */
  function PitchKey(p: int): real {
    p as real
  }

  /** `sorted(pitches)`: ascending, a permutation of the input, the lowest first. */
  lemma SortedPitches(ps: seq<int>)
    requires ps != []
    ensures var sorted := Seqs.SortBy(ps, PitchKey);
      && Seqs.SortedBy(sorted, PitchKey)
      && multiset(sorted) == multiset(ps)
      && |sorted| == |ps|
      && sorted[0] == Seqs.MinOf(ps)
  {
    var sorted := Seqs.SortBy(ps, PitchKey);
    Seqs.SortByProperties(ps, PitchKey);
    var m := Seqs.MinOf(ps);
    assert sorted[0] in multiset(ps);
    assert m in multiset(sorted);
    var k :| 0 <= k < |sorted| && sorted[k] == m;
    if k > 0 { assert PitchKey(sorted[0]) <= PitchKey(sorted[k]); }
  }

  /** `(p - root) % 12` for every pitch. */
  function IntervalsFrom(pitches: seq<int>): (iv: seq<int>)
    requires pitches != []
    ensures |iv| == |pitches|
    ensures forall i :: 0 <= i < |iv| ==> 0 <= iv[i] < 12 && iv[i] == PitchClass(pitches[i] - pitches[0])
    ensures iv[0] == 0
  {
    seq(|pitches|, i requires 0 <= i < |pitches| => (pitches[i] - pitches[0]) % 12)
  }

  /** The index of a pitch-class name, or -1. */
  function NameIndex(name: string): (r: int)
    ensures -1 <= r < 12
    ensures r >= 0 ==> NoteNames[r] == name
    ensures r == -1 ==> name !in NoteNames
  {
    if name == "C" then 0 else if name == "C#" then 1 else if name == "D" then 2
    else if name == "D#" then 3 else if name == "E" then 4 else if name == "F" then 5
    else if name == "F#" then 6 else if name == "G" then 7 else if name == "G#" then 8
    else if name == "A" then 9 else if name == "A#" then 10 else if name == "B" then 11
    else -1
  }

  /** Length of the pitch-class part of a note name: two if the second character is a sharp. */
  function ClassLength(s: string): (k: nat)
    requires s != []
    ensures 1 <= k <= |s|
  {
    if |s| >= 2 && s[1] == '#' then 2 else 1
  }

  /** Reads a note name back into its MIDI number. */
  function ParseNoteName(s: string): Option<int> {
    if s == [] then None
    else
      var k := ClassLength(s);
      var idx := NameIndex(s[..k]);
      match Text.ParseInt(s[k..])
      case None => None
      case Some(oct) => if idx < 0 then None else Some((oct + 1) * 12 + idx)
  }

  lemma NameIndexOfName(pc: nat)
    requires pc < 12
    ensures NameIndex(NoteNames[pc]) == pc
  {
  }

  /** The pitch-class part of a note name is exactly the pitch-class name. */
  lemma ClassLengthOfName(n: int)
    ensures ClassLength(NoteName(n)) == |NoteNames[PitchClass(n)]|
    ensures NoteName(n)[..ClassLength(NoteName(n))] == NoteNames[PitchClass(n)]
    ensures NoteName(n)[ClassLength(NoteName(n))..] == Text.IntToString(Octave(n))
  {
    var name := NoteNames[PitchClass(n)];
    var oct := Text.IntToString(Octave(n));
    var s := NoteName(n);
    assert s == name + oct;
    if |name| == 1 {
      assert s[1] == oct[0];
      assert oct[0] != '#';
    } else {
      assert s[1] == '#';
    }
  }

  /** A note name determines its MIDI number: reading the name back gives the number. */
  lemma NoteNameRoundTrip(n: int)
    ensures ParseNoteName(NoteName(n)) == Some(n)
  {
    var s := NoteName(n);
    ClassLengthOfName(n);
    NameIndexOfName(PitchClass(n));
    Text.IntToStringRoundTrip(Octave(n));
    assert (Octave(n) + 1) * 12 + PitchClass(n) == n;
  }

  /** Distinct MIDI numbers have distinct names. */
  lemma NoteNameInjective(a: int, b: int)
    ensures NoteName(a) == NoteName(b) ==> a == b
  {
    NoteNameRoundTrip(a);
    NoteNameRoundTrip(b);
  }

  /** Middle C (60) is "C4"; the MIDI range 0..127 runs from "C-1" to "G9". */
  lemma NoteNameExamples()
    ensures NoteName(60) == "C4" && NoteName(0) == "C-1" && NoteName(127) == "G9"
  {
    assert PitchClass(60) == 0 && Octave(60) == 4;
    assert Text.IntToString(4) == "4";
    assert PitchClass(0) == 0 && Octave(0) == -1;
    assert Text.IntToString(-1) == "-" + Text.NatToString(1);
    assert PitchClass(127) == 7 && Octave(127) == 9;
    assert Text.IntToString(9) == "9";
  }
}

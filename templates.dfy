/**
 * Chord-quality templates: an ordered table of (interval set, name) pairs, as the
 * `chord_types` dictionaries of midi_analyzer.py and app.py (a Python `dict`
 * iterates in insertion order), with the two searches the classifiers run over it.
 */
module Templates {
  import opened Wrappers

  datatype Template = Template(intervals: set<int>, name: string)

  type Table = seq<Template>

  /** No two rows share an interval set (the sets are dictionary keys). */
  ghost predicate DistinctKeys(table: Table) {
    forall i, j :: 0 <= i < j < |table| ==> table[i].intervals != table[j].intervals
  }

  /** The set of the listed intervals (`frozenset(intervals)`). */
  function IntervalSet(intervals: seq<int>): (s: set<int>)
    ensures forall x :: x in s <==> x in intervals
  {
    set x | x in intervals
  }

  /** Index of the first row at or after `from` whose set is contained in `s`. */
  function FirstSubsetFrom(table: Table, s: set<int>, from: nat): (r: Option<nat>)
    requires from <= |table|
    ensures r.Some? ==> from <= r.value < |table| && table[r.value].intervals <= s
    ensures r.Some? ==> forall j :: from <= j < r.value ==> !(table[j].intervals <= s)
    ensures r.None? ==> forall j :: from <= j < |table| ==> !(table[j].intervals <= s)
    decreases |table| - from
  {
    if from == |table| then None
    else if table[from].intervals <= s then Some(from)
    else FirstSubsetFrom(table, s, from + 1)
  }

  /** The first-listed row whose set is a subset of `s` (`issubset` in iteration order). */
  function FirstSubset(table: Table, s: set<int>): (r: Option<nat>)
    ensures r.Some? ==> r.value < |table| && table[r.value].intervals <= s
    ensures r.Some? ==> forall j :: 0 <= j < r.value ==> !(table[j].intervals <= s)
    ensures r.None? ==> forall j :: 0 <= j < |table| ==> !(table[j].intervals <= s)
  {
    FirstSubsetFrom(table, s, 0)
  }

  /** Index of the first row at or after `from` whose set equals `s`. */
  function ExactFrom(table: Table, s: set<int>, from: nat): (r: Option<nat>)
    requires from <= |table|
    ensures r.Some? ==> from <= r.value < |table| && table[r.value].intervals == s
    ensures r.None? ==> forall j :: from <= j < |table| ==> table[j].intervals != s
    decreases |table| - from
  {
    if from == |table| then None
    else if table[from].intervals == s then Some(from)
    else ExactFrom(table, s, from + 1)
  }

  /** The dictionary lookup `s in chord_types` / `chord_types[s]`: with distinct keys,
      the row found is the only row whose set is `s`. */
  function Exact(table: Table, s: set<int>): (r: Option<nat>)
    ensures r.Some? ==> r.value < |table| && table[r.value].intervals == s
    ensures r.None? ==> forall j :: 0 <= j < |table| ==> table[j].intervals != s
    ensures DistinctKeys(table) && r.Some? ==>
              forall j :: 0 <= j < |table| && table[j].intervals == s ==> j == r.value
  {
    ExactFrom(table, s, 0)
  }

  /** The outcome of a lookup: the row that equals the set, the first row contained in it
      (when none equals it), or neither. */
  datatype Match = ExactMatch(index: nat) | SubsetMatch(index: nat) | NoMatch

  /** Exact match first, then the first row (in table order) that is a subset. */
  function Lookup(table: Table, s: set<int>): (m: Match)
    ensures m.ExactMatch? ==> m.index < |table| && table[m.index].intervals == s
    ensures !m.ExactMatch? ==> forall j :: 0 <= j < |table| ==> table[j].intervals != s
    ensures m.SubsetMatch? ==> m.index < |table| && table[m.index].intervals <= s
    ensures m.SubsetMatch? ==> forall j :: 0 <= j < m.index ==> !(table[j].intervals <= s)
    ensures m.NoMatch? <==> forall j :: 0 <= j < |table| ==> !(table[j].intervals <= s)
  {
    match Exact(table, s)
    case Some(i) => ExactMatch(i)
    case None =>
      match FirstSubset(table, s)
      case Some(i) => SubsetMatch(i)
      case None => NoMatch
  }
}

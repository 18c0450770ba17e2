/**
 * The time-window clustering shared by `detect_chords` (midi_analyzer.py) and
 * `detect_simultaneous_notes` (app.py): walking the notes in order, a note joins
 * the open group when its start minus the group's FIRST start is at most the
 * window; otherwise the open group is closed and the note opens a new one.
 * Only closed groups of two or more notes are reported as chords.
 */
module Grouping {
  import Seqs

  /** The groups produced from an open group `cur` and the notes still to come. */
  function GroupsFrom<T>(key: T -> real, w: real, cur: seq<T>, rest: seq<T>): seq<seq<T>>
    requires cur != []
    decreases |rest|
  {
    if rest == [] then [cur]
    else if key(rest[0]) - key(cur[0]) <= w then GroupsFrom(key, w, cur + [rest[0]], rest[1..])
    else [cur] + GroupsFrom(key, w, [rest[0]], rest[1..])
  }

  /** Every group, singletons included, in input order. */
  function Groups<T>(key: T -> real, w: real, s: seq<T>): seq<seq<T>> {
    if s == [] then [] else GroupsFrom(key, w, [s[0]], s[1..])
  }

  /** The groups that hold at least two notes. */
  function Polyphonic<T>(gs: seq<seq<T>>): seq<seq<T>> {
    if gs == [] then [] else (if |gs[0]| >= 2 then [gs[0]] else []) + Polyphonic(gs[1..])
  }

  /** The chords reported for `s`. */
  function Clusters<T>(key: T -> real, w: real, s: seq<T>): seq<seq<T>> {
    Polyphonic(Groups(key, w, s))
  }

  /** Every element of a group is within the window of that group's first element. */
  ghost predicate InWindow<T>(key: T -> real, w: real, g: seq<T>) {
    g != [] && forall j :: 0 < j < |g| ==> key(g[j]) - key(g[0]) <= w
  }

  lemma {:induction false} PolyphonicAppend<T>(a: seq<seq<T>>, b: seq<seq<T>>)
    ensures Polyphonic(a + b) == Polyphonic(a) + Polyphonic(b)
  {
    if a == [] {
      assert a + b == b;
    } else {
      assert (a + b)[1..] == a[1..] + b;
      PolyphonicAppend(a[1..], b);
    }
  }

  /** One step of the clustering loop, as the loop sees it: a note within the window
      joins the open group; any other note closes it, reporting it if it is polyphonic. */
  lemma StepJoin<T>(key: T -> real, w: real, cur: seq<T>, rest: seq<T>)
    requires cur != [] && rest != [] && key(rest[0]) - key(cur[0]) <= w
    ensures GroupsFrom(key, w, cur, rest) == GroupsFrom(key, w, cur + [rest[0]], rest[1..])
  {
  }

  lemma StepClose<T>(key: T -> real, w: real, cur: seq<T>, rest: seq<T>)
    requires cur != [] && rest != [] && key(rest[0]) - key(cur[0]) > w
    ensures Polyphonic(GroupsFrom(key, w, cur, rest))
            == (if |cur| >= 2 then [cur] else []) + Polyphonic(GroupsFrom(key, w, [rest[0]], rest[1..]))
  {
    var tail := GroupsFrom(key, w, [rest[0]], rest[1..]);
    PolyphonicAppend([cur], tail);
    assert Polyphonic([cur]) == (if |cur| >= 2 then [cur] else []) + Polyphonic([]);
  }

  lemma StepLast<T>(key: T -> real, w: real, cur: seq<T>)
    requires cur != []
    ensures Polyphonic(GroupsFrom(key, w, cur, [])) == (if |cur| >= 2 then [cur] else [])
  {
    assert Polyphonic([cur]) == (if |cur| >= 2 then [cur] else []) + Polyphonic([]);
  }

  /** The state of the clustering loop after the first `i` elements of `s`: `chords` are
      the closed groups reported so far and `cur` is the open group. */
  ghost predicate Scanning<T>(key: T -> real, w: real, s: seq<T>, i: nat, chords: seq<seq<T>>, cur: seq<T>) {
    i <= |s| && cur != [] && Clusters(key, w, s) == chords + Polyphonic(GroupsFrom(key, w, cur, s[i..]))
  }

  lemma ScanStart<T>(key: T -> real, w: real, s: seq<T>)
    requires s != []
    ensures Scanning(key, w, s, 1, [], [s[0]])
  {
    assert [] + Polyphonic(GroupsFrom(key, w, [s[0]], s[1..])) == Clusters(key, w, s);
  }

  lemma ScanJoin<T>(key: T -> real, w: real, s: seq<T>, i: nat, chords: seq<seq<T>>, cur: seq<T>)
    requires Scanning(key, w, s, i, chords, cur) && i < |s|
    requires key(s[i]) - key(cur[0]) <= w
    ensures Scanning(key, w, s, i + 1, chords, cur + [s[i]])
  {
    Seqs.SuffixNext(s, i);
    StepJoin(key, w, cur, s[i..]);
  }

  lemma ScanClose<T>(key: T -> real, w: real, s: seq<T>, i: nat, chords: seq<seq<T>>, cur: seq<T>)
    requires Scanning(key, w, s, i, chords, cur) && i < |s|
    requires key(s[i]) - key(cur[0]) > w
    ensures Scanning(key, w, s, i + 1, chords + (if |cur| >= 2 then [cur] else []), [s[i]])
  {
    Seqs.SuffixNext(s, i);
    StepClose(key, w, cur, s[i..]);
    var rest := Polyphonic(GroupsFrom(key, w, [s[i]], s[i + 1..]));
    var closed := if |cur| >= 2 then [cur] else [];
    assert chords + (closed + rest) == chords + closed + rest;
  }

  lemma ScanFinish<T>(key: T -> real, w: real, s: seq<T>, chords: seq<seq<T>>, cur: seq<T>)
    requires Scanning(key, w, s, |s|, chords, cur)
    ensures Clusters(key, w, s) == chords + (if |cur| >= 2 then [cur] else [])
  {
    assert s[|s|..] == [];
    StepLast(key, w, cur);
  }

  /** The groups partition the input into consecutive runs, each run within the window
      of its first element, and each run after the first starts beyond the window of
      the previous run's first element. */
  lemma GroupsFromProperties<T>(key: T -> real, w: real, cur: seq<T>, rest: seq<T>)
    requires InWindow(key, w, cur)
    ensures var gs := GroupsFrom(key, w, cur, rest);
      && |gs| >= 1
      && Seqs.Flatten(gs) == cur + rest
      && |gs[0]| >= |cur| && gs[0][..|cur|] == cur
      && (forall i :: 0 <= i < |gs| ==> InWindow(key, w, gs[i]))
      && (forall i :: 0 < i < |gs| ==> key(gs[i][0]) - key(gs[i - 1][0]) > w)
  {
    GroupsFromCover(key, w, cur, rest);
    GroupsFromWindows(key, w, cur, rest);
  }

  /** The groups put back together give the open group and the rest, and the first group
      extends the open one. */
  lemma {:induction false} GroupsFromCover<T>(key: T -> real, w: real, cur: seq<T>, rest: seq<T>)
    requires cur != []
    ensures var gs := GroupsFrom(key, w, cur, rest);
      && |gs| >= 1
      && Seqs.Flatten(gs) == cur + rest
      && |gs[0]| >= |cur| && gs[0][..|cur|] == cur
    decreases |rest|
  {
    var gs := GroupsFrom(key, w, cur, rest);
    if rest == [] {
      assert Seqs.Flatten(gs) == cur + Seqs.Flatten(gs[1..]);
      assert gs[1..] == [];
      assert cur + rest == cur;
    } else if key(rest[0]) - key(cur[0]) <= w {
      var cur' := cur + [rest[0]];
      GroupsFromCover(key, w, cur', rest[1..]);
      assert gs == GroupsFrom(key, w, cur', rest[1..]);
      assert cur' + rest[1..] == cur + rest;
      assert gs[0][..|cur'|] == cur';
      assert gs[0][..|cur|] == cur'[..|cur|];
    } else {
      var tail := GroupsFrom(key, w, [rest[0]], rest[1..]);
      GroupsFromCover(key, w, [rest[0]], rest[1..]);
      assert gs == [cur] + tail;
      assert gs[1..] == tail;
      assert Seqs.Flatten(gs) == cur + Seqs.Flatten(tail);
      assert [rest[0]] + rest[1..] == rest;
      assert cur + ([rest[0]] + rest[1..]) == cur + rest;
    }
  }

  /** Each group lies within the window of its first element, and each group after the
      first starts beyond the window of the previous group's first element. */
  lemma {:induction false} GroupsFromWindows<T>(key: T -> real, w: real, cur: seq<T>, rest: seq<T>)
    requires InWindow(key, w, cur)
    ensures var gs := GroupsFrom(key, w, cur, rest);
      && (forall i :: 0 <= i < |gs| ==> InWindow(key, w, gs[i]))
      && (forall i :: 0 < i < |gs| ==> key(gs[i][0]) - key(gs[i - 1][0]) > w)
    decreases |rest|
  {
    var gs := GroupsFrom(key, w, cur, rest);
    if rest == [] {
      assert gs == [cur];
    } else if key(rest[0]) - key(cur[0]) <= w {
      var cur' := cur + [rest[0]];
      assert InWindow(key, w, cur');
      GroupsFromWindows(key, w, cur', rest[1..]);
      assert gs == GroupsFrom(key, w, cur', rest[1..]);
      assert forall i :: 0 <= i < |gs| ==> InWindow(key, w, gs[i]);
      forall i | 0 < i < |gs| ensures key(gs[i][0]) - key(gs[i - 1][0]) > w {
        assert InWindow(key, w, gs[i]) && InWindow(key, w, gs[i - 1]);
      }
    } else {
      var tail := GroupsFrom(key, w, [rest[0]], rest[1..]);
      GroupsFromWindows(key, w, [rest[0]], rest[1..]);
      GroupsFromCover(key, w, [rest[0]], rest[1..]);
      assert gs == [cur] + tail;
      forall i | 0 < i < |gs| ensures key(gs[i][0]) - key(gs[i - 1][0]) > w {
        if i == 1 {
          assert gs[1] == tail[0];
          assert tail[0][..1] == [rest[0]];
          assert tail[0][0] == rest[0];
        } else {
          assert gs[i] == tail[i - 1] && gs[i - 1] == tail[i - 2];
        }
      }
    }
  }

  /** `Groups` splits `s` into consecutive non-empty runs whose concatenation is `s`. */
  lemma GroupsProperties<T>(key: T -> real, w: real, s: seq<T>)
    ensures var gs := Groups(key, w, s);
      && Seqs.Flatten(gs) == s
      && (s == [] <==> gs == [])
      && (forall i :: 0 <= i < |gs| ==> InWindow(key, w, gs[i]))
      && (forall i :: 0 < i < |gs| ==> key(gs[i][0]) - key(gs[i - 1][0]) > w)
  {
    if s != [] {
      assert InWindow(key, w, [s[0]]);
      GroupsFromProperties(key, w, [s[0]], s[1..]);
      assert [s[0]] + s[1..] == s;
    }
  }

  lemma {:induction false} PolyphonicProperties<T>(gs: seq<seq<T>>)
    ensures forall g :: g in Polyphonic(gs) ==> g in gs && |g| >= 2
    ensures forall g :: g in gs && |g| >= 2 ==> g in Polyphonic(gs)
  {
    if gs != [] {
      PolyphonicProperties(gs[1..]);
      assert gs == [gs[0]] + gs[1..];
    }
  }

  /** Each reported chord is one of the groups, has at least two notes and lies within the
      window of its first note; every group of two or more notes is reported. */
  lemma ClustersProperties<T>(key: T -> real, w: real, s: seq<T>)
    ensures s == [] ==> Clusters(key, w, s) == []
    ensures forall c :: c in Clusters(key, w, s) ==>
              c in Groups(key, w, s) && |c| >= 2 && InWindow(key, w, c)
    ensures forall g :: g in Groups(key, w, s) && |g| >= 2 ==> g in Clusters(key, w, s)
  {
    GroupsProperties(key, w, s);
    PolyphonicProperties(Groups(key, w, s));
  }

  /** Every group consists of elements with one and the same key. */
  ghost predicate EqualKeyRuns<T>(key: T -> real, gs: seq<seq<T>>) {
    forall i, j :: 0 <= i < |gs| && 0 <= j < |gs[i]| ==> key(gs[i][j]) == key(gs[i][0])
  }

  /** When the keys are whole numbers in ascending order and the window is below one,
      a group is exactly a run of equal keys, and consecutive groups have different keys. */
  lemma IntegralKeysGroupByEqualKey<T>(key: T -> real, w: real, s: seq<T>)
    requires 0.0 <= w < 1.0
    requires forall i :: 0 <= i < |s| ==> key(s[i]) == key(s[i]).Floor as real
    requires Seqs.SortedBy(s, key)
    ensures EqualKeyRuns(key, Groups(key, w, s))
    ensures var gs := Groups(key, w, s);
      && (forall i :: 0 <= i < |gs| ==> gs[i] != [])
      && (forall i :: 0 < i < |gs| ==> key(gs[i][0]) != key(gs[i - 1][0]))
  {
    var gs := Groups(key, w, s);
    if s != [] {
      GroupsFromEqualKeys(key, w, [s[0]], s[1..]);
    }
    GroupsProperties(key, w, s);
  }

  lemma {:induction false} GroupsFromEqualKeys<T>(key: T -> real, w: real, cur: seq<T>, rest: seq<T>)
    requires 0.0 <= w < 1.0
    requires cur != [] && key(cur[0]) == key(cur[0]).Floor as real
    requires forall j :: 0 <= j < |cur| ==> key(cur[j]) == key(cur[0])
    requires forall i :: 0 <= i < |rest| ==> key(rest[i]) == key(rest[i]).Floor as real
    requires forall i :: 0 <= i < |rest| ==> key(cur[0]) <= key(rest[i])
    requires Seqs.SortedBy(rest, key)
    ensures EqualKeyRuns(key, GroupsFrom(key, w, cur, rest))
    decreases |rest|
  {
    var gs := GroupsFrom(key, w, cur, rest);
    if rest == [] {
      assert gs == [cur];
    } else {
      var x, y := key(cur[0]), key(rest[0]);
      if y - x <= w {
        assert x.Floor <= y.Floor && y.Floor - x.Floor < 1;
        assert y == x;
        var cur' := cur + [rest[0]];
        GroupsFromEqualKeys(key, w, cur', rest[1..]);
        assert gs == GroupsFrom(key, w, cur', rest[1..]);
      } else {
        var tail := GroupsFrom(key, w, [rest[0]], rest[1..]);
        GroupsFromEqualKeys(key, w, [rest[0]], rest[1..]);
        assert gs == [cur] + tail;
        forall i, j | 0 <= i < |gs| && 0 <= j < |gs[i]| ensures key(gs[i][j]) == key(gs[i][0]) {
          if i > 0 {
            assert gs[i] == tail[i - 1];
          }
        }
      }
    }
  }
}

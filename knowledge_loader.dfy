/**
 * The text handling of the jazz knowledge base (knowledge_loader.py): splitting a
 * markdown file into sections at its `## ` headers, and assembling the prompt context
 * from search results. The semantic search itself (an embedding model and a vector
 * store) is a parameter: a function from a query and a result count to results.
 */
module KnowledgeLoader {
  import Seqs
  import Text

  /** One section: `{'title': ..., 'content': ...}`. */
  datatype Section = Section(title: string, content: string)

  // ---------------------------------------------------------------------------
  // _split_by_headers

  /** The header test of the splitter: starts with "## " and not with "### ". */
  predicate IsHeader(line: string) {
    Text.StartsWith(line, "## ") && !Text.StartsWith(line, "### ")
  }

  /** `line.replace('##', '').strip()`. */
  function HeaderTitle(line: string): string {
    Text.Strip(Text.ReplaceAll(line, "##", ""))
  }

  /** `if section['content'].strip()`. */
  predicate HasContent(s: Section) {
    Text.Strip(s.content) != []
  }

  /** The sections the splitter builds over `lines`, blank ones included: the first is the
      "Introduction", each header opens the next, and every other line is appended to the
      open section followed by a newline. */
  function Chunks(lines: seq<string>): (r: seq<Section>)
    ensures |r| >= 1
  {
    if lines == [] then [Section("Introduction", "")]
    else
      var c := Chunks(lines[..|lines| - 1]);
      var line := lines[|lines| - 1];
      if IsHeader(line) then c + [Section(HeaderTitle(line), "")]
      else c[..|c| - 1] + [c[|c| - 1].(content := c[|c| - 1].content + line + "\n")]
  }

  /** The sections with content, in order. */
  function Kept(secs: seq<Section>): (r: seq<Section>)
    ensures forall i :: 0 <= i < |r| ==> HasContent(r[i]) && r[i] in secs
  {
    if secs == [] then []
    else
      var k := Kept(secs[..|secs| - 1]);
      var last := secs[|secs| - 1];
      if HasContent(last) then k + [last] else k
  }

  /** `os.path.basename`: the part after the last '/', that is the longest suffix of the
      path without a '/' (the whole path when it has none). */
  function Basename(path: string): (r: string)
    ensures |r| <= |path| && r == path[|path| - |r|..]
    ensures '/' !in r
    ensures |r| < |path| ==> path[|path| - |r| - 1] == '/'
  {
    var k := Text.RFindChar(path, '/');
    var r := path[k + 1..];
    assert forall c :: c in r ==> c != '/';
    r
  }

  /** The title of the single fallback section: the file's base name without ".md",
      underscores as spaces, in title case. */
  function FallbackTitle(path: string): string {
    Text.Title(Text.ReplaceAll(Text.ReplaceAll(Basename(path), ".md", ""), "_", " "))
  }

  /** The sections `_split_by_headers` returns. */
  function SplitSpec(content: string, path: string): seq<Section> {
    var kept := Kept(Chunks(Text.Split(content, '\n')));
    if kept == [] then [Section(FallbackTitle(path), content)] else kept
  }

  /** The state of the splitter after `lines`: the open section, and the sections closed
      so far that have content. */
  ghost predicate Scanned(lines: seq<string>, sections: seq<Section>, current: Section) {
    var c := Chunks(lines); current == c[|c| - 1] && sections == Kept(c[..|c| - 1])
  }

  lemma KeptStep(secs: seq<Section>, s: Section)
    ensures Kept(secs + [s]) == Kept(secs) + (if HasContent(s) then [s] else [])
  {
    assert (secs + [s])[..|secs|] == secs;
  }

  /** A header line closes the open section, keeping it if it has content, and opens one. */
  lemma HeaderStep(lines: seq<string>, line: string, sections: seq<Section>, current: Section)
    requires IsHeader(line) && Scanned(lines, sections, current)
    ensures Scanned(lines + [line], sections + (if HasContent(current) then [current] else []),
                    Section(HeaderTitle(line), ""))
  {
    var c := Chunks(lines);
    assert (lines + [line])[..|lines|] == lines;
    assert c == c[..|c| - 1] + [current];
    KeptStep(c[..|c| - 1], current);
    var c' := c + [Section(HeaderTitle(line), "")];
    assert c'[..|c'| - 1] == c;
  }

  /** Any other line is appended to the open section with a newline. */
  lemma BodyStep(lines: seq<string>, line: string, sections: seq<Section>, current: Section)
    requires !IsHeader(line) && Scanned(lines, sections, current)
    ensures Scanned(lines + [line], sections, current.(content := current.content + line + "\n"))
  {
    var c := Chunks(lines);
    assert (lines + [line])[..|lines|] == lines;
    var c' := c[..|c| - 1] + [current.(content := current.content + line + "\n")];
    assert c'[..|c'| - 1] == c[..|c| - 1];
  }

  /** The loop of `_split_by_headers` over `lines`. */
  method ScanLines(lines: seq<string>) returns (sections: seq<Section>, current: Section)
    ensures Scanned(lines, sections, current)
  {
    sections := [];
    current := Section("Introduction", "");
    var i := 0;
    while i < |lines|
      invariant 0 <= i <= |lines|
      invariant Scanned(lines[..i], sections, current)
    {
      var line := lines[i];
      assert lines[..i + 1] == lines[..i] + [line];
      if Text.StartsWith(line, "## ") && !Text.StartsWith(line, "### ") {
        HeaderStep(lines[..i], line, sections, current);
        if Text.Strip(current.content) != [] {
          sections := sections + [current];
        }
        current := Section(Text.Strip(Text.ReplaceAll(line, "##", "")), "");
      } else {
        BodyStep(lines[..i], line, sections, current);
        current := current.(content := current.content + line + "\n");
      }
      i := i + 1;
    }
    assert lines[..i] == lines;
  }

  /** `_split_by_headers(content, file_path)`. */
  method SplitByHeaders(content: string, path: string) returns (sections: seq<Section>)
    ensures sections == SplitSpec(content, path)
  {
    var lines := Text.Split(content, '\n');
    var current;
    sections, current := ScanLines(lines);
    ghost var c := Chunks(lines);
    assert current == c[|c| - 1] && sections == Kept(c[..|c| - 1]);
    assert c == c[..|c| - 1] + [current];
    KeptStep(c[..|c| - 1], current);
    if Text.Strip(current.content) != [] {
      sections := sections + [current];
    }
    if sections == [] {
      sections := [Section(FallbackTitle(path), content)];
    }
  }

  /** The second test of the header check never decides anything: a line starting with
      "## " cannot start with "### ". */
  lemma HeaderIff(line: string)
    ensures IsHeader(line) <==> Text.StartsWith(line, "## ")
  {
    if Text.StartsWith(line, "## ") {
      assert line[2] == ' ' by { assert line[..3][2] == line[2]; }
      if |line| >= 4 {
        assert line[..4][2] == line[2];
      }
    }
  }

  /** The header lines, in order. */
  function Headers(lines: seq<string>): seq<string> {
    if lines == [] then []
    else Headers(lines[..|lines| - 1]) + (if IsHeader(lines[|lines| - 1]) then [lines[|lines| - 1]] else [])
  }

  /** Every other line followed by a newline, in order. */
  function Body(lines: seq<string>): string {
    if lines == [] then []
    else Body(lines[..|lines| - 1]) + (if IsHeader(lines[|lines| - 1]) then "" else lines[|lines| - 1] + "\n")
  }

  function Titles(secs: seq<Section>): seq<string> {
    seq(|secs|, i requires 0 <= i < |secs| => secs[i].title)
  }

  function Contents(secs: seq<Section>): seq<string> {
    seq(|secs|, i requires 0 <= i < |secs| => secs[i].content)
  }

  /** One section before the first header and one per header. */
  lemma {:induction false} ChunksCount(lines: seq<string>)
    ensures |Chunks(lines)| == 1 + |Headers(lines)|
  {
    if lines != [] {
      ChunksCount(lines[..|lines| - 1]);
    }
  }

  /** The sections are titled "Introduction" and then by the headers in order. */
  lemma {:induction false} ChunksTitles(lines: seq<string>)
    ensures Titles(Chunks(lines)) == ["Introduction"] + HeaderTitles(Headers(lines))
  {
    if lines != [] {
      var init := lines[..|lines| - 1];
      var line := lines[|lines| - 1];
      ChunksTitles(init);
      var c := Chunks(init);
      var hs := Headers(init);
      if IsHeader(line) {
        TitlesAppend(c, Section(HeaderTitle(line), ""));
        HeaderTitlesAppend(hs, line);
        Append3(["Introduction"], HeaderTitles(hs), [HeaderTitle(line)]);
      } else {
        var front := c[..|c| - 1];
        var last := c[|c| - 1];
        assert c == front + [last];
        TitlesAppend(front, last);
        TitlesAppend(front, last.(content := last.content + line + "\n"));
      }
    }
  }

  function HeaderTitles(hs: seq<string>): seq<string> {
    seq(|hs|, i requires 0 <= i < |hs| => HeaderTitle(hs[i]))
  }

  lemma TitlesAppend(secs: seq<Section>, s: Section)
    ensures Titles(secs + [s]) == Titles(secs) + [s.title]
  {
  }

  lemma ContentsAppend(secs: seq<Section>, s: Section)
    ensures Contents(secs + [s]) == Contents(secs) + [s.content]
  {
  }

  lemma HeaderTitlesAppend(hs: seq<string>, h: string)
    ensures HeaderTitles(hs + [h]) == HeaderTitles(hs) + [HeaderTitle(h)]
  {
  }

  lemma FlattenLast(ss: seq<string>, x: string)
    ensures Seqs.Flatten(ss + [x]) == Seqs.Flatten(ss) + x
  {
    Seqs.FlattenAppend(ss, [x]);
    assert Seqs.Flatten([x]) == x + Seqs.Flatten([]);
  }

  /** The contents put together are exactly the non-header lines in order, each with its
      newline: every such line lands in one section, and no header line in any. */
  lemma {:induction false} ChunksContents(lines: seq<string>)
    ensures Seqs.Flatten(Contents(Chunks(lines))) == Body(lines)
  {
    if lines != [] {
      var init := lines[..|lines| - 1];
      var line := lines[|lines| - 1];
      ChunksContents(init);
      var c := Chunks(init);
      if IsHeader(line) {
        ContentsAppend(c, Section(HeaderTitle(line), ""));
        FlattenLast(Contents(c), "");
      } else {
        var front := c[..|c| - 1];
        var last := c[|c| - 1];
        var added := line + "\n";
        var grown := last.(content := last.content + line + "\n");
        assert c == front + [last];
        assert Chunks(lines) == front + [grown];
        Append3(last.content, line, "\n");
        ContentsAppend(front, last);
        FlattenLast(Contents(front), last.content);
        ContentsAppend(front, grown);
        FlattenLast(Contents(front), grown.content);
        Append3(Seqs.Flatten(Contents(front)), last.content, added);
        assert Body(lines) == Body(init) + added;
      }
    }
  }

  /** Every section returned has content, except the fallback, which is the whole file as
      one section; so the result is never empty. */
  lemma SplitSpecProperties(content: string, path: string)
    ensures var r := SplitSpec(content, path);
      && r != []
      && (forall i :: 0 <= i < |r| ==> HasContent(r[i]) || r == [Section(FallbackTitle(path), content)])
      && (r == [Section(FallbackTitle(path), content)] || forall s :: s in r ==> s in Chunks(Text.Split(content, '\n')))
  {
  }

  /** The fallback is taken exactly when no section has content. */
  lemma {:induction false} KeptEmpty(secs: seq<Section>)
    ensures Kept(secs) == [] <==> forall i :: 0 <= i < |secs| ==> !HasContent(secs[i])
  {
    if secs != [] {
      KeptEmpty(secs[..|secs| - 1]);
      assert forall i :: 0 <= i < |secs| - 1 ==> secs[..|secs| - 1][i] == secs[i];
    }
  }

  /** A file without header lines is one "Introduction" section holding every line. */
  lemma NoHeaders(content: string, path: string)
    requires forall i :: 0 <= i < |Text.Split(content, '\n')| ==> !IsHeader(Text.Split(content, '\n')[i])
    ensures |Chunks(Text.Split(content, '\n'))| == 1
    ensures Chunks(Text.Split(content, '\n'))[0].title == "Introduction"
  {
    var lines := Text.Split(content, '\n');
    NoHeaderLines(lines);
    ChunksCount(lines);
    ChunksTitles(lines);
    assert Titles(Chunks(lines))[0] == "Introduction";
  }

  lemma {:induction false} NoHeaderLines(lines: seq<string>)
    requires forall i :: 0 <= i < |lines| ==> !IsHeader(lines[i])
    ensures Headers(lines) == []
  {
    if lines != [] {
      NoHeaderLines(lines[..|lines| - 1]);
    }
  }

  // ---------------------------------------------------------------------------
  // get_context_for_analysis

  /** One search hit: `{'content', 'source', 'title', 'distance'}`. */
  datatype SearchResult = SearchResult(content: string, source: string, title: string, distance: real)

  datatype Query = Query(text: string, nResults: nat)

  const BebopQuery := Query("bebop techniques chromatic approach fast tempo", 2)
  const BalladQuery := Query("ballad phrasing melodic development space", 2)
  const ModalQuery := Query("modal scales dorian improvisation", 2)
  const ComplexQuery := Query("syncopation rhythmic displacement polyrhythm", 1)
  const SimpleQuery := Query("rhythm practice simple patterns", 1)
  const ProgressionQuery := Query("ii-V-I progression scales", 1)

  /** The query chosen by the lower-cased tempo category, tests in order. */
  function CategoryQueries(category: string): seq<Query> {
    var lc := Text.Lower(category);
    if Text.Contains(lc, "bebop") || Text.Contains(lc, "fast") then [BebopQuery]
    else if Text.Contains(lc, "ballad") || Text.Contains(lc, "slow") then [BalladQuery]
    else if Text.Contains(lc, "modal") then [ModalQuery]
    else []
  }

  function RhythmQueries(rhythmComplexity: real): seq<Query> {
    if rhythmComplexity > 7.0 then [ComplexQuery]
    else if rhythmComplexity < 4.0 then [SimpleQuery]
    else []
  }

  /** The searches issued, in order. */
  function Queries(category: string, rhythmComplexity: real): seq<Query> {
    CategoryQueries(category) + RhythmQueries(rhythmComplexity) + [ProgressionQuery]
  }

  /** At most one category search and at most one rhythm search are issued, and the
      progression search always comes last; the category tests take priority in order:
      bebop or fast, then ballad or slow, then modal. */
  lemma QueriesProperties(category: string, rhythmComplexity: real)
    ensures var qs := Queries(category, rhythmComplexity);
      && 1 <= |qs| <= 3
      && qs[|qs| - 1] == ProgressionQuery
      && (|CategoryQueries(category)| <= 1 && |RhythmQueries(rhythmComplexity)| <= 1)
      && (RhythmQueries(rhythmComplexity) != [] <==> rhythmComplexity > 7.0 || rhythmComplexity < 4.0)
    ensures var lc := Text.Lower(category);
      && (Text.Contains(lc, "bebop") || Text.Contains(lc, "fast") ==> CategoryQueries(category) == [BebopQuery])
      && ((!Text.Contains(lc, "bebop") && !Text.Contains(lc, "fast")
           && (Text.Contains(lc, "ballad") || Text.Contains(lc, "slow")))
            ==> CategoryQueries(category) == [BalladQuery])
      && ((!Text.Contains(lc, "bebop") && !Text.Contains(lc, "fast") && !Text.Contains(lc, "ballad")
           && !Text.Contains(lc, "slow") && Text.Contains(lc, "modal"))
            ==> CategoryQueries(category) == [ModalQuery])
      && (CategoryQueries(category) == [] <==>
            !Text.Contains(lc, "bebop") && !Text.Contains(lc, "fast") && !Text.Contains(lc, "ballad")
            && !Text.Contains(lc, "slow") && !Text.Contains(lc, "modal"))
  {
  }

  /** The results of each search, concatenated in order (`context_parts.extend`). */
  function Gather(search: (string, nat) -> seq<SearchResult>, qs: seq<Query>): seq<SearchResult> {
    if qs == [] then [] else Gather(search, qs[..|qs| - 1]) + search(qs[|qs| - 1].text, qs[|qs| - 1].nResults)
  }

  /** The de-duplication key: source and title run together. */
  function Key(p: SearchResult): string {
    p.source + p.title
  }

  function Keys(ps: seq<SearchResult>): set<string> {
    set p | p in ps :: Key(p)
  }

  /** The parts in order, keeping the first of each key. */
  function Dedup(ps: seq<SearchResult>): seq<SearchResult> {
    if ps == [] then []
    else
      var d := Dedup(ps[..|ps| - 1]);
      var p := ps[|ps| - 1];
      if Key(p) in Keys(d) then d else d + [p]
  }

  /** The parts kept have pairwise different keys, each is one of the input parts, and
      every input key is represented. */
  lemma {:induction false} DedupProperties(ps: seq<SearchResult>)
    ensures var d := Dedup(ps);
      && (forall i, j :: 0 <= i < j < |d| ==> Key(d[i]) != Key(d[j]))
      && (forall x :: x in d ==> x in ps)
      && Keys(d) == Keys(ps)
      && |d| <= |ps|
  {
    if ps != [] {
      var init := ps[..|ps| - 1];
      var p := ps[|ps| - 1];
      DedupProperties(init);
      var d := Dedup(init);
      assert ps == init + [p];
      KeysAppend(init, p);
      if Key(p) !in Keys(d) {
        assert forall i :: 0 <= i < |d| ==> Key(d[i]) in Keys(d);
        KeysAppend(d, p);
      }
    }
  }

  /** Later parts never displace earlier ones: the de-duplicated prefix is a prefix of the
      de-duplicated whole, so the first occurrence of a key is the one kept. */
  lemma {:induction false} DedupPrefix(a: seq<SearchResult>, b: seq<SearchResult>)
    ensures |Dedup(a)| <= |Dedup(a + b)|
    ensures Dedup(a + b)[..|Dedup(a)|] == Dedup(a)
    decreases |b|
  {
    if b == [] {
      assert a + b == a;
    } else {
      var b' := b[..|b| - 1];
      DedupPrefix(a, b');
      assert (a + b)[..|a + b| - 1] == a + b';
    }
  }

  /** Running the de-duplication twice changes nothing. */
  lemma {:induction false} DedupIdempotent(ps: seq<SearchResult>)
    ensures Dedup(Dedup(ps)) == Dedup(ps)
  {
    DedupProperties(ps);
    DistinctKeysFixed(Dedup(ps));
  }

  lemma {:induction false} DistinctKeysFixed(d: seq<SearchResult>)
    requires forall i, j :: 0 <= i < j < |d| ==> Key(d[i]) != Key(d[j])
    ensures Dedup(d) == d
  {
    if d != [] {
      var init := d[..|d| - 1];
      var last := d[|d| - 1];
      DistinctKeysFixed(init);
      assert Key(last) !in Keys(init) by {
        forall x | x in init ensures Key(x) != Key(last) {
          var i :| 0 <= i < |init| && init[i] == x;
          assert d[i] == x;
        }
      }
      assert init + [last] == d;
    }
  }

  lemma KeysAppend(d: seq<SearchResult>, p: SearchResult)
    ensures Keys(d + [p]) == Keys(d) + {Key(p)}
  {
    forall k | k in Keys(d + [p]) ensures k in Keys(d) + {Key(p)} {
      var x :| x in d + [p] && Key(x) == k;
    }
    forall k | k in Keys(d) ensures k in Keys(d + [p]) {
      var x :| x in d && Key(x) == k;
      assert x in d + [p];
    }
    assert p in d + [p];
  }

  /** Because the key runs the two fields together, two different hits can collide: a
      source "a" with title "bc" and a source "ab" with title "c" count as one. */
  lemma KeyCollision()
    ensures var x := SearchResult("first", "a", "bc", 0.0);
      var y := SearchResult("second", "ab", "c", 0.0);
      x != y && Dedup([x, y]) == [x]
  {
    var x := SearchResult("first", "a", "bc", 0.0);
    var y := SearchResult("second", "ab", "c", 0.0);
    assert Key(x) == "abc" == Key(y);
    assert [x, y][..1] == [x];
    assert Dedup([x]) == [x] by {
      assert [x][..0] == [];
    }
  }

  const Banner: string := "\n\n=== RELEVANT JAZZ THEORY CONTEXT ===\n\n"
  const EndMarker: string := "=== END CONTEXT ===\n"

  /** Content over 500 characters is cut to its first 500 and marked with "...". */
  function Truncate(c: string): (r: string)
    ensures |c| <= 500 ==> r == c
    ensures |c| > 500 ==> |r| == 503 && r[..500] == c[..500] && r[500..] == "..."
  {
    if |c| > 500 then c[..500] + "..." else c
  }

  /** The text block of one part: its title line, its source line and its content. */
  function FormatPart(p: SearchResult): string {
    TitleLine(p) + SourceLine(p) + ContentLine(p)
  }

  function ContentLine(p: SearchResult): string {
    Truncate(p.content) + "\n\n"
  }

  function TitleLine(p: SearchResult): string {
    "## " + p.title + "\n"
  }

  function SourceLine(p: SearchResult): string {
    "(Source: " + Basename(p.source) + ")\n\n"
  }

  /** Regrouping a concatenation, stated once so that the proofs using it stay small. */
  lemma Append3<T>(a: seq<T>, b: seq<T>, c: seq<T>)
    ensures a + b + c == a + (b + c)
  {
  }

  lemma Append4<T>(a: seq<T>, b: seq<T>, c: seq<T>, d: seq<T>)
    ensures a + b + c + d == a + (b + c + d)
  {
  }

  function FormatAll(ps: seq<SearchResult>): string {
    if ps == [] then "" else FormatAll(ps[..|ps| - 1]) + FormatPart(ps[|ps| - 1])
  }

  /** The context returned for the gathered parts. */
  function Context(parts: seq<SearchResult>): string {
    if parts == [] then ""
    else Banner + FormatAll(Seqs.Take(Dedup(parts), 3)) + EndMarker
  }

  /** The de-duplication loop of `get_context_for_analysis`. */
  method DedupParts(contextParts: seq<SearchResult>) returns (uniqueParts: seq<SearchResult>)
    ensures uniqueParts == Dedup(contextParts)
  {
    var seen: set<string> := {};
    uniqueParts := [];
    var i := 0;
    while i < |contextParts|
      invariant 0 <= i <= |contextParts|
      invariant uniqueParts == Dedup(contextParts[..i]) && seen == Keys(uniqueParts)
    {
      var part := contextParts[i];
      assert contextParts[..i + 1][..i] == contextParts[..i];
      var key := part.source + part.title;
      if key !in seen {
        KeysAppend(uniqueParts, part);
        seen := seen + {key};
        uniqueParts := uniqueParts + [part];
      }
      i := i + 1;
    }
    assert contextParts[..i] == contextParts;
  }

  lemma FormatAllStep(ps: seq<SearchResult>, p: SearchResult)
    ensures FormatAll(ps + [p]) == FormatAll(ps) + FormatPart(p)
  {
    assert (ps + [p])[..|ps|] == ps;
  }

  /** One pass of the formatting loop: the title line, the source line and the content,
      cut at 500 characters. */
  method AppendPart(formattedIn: string, part: SearchResult) returns (formatted: string)
    ensures formatted == formattedIn + FormatPart(part)
  {
    formatted := formattedIn + ("## " + part.title + "\n");
    formatted := formatted + ("(Source: " + Basename(part.source) + ")\n\n");
    var content := if |part.content| > 500 then part.content[..500] + "..." else part.content;
    formatted := formatted + (content + "\n\n");
    Append4(formattedIn, TitleLine(part), SourceLine(part), ContentLine(part));
  }

  lemma FormatStep(formattedIn: string, done: seq<SearchResult>, part: SearchResult)
    ensures formattedIn + FormatAll(done) + FormatPart(part) == formattedIn + FormatAll(done + [part])
  {
    Append3(formattedIn, FormatAll(done), FormatPart(part));
    FormatAllStep(done, part);
  }

  /** The formatting loop of `get_context_for_analysis`, appending to `formattedIn`. */
  method FormatParts(formattedIn: string, top: seq<SearchResult>) returns (formatted: string)
    ensures formatted == formattedIn + FormatAll(top)
  {
    formatted := formattedIn;
    var j := 0;
    while j < |top|
      invariant 0 <= j <= |top|
      invariant formatted == formattedIn + FormatAll(top[..j])
    {
      var part := top[j];
      formatted := AppendPart(formatted, part);
      FormatStep(formattedIn, top[..j], part);
      Seqs.PrefixNext(top, j);
      j := j + 1;
    }
    assert top[..j] == top;
  }

  /** The searches of `get_context_for_analysis`, results concatenated in order. */
  method GatherParts(category: string, rhythmComplexity: real,
                     search: (string, nat) -> seq<SearchResult>)
    returns (contextParts: seq<SearchResult>)
    ensures contextParts == Gather(search, Queries(category, rhythmComplexity))
  {
    contextParts := [];
    var lc := Text.Lower(category);
    if Text.Contains(lc, "bebop") || Text.Contains(lc, "fast") {
      contextParts := contextParts + search(BebopQuery.text, BebopQuery.nResults);
    } else if Text.Contains(lc, "ballad") || Text.Contains(lc, "slow") {
      contextParts := contextParts + search(BalladQuery.text, BalladQuery.nResults);
    } else if Text.Contains(lc, "modal") {
      contextParts := contextParts + search(ModalQuery.text, ModalQuery.nResults);
    }
    assert contextParts == Gather(search, CategoryQueries(category));
    ghost var fromCategory := contextParts;
    if rhythmComplexity > 7.0 {
      contextParts := contextParts + search(ComplexQuery.text, ComplexQuery.nResults);
    } else if rhythmComplexity < 4.0 {
      contextParts := contextParts + search(SimpleQuery.text, SimpleQuery.nResults);
    }
    assert contextParts == fromCategory + Gather(search, RhythmQueries(rhythmComplexity));
    contextParts := contextParts + search(ProgressionQuery.text, ProgressionQuery.nResults);
    GatherQueries(search, category, rhythmComplexity);
  }

  /** `get_context_for_analysis`, with the search as a parameter. */
  method GetContextForAnalysis(category: string, rhythmComplexity: real,
                               search: (string, nat) -> seq<SearchResult>)
    returns (formatted: string)
    ensures formatted == Context(Gather(search, Queries(category, rhythmComplexity)))
  {
    var contextParts := GatherParts(category, rhythmComplexity, search);
    if contextParts == [] {
      return "";
    }
    var uniqueParts := DedupParts(contextParts);
    formatted := FormatParts(Banner, Seqs.Take(uniqueParts, 3));
    formatted := formatted + EndMarker;
  }

  lemma GatherQueries(search: (string, nat) -> seq<SearchResult>, category: string, rhythmComplexity: real)
    ensures Gather(search, Queries(category, rhythmComplexity))
            == Gather(search, CategoryQueries(category)) + Gather(search, RhythmQueries(rhythmComplexity))
               + search(ProgressionQuery.text, ProgressionQuery.nResults)
  {
    var cq, rq := CategoryQueries(category), RhythmQueries(rhythmComplexity);
    GatherAppend(search, cq, rq);
    GatherAppend(search, cq + rq, [ProgressionQuery]);
  }

  lemma {:induction false} GatherAppend(search: (string, nat) -> seq<SearchResult>, a: seq<Query>, b: seq<Query>)
    ensures Gather(search, a + b) == Gather(search, a) + Gather(search, b)
    decreases |b|
  {
    if b == [] {
      assert a + b == a;
    } else {
      var b' := b[..|b| - 1];
      var q := b[|b| - 1];
      GatherAppend(search, a, b');
      assert (a + b)[..|a + b| - 1] == a + b';
      assert (a + b)[|a + b| - 1] == q;
      var found := search(q.text, q.nResults);
      assert Gather(search, a + b) == Gather(search, a + b') + found;
      assert Gather(search, b) == Gather(search, b') + found;
      Append3(Gather(search, a), Gather(search, b'), found);
    }
  }

  /** No parts give no context; otherwise the context opens with the banner, closes with
      the end marker, and lists at most three parts, the first three distinct ones. */
  lemma ContextShape(parts: seq<SearchResult>)
    ensures parts == [] ==> Context(parts) == ""
    ensures parts != [] ==>
              && Text.StartsWith(Context(parts), Banner)
              && |EndMarker| <= |Context(parts)|
              && Context(parts)[|Context(parts)| - |EndMarker|..] == EndMarker
              && |Seqs.Take(Dedup(parts), 3)| == (if |Dedup(parts)| < 3 then |Dedup(parts)| else 3)
              && Dedup(parts) != []
  {
    if parts != [] {
      var c := Context(parts);
      var mid := FormatAll(Seqs.Take(Dedup(parts), 3));
      assert c == Banner + mid + EndMarker;
      assert c[..|Banner|] == Banner;
      assert c[|c| - |EndMarker|..] == EndMarker;
      DedupPrefix([], parts);
      assert parts[..1] + parts[1..] == parts;
      DedupPrefix(parts[..1], parts[1..]);
      assert Dedup(parts[..1]) == [parts[0]] by {
        assert parts[..1][..0] == [];
      }
    }
  }
}

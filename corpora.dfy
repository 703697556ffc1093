/** corpora.py: the corpus search page. compile_data gathers the lines of the
    chosen HotpotQA data source, the search term is turned into a regular
    expression, find_matches runs it over every line, counting every match
    and collecting every matching line once, and the page shows the match
    statistics and the first matching lines. The regular-expression engine is
    a parameter: compiles(pattern) says whether re.compile accepts the pattern
    text, and findAll(pattern, ignoreCase, entry) stands for
    re.findall(re.compile(pattern, flags), entry). The term is never escaped,
    so a term that is not a valid pattern ends the search with re.error. */
module Corpora {
  import opened Text
  import opened Seqs

  const HotpotFull := "HotpotQA Full"
  const HotpotQuestions := "HotpotQA Questions"
  const HotpotContexts := "HotpotQA Contexts"
  const Datasets: seq<string> := [HotpotFull, HotpotQuestions, HotpotContexts]

  /** The pattern text that replaces each `*` of a search term. */
  const Wildcard := "[\\w|-]+"

  /** The word-boundary anchor put around the search term. */
  const WordBoundary := "\\b"

  /** How many matching entries the page shows. */
  const DisplayCap := 200

  /** re.findall on a compiled pattern text, with re.IGNORECASE or not. */
  type FindAll = (string, bool, string) -> seq<string>

  /** Whether re.compile accepts a pattern text; it raises re.error on, for
      instance, an unbalanced `(` or `[`, or a `+` with nothing to repeat. */
  type Compiles = string -> bool

  /** A file of the data directory, in os.listdir order, with its lines as
      `for line in f` yields them. */
  datatype DataFile = DataFile(name: string, lines: seq<string>)

  // ----------------------------------------------------------- compile_data

  /** The HotpotQA context files: names starting "hotpot" that contain
      "contexts". */
  predicate IsContextFile(name: string) {
    StartsWith(name, "hotpot") && Contains(name, "contexts")
  }

  /** Every "hotpot…contexts…" name is a context file. */
  lemma ContextFileNames(middle: string, suffix: string)
    ensures IsContextFile("hotpot" + middle + "contexts" + suffix)
  {
    assert "hotpot" + middle + "contexts" + suffix == "hotpot" + (middle + "contexts" + suffix);
    StartsWithAppend("hotpot", middle + "contexts" + suffix);
    ContainsInfix("hotpot" + middle, "contexts", suffix);
  }

  /** A name not starting "hotpot", such as a SQuAD file's or one merely
      containing "contexts", is not a context file. */
  lemma NotContextFiles(name: string)
    requires |name| < 6 || name[..6] != "hotpot"
    ensures !IsContextFile(name)
  {
  }

  /** The lines of the HotpotQA context files, file by file in directory order. */
  function ContextLines(dir: seq<DataFile>): seq<string> {
    if dir == [] then []
    else
      var last := dir[|dir| - 1];
      ContextLines(dir[..|dir| - 1]) + (if IsContextFile(last.name) then last.lines else [])
  }

  function IsContextDataFile(): DataFile -> bool {
    (f: DataFile) => IsContextFile(f.name)
  }

  function LinesOf(): DataFile -> seq<string> {
    (f: DataFile) => f.lines
  }

  /** ContextLines concatenates exactly the files whose name starts with
      "hotpot" and contains "contexts", in directory order. */
  lemma {:induction false} ContextLinesSelected(dir: seq<DataFile>)
    ensures ContextLines(dir) == Flatten(FilterMap(dir, IsContextDataFile(), LinesOf()))
  {
    if dir != [] {
      var init, last := dir[..|dir| - 1], dir[|dir| - 1];
      ContextLinesSelected(init);
      var chosen := if IsContextFile(last.name) then [last.lines] else [];
      assert FilterMap(dir, IsContextDataFile(), LinesOf()) == FilterMap(init, IsContextDataFile(), LinesOf()) + chosen;
      FlattenAppend(FilterMap(init, IsContextDataFile(), LinesOf()), chosen);
      assert Flatten(chosen) == (if IsContextFile(last.name) then last.lines else []) by {
        if chosen != [] {
          assert chosen[..0] == [];
        }
      }
    }
  }

  /** What compile_data returns for a data source: the question lines, the
      context lines, or the question lines followed by the context lines. */
  function CompiledData(source: string, questionLines: seq<string>, dir: seq<DataFile>): (data: seq<string>)
    ensures source == HotpotQuestions ==> data == questionLines
    ensures source == HotpotContexts ==> data == ContextLines(dir)
    ensures source == HotpotFull ==> data == questionLines + ContextLines(dir)
    ensures source !in Datasets ==> data == []
  {
    (if source in [HotpotFull, HotpotQuestions] then questionLines else [])
    + (if source in [HotpotFull, HotpotContexts] then ContextLines(dir) else [])
  }

  /** compile_data, with the question file's lines and the data directory's
      files given. */
  method CompileData(source: string, questionLines: seq<string>, dir: seq<DataFile>) returns (data: seq<string>)
    ensures data == CompiledData(source, questionLines, dir)
  {
    data := [];
    if source in [HotpotFull, HotpotQuestions] {
      for i := 0 to |questionLines|
        invariant data == questionLines[..i]
      {
        data := data + [questionLines[i]];
      }
      assert questionLines[..|questionLines|] == questionLines;
    }
    ghost var start := data;
    if source in [HotpotFull, HotpotContexts] {
      for i := 0 to |dir|
        invariant data == start + ContextLines(dir[..i])
      {
        assert dir[..i + 1][..i] == dir[..i];
        var file := dir[i];
        if StartsWith(file.name, "hotpot") && Contains(file.name, "contexts") {
          ghost var before := data;
          for j := 0 to |file.lines|
            invariant data == before + file.lines[..j]
          {
            data := data + [file.lines[j]];
          }
          assert file.lines[..|file.lines|] == file.lines;
        }
      }
      assert dir[..|dir|] == dir;
    }
  }

  // ------------------------------------------------------ the search term

  /** `text_input(...).strip().replace("*", "[\w|-]+")`. */
  function TranslateQuery(raw: string): (query: string)
    ensures '*' !in query
    ensures '*' !in Strip(raw) ==> query == Strip(raw)
    ensures query == [] <==> Strip(raw) == []
  {
    Replace(Strip(raw), '*', Wildcard)
  }

  /** `r"\b" + query + r"\b"`: the search term anchored at word boundaries. */
  function PatternText(query: string): (pattern: string)
    ensures |pattern| == |query| + 4
    ensures pattern[..2] == WordBoundary && pattern[|pattern| - 2..] == WordBoundary
    ensures pattern[2..|pattern| - 2] == query
  {
    WordBoundary + query + WordBoundary
  }

  // ----------------------------------------------------------- find_matches

  /** The Counter key of a match: lower-cased when the search ignores case. */
  function CounterKey(m: string, ignoreCase: bool): string {
    if ignoreCase then Lower(m) else m
  }

  /** The Counter keys of the matches of one entry. */
  function CounterKeys(matches: seq<string>, ignoreCase: bool): seq<string> {
    seq(|matches|, j requires 0 <= j < |matches| => CounterKey(matches[j], ignoreCase))
  }

  /** The Counter after the loop: every match of every entry, once per occurrence. */
  function Tally(data: seq<string>, pattern: string, ignoreCase: bool, findAll: FindAll): multiset<string> {
    if data == [] then multiset{}
    else
      Tally(data[..|data| - 1], pattern, ignoreCase, findAll)
      + multiset(CounterKeys(findAll(pattern, ignoreCase, data[|data| - 1]), ignoreCase))
  }

  /** One more entry of the loop that Tally describes. */
  lemma TallyStep(data: seq<string>, i: nat, pattern: string, ignoreCase: bool, findAll: FindAll)
    requires i < |data|
    ensures Tally(data[..i + 1], pattern, ignoreCase, findAll)
         == Tally(data[..i], pattern, ignoreCase, findAll) + multiset(CounterKeys(findAll(pattern, ignoreCase, data[i]), ignoreCase))
  {
    assert data[..i + 1][..i] == data[..i];
  }

  /** Whether an entry has at least one match. */
  function HasMatch(pattern: string, ignoreCase: bool, findAll: FindAll): string -> bool {
    (entry: string) => findAll(pattern, ignoreCase, entry) != []
  }

  /** match_contexts after the loop. */
  function MatchingEntries(data: seq<string>, pattern: string, ignoreCase: bool, findAll: FindAll): seq<string> {
    FilterMap(data, HasMatch(pattern, ignoreCase, findAll), (entry: string) => entry)
  }

  /** The inner loop of find_matches: one Counter update per match. */
  method CountMatches(counts: multiset<string>, found: seq<string>, ignoreCase: bool) returns (matchCounts: multiset<string>)
    ensures matchCounts == counts + multiset(CounterKeys(found, ignoreCase))
  {
    matchCounts := counts;
    for j := 0 to |found|
      invariant matchCounts == counts + multiset(CounterKeys(found[..j], ignoreCase))
    {
      assert CounterKeys(found[..j + 1], ignoreCase) == CounterKeys(found[..j], ignoreCase) + [CounterKey(found[j], ignoreCase)];
      var m := found[j];
      if ignoreCase {
        matchCounts := matchCounts + multiset{Lower(m)};
      } else {
        matchCounts := matchCounts + multiset{m};
      }
    }
    assert found[..|found|] == found;
  }

  /** The loop of find_matches over already compiled data. */
  method MatchLoop(data: seq<string>, queryRe: string, ignoreCase: bool, findAll: FindAll)
    returns (matchCounts: multiset<string>, matchContexts: seq<string>)
    ensures matchCounts == Tally(data, queryRe, ignoreCase, findAll)
    ensures matchContexts == MatchingEntries(data, queryRe, ignoreCase, findAll)
  {
    matchCounts := multiset{};
    matchContexts := [];
    ghost var hasMatch, same := HasMatch(queryRe, ignoreCase, findAll), (entry: string) => entry;
    for i := 0 to |data|
      invariant matchCounts == Tally(data[..i], queryRe, ignoreCase, findAll)
      invariant matchContexts == FilterMap(data[..i], hasMatch, same)
    {
      FilterMapStep(data, i, hasMatch, same);
      TallyStep(data, i, queryRe, ignoreCase, findAll);
      var entry := data[i];
      var found := findAll(queryRe, ignoreCase, entry);
      assert hasMatch(entry) == (found != []);
      if found != [] {
        matchCounts := CountMatches(matchCounts, found, ignoreCase);
        matchContexts := matchContexts + [entry];
      } else {
        assert CounterKeys(found, ignoreCase) == [];
      }
    }
    assert data[..|data|] == data;
  }

  /** What find_matches ends with: re.error from re.compile, or the Counter
      and the matching entries. */
  datatype Matches =
    | PatternError
    | Found(matchCounts: multiset<string>, matchContexts: seq<string>)

  /** find_matches: compile the data source, anchor the query, compile the
      pattern (which may raise re.error), run the loop. */
  method FindMatches(query: string, ignoreCase: bool, source: string, questionLines: seq<string>, dir: seq<DataFile>,
                     compiles: Compiles, findAll: FindAll)
    returns (r: Matches)
    ensures r.PatternError? <==> !compiles(PatternText(query))
    ensures r.Found? ==>
      && r.matchCounts == Tally(CompiledData(source, questionLines, dir), PatternText(query), ignoreCase, findAll)
      && r.matchContexts == MatchingEntries(CompiledData(source, questionLines, dir), PatternText(query), ignoreCase, findAll)
  {
    var data := CompileData(source, questionLines, dir);
    var queryRe := WordBoundary + query + WordBoundary;
    if !compiles(queryRe) {
      return PatternError;
    }
    var matchCounts, matchContexts := MatchLoop(data, queryRe, ignoreCase, findAll);
    return Found(matchCounts, matchContexts);
  }

  // ------------------------------------------------- what find_matches means

  /** Every match of every entry, in corpus order. */
  function AllMatches(data: seq<string>, pattern: string, ignoreCase: bool, findAll: FindAll): seq<string> {
    if data == [] then []
    else AllMatches(data[..|data| - 1], pattern, ignoreCase, findAll) + findAll(pattern, ignoreCase, data[|data| - 1])
  }

  /** match_contexts lists, in corpus order and once each, exactly the entries
      with at least one match. */
  lemma MatchingEntriesSelected(data: seq<string>, pattern: string, ignoreCase: bool, findAll: FindAll)
    ensures var idx := Select(data, HasMatch(pattern, ignoreCase, findAll));
      && |MatchingEntries(data, pattern, ignoreCase, findAll)| == |idx| <= |data| && Increasing(idx)
      && (forall k :: 0 <= k < |idx| ==> idx[k] < |data| && MatchingEntries(data, pattern, ignoreCase, findAll)[k] == data[idx[k]])
      && (forall i :: 0 <= i < |data| ==> (i in idx <==> findAll(pattern, ignoreCase, data[i]) != []))
  {
    FilterMapSelects(data, HasMatch(pattern, ignoreCase, findAll), (entry: string) => entry);
  }

  /** The counts add up to the number of matches, which is at least the
      number of matching entries. */
  lemma {:induction false} TallyCountsEveryMatch(data: seq<string>, pattern: string, ignoreCase: bool, findAll: FindAll)
    ensures |Tally(data, pattern, ignoreCase, findAll)| == |AllMatches(data, pattern, ignoreCase, findAll)|
    ensures |Tally(data, pattern, ignoreCase, findAll)| >= |MatchingEntries(data, pattern, ignoreCase, findAll)|
  {
    if data != [] {
      TallyCountsEveryMatch(data[..|data| - 1], pattern, ignoreCase, findAll);
    }
  }

  /** Ignoring case, every Counter key is lower case. */
  lemma {:induction false} IgnoreCaseKeysAreLower(data: seq<string>, pattern: string, findAll: FindAll)
    ensures forall k :: k in Tally(data, pattern, true, findAll) ==> IsLower(k)
  {
    if data != [] {
      IgnoreCaseKeysAreLower(data[..|data| - 1], pattern, findAll);
      var keys := CounterKeys(findAll(pattern, true, data[|data| - 1]), true);
      assert forall k :: k in multiset(keys) ==> k in keys;
    }
  }

  /** Matching case, the Counter holds the matched strings verbatim, each as
      often as it was matched. */
  lemma {:induction false} CaseSensitiveKeysAreVerbatim(data: seq<string>, pattern: string, findAll: FindAll)
    ensures Tally(data, pattern, false, findAll) == multiset(AllMatches(data, pattern, false, findAll))
  {
    if data != [] {
      CaseSensitiveKeysAreVerbatim(data[..|data| - 1], pattern, findAll);
      var ms := findAll(pattern, false, data[|data| - 1]);
      assert CounterKeys(ms, false) == ms;
    }
  }

  // ------------------------------------------------------------ statistics

  /** Python's `<` on str: code point by code point, a proper prefix first. */
  predicate StrLess(a: string, b: string) {
    if a == [] then b != []
    else b != [] && (if a[0] == b[0] then StrLess(a[1..], b[1..]) else a[0] < b[0])
  }

  lemma {:induction false} StrLessIrreflexive(a: string)
    ensures !StrLess(a, a)
  {
    if a != [] {
      StrLessIrreflexive(a[1..]);
    }
  }

  lemma {:induction false} StrLessTransitive(a: string, b: string, c: string)
    requires StrLess(a, b) && StrLess(b, c)
    ensures StrLess(a, c)
  {
    if a != [] && a[0] == b[0] && b[0] == c[0] {
      StrLessTransitive(a[1..], b[1..], c[1..]);
    }
  }

  lemma {:induction false} StrLessTotal(a: string, b: string)
    requires a != b
    ensures StrLess(a, b) || StrLess(b, a)
  {
    if a != [] && b != [] && a[0] == b[0] {
      assert a == [a[0]] + a[1..] && b == [b[0]] + b[1..];
      StrLessTotal(a[1..], b[1..]);
    }
  }

  /** One row of the statistics table. */
  datatype StatsRow = StatsRow(matched: string, count: nat)

  /** `sort_values(by=["count", "match"], ascending=False)`: x comes before y. */
  predicate RanksAbove(x: StatsRow, y: StatsRow) {
    x.count > y.count || (x.count == y.count && StrLess(y.matched, x.matched))
  }

  lemma RanksAboveIrreflexive(x: StatsRow)
    ensures !RanksAbove(x, x)
  {
    StrLessIrreflexive(x.matched);
  }

  lemma RanksAboveTransitive(x: StatsRow, y: StatsRow, z: StatsRow)
    requires RanksAbove(x, y) && RanksAbove(y, z)
    ensures RanksAbove(x, z)
  {
    if x.count == y.count == z.count {
      StrLessTransitive(z.matched, y.matched, x.matched);
    }
  }

  lemma RanksAboveTotal(x: StatsRow, y: StatsRow)
    requires x.matched != y.matched
    ensures RanksAbove(x, y) || RanksAbove(y, x)
  {
    StrLessTotal(x.matched, y.matched);
  }

  predicate SortedStats(rows: seq<StatsRow>) {
    forall i, j :: 0 <= i < j < |rows| ==> RanksAbove(rows[i], rows[j])
  }

  /** The rows are the Counter's items: every key once, with its count. */
  predicate Tabulates(rows: seq<StatsRow>, counts: multiset<string>) {
    && (forall i :: 0 <= i < |rows| ==> rows[i].matched in counts && rows[i].count == counts[rows[i].matched])
    && (forall k :: k in counts ==> exists i :: 0 <= i < |rows| && rows[i].matched == k)
  }

  /** Puts a row with a new match into its place in a sorted table. */
  function InsertRow(rows: seq<StatsRow>, row: StatsRow): (r: seq<StatsRow>)
    requires SortedStats(rows)
    requires forall i :: 0 <= i < |rows| ==> rows[i].matched != row.matched
    ensures |r| == |rows| + 1 && SortedStats(r)
    ensures forall i :: 0 <= i < |r| ==> r[i] == row || r[i] in rows
    ensures row in r && forall i :: 0 <= i < |rows| ==> rows[i] in r
  {
    if rows == [] then [row]
    else if RanksAbove(row, rows[0]) then
      AboveAll(row, rows);
      [row] + rows
    else
      var tail := InsertRow(rows[1..], row);
      RanksAboveTotal(rows[0], row);
      HeadAboveInserted(rows, row, tail);
      [rows[0]] + tail
  }

  lemma AboveAll(row: StatsRow, rows: seq<StatsRow>)
    requires rows != [] && SortedStats(rows) && RanksAbove(row, rows[0])
    ensures SortedStats([row] + rows)
  {
    forall j | 0 < j < |rows|
      ensures RanksAbove(row, rows[j])
    {
      RanksAboveTransitive(row, rows[0], rows[j]);
    }
  }

  lemma HeadAboveInserted(rows: seq<StatsRow>, row: StatsRow, tail: seq<StatsRow>)
    requires rows != [] && SortedStats(rows) && RanksAbove(rows[0], row)
    requires SortedStats(tail)
    requires forall i :: 0 <= i < |tail| ==> tail[i] == row || tail[i] in rows[1..]
    ensures SortedStats([rows[0]] + tail)
  {
    forall j | 0 <= j < |tail|
      ensures RanksAbove(rows[0], tail[j])
    {
      if tail[j] != row {
        var k :| 0 <= k < |rows[1..]| && rows[1..][k] == tail[j];
        assert rows[k + 1] == tail[j];
      }
    }
  }

  /** The statistics table built from the Counter: each key is added to the
      sorted table in turn. Which key goes first does not matter, as
      StatsTableUnique shows. */
  ghost function StatsTable(counts: multiset<string>): (rows: seq<StatsRow>)
    ensures SortedStats(rows) && Tabulates(rows, counts)
    decreases |counts|
  {
    if counts == multiset{} then []
    else
      var key :| key in counts;
      var table := StatsTable(counts[key := 0]);
      var r := InsertRow(table, StatsRow(key, counts[key]));
      InsertTabulates(counts, key, table, r);
      r
  }

  lemma InsertTabulates(counts: multiset<string>, key: string, table: seq<StatsRow>, r: seq<StatsRow>)
    requires key in counts && Tabulates(table, counts[key := 0])
    requires forall i :: 0 <= i < |r| ==> r[i] == StatsRow(key, counts[key]) || r[i] in table
    requires StatsRow(key, counts[key]) in r && forall i :: 0 <= i < |table| ==> table[i] in r
    ensures Tabulates(r, counts)
  {
    forall k | k in counts
      ensures exists i :: 0 <= i < |r| && r[i].matched == k
    {
      if k == key {
        var i :| 0 <= i < |r| && r[i] == StatsRow(key, counts[key]);
      } else {
        assert k in counts[key := 0];
        var j :| 0 <= j < |table| && table[j].matched == k;
        var i :| 0 <= i < |r| && r[i] == table[j];
      }
    }
  }

  /** A sorted table of a Counter's items has each match on one row only. */
  lemma DistinctMatches(rows: seq<StatsRow>, counts: multiset<string>)
    requires SortedStats(rows) && Tabulates(rows, counts)
    ensures forall i, j :: 0 <= i < j < |rows| ==> rows[i].matched != rows[j].matched
  {
    forall i, j | 0 <= i < j < |rows|
      ensures rows[i].matched != rows[j].matched
    {
      if rows[i].matched == rows[j].matched {
        assert rows[i] == rows[j];
        RanksAboveIrreflexive(rows[i]);
      }
    }
  }

  /** The first row of a sorted table of a Counter's items. */
  lemma SameHead(a: seq<StatsRow>, b: seq<StatsRow>, counts: multiset<string>)
    requires SortedStats(a) && Tabulates(a, counts)
    requires SortedStats(b) && Tabulates(b, counts)
    requires a != []
    ensures b != [] && a[0] == b[0]
  {
    assert a[0].matched in counts;
    var j :| 0 <= j < |b| && b[j].matched == a[0].matched;
    var i :| 0 <= i < |a| && a[i].matched == b[0].matched;
    if j != 0 {
      assert RanksAbove(b[0], a[0]);
      if i == 0 {
        RanksAboveIrreflexive(a[0]);
      } else {
        RanksAboveTransitive(a[0], b[0], a[0]);
        RanksAboveIrreflexive(a[0]);
      }
    }
  }

  /** Without its first row, a sorted table tabulates the rest of the Counter. */
  lemma TailTabulates(a: seq<StatsRow>, counts: multiset<string>)
    requires a != [] && SortedStats(a) && Tabulates(a, counts)
    ensures SortedStats(a[1..]) && Tabulates(a[1..], counts[a[0].matched := 0])
  {
    DistinctMatches(a, counts);
    var tail, rest := a[1..], counts[a[0].matched := 0];
    forall i, j | 0 <= i < j < |tail|
      ensures RanksAbove(tail[i], tail[j])
    {
      assert tail[i] == a[i + 1] && tail[j] == a[j + 1];
    }
    forall i | 0 <= i < |tail|
      ensures tail[i].matched in rest && tail[i].count == rest[tail[i].matched]
    {
      assert tail[i] == a[i + 1];
      assert a[0].matched != a[i + 1].matched;
    }
    forall k | k in rest
      ensures exists i :: 0 <= i < |tail| && tail[i].matched == k
    {
      var i :| 0 <= i < |a| && a[i].matched == k;
      assert tail[i - 1].matched == k;
    }
  }

  /** Two sorted tables of a Counter's items start with the same row, and
      without it they tabulate the rest of the Counter. */
  lemma UniqueStep(a: seq<StatsRow>, b: seq<StatsRow>, counts: multiset<string>)
    requires SortedStats(a) && Tabulates(a, counts)
    requires SortedStats(b) && Tabulates(b, counts)
    requires a != []
    ensures b != [] && a[0] == b[0]
    ensures SortedStats(a[1..]) && Tabulates(a[1..], counts[a[0].matched := 0])
    ensures SortedStats(b[1..]) && Tabulates(b[1..], counts[a[0].matched := 0])
  {
    SameHead(a, b, counts);
    TailTabulates(a, counts);
    TailTabulates(b, counts);
  }

  /** A sorted table of a Counter's items is unique: the page shows one
      definite order. */
  lemma {:induction false} StatsTableUnique(a: seq<StatsRow>, b: seq<StatsRow>, counts: multiset<string>)
    requires SortedStats(a) && Tabulates(a, counts)
    requires SortedStats(b) && Tabulates(b, counts)
    ensures a == b
    decreases |a|
  {
    if a == [] {
      if b != [] {
        SameHead(b, a, counts);
      }
    } else {
      UniqueStep(a, b, counts);
      StatsTableUnique(a[1..], b[1..], counts[a[0].matched := 0]);
      assert a == [a[0]] + a[1..];
      assert b == [b[0]] + b[1..];
    }
  }

  // ---------------------------------------------------------------- the page

  /** `match_contexts[:200]`: the first matching entries, at most 200. */
  function Displayed(matchContexts: seq<string>): (shown: seq<string>)
    ensures |shown| == if |matchContexts| < DisplayCap then |matchContexts| else DisplayCap
    ensures shown == matchContexts[..|shown|]
  {
    if |matchContexts| <= DisplayCap then matchContexts else matchContexts[..DisplayCap]
  }

  /** The page after a search term is typed: nothing for a blank term, the
      re.error exception for a term that is not a valid pattern, otherwise
      the counts, the matching entries and the displayed ones. */
  datatype Page =
    | NoSearch
    | SearchError
    | Results(matchCounts: multiset<string>, matchContexts: seq<string>, shown: seq<string>)

  method Search(rawQuery: string, caseSensitive: bool, source: string, questionLines: seq<string>, dir: seq<DataFile>,
                compiles: Compiles, findAll: FindAll)
    returns (page: Page)
    ensures page.NoSearch? <==> Strip(rawQuery) == []
    ensures page.SearchError? <==> Strip(rawQuery) != [] && !compiles(PatternText(TranslateQuery(rawQuery)))
    ensures page.Results? ==>
      var data, pattern := CompiledData(source, questionLines, dir), PatternText(TranslateQuery(rawQuery));
      && page.matchCounts == Tally(data, pattern, !caseSensitive, findAll)
      && page.matchContexts == MatchingEntries(data, pattern, !caseSensitive, findAll)
      && page.shown == Displayed(page.matchContexts)
  {
    var ignoreCase := !caseSensitive;
    var query := Replace(Strip(rawQuery), '*', Wildcard);
    if query == [] {
      return NoSearch;
    }
    var matches := FindMatches(query, ignoreCase, source, questionLines, dir, compiles, findAll);
    if matches.PatternError? {
      return SearchError;
    }
    var matchCounts, matchContexts := matches.matchCounts, matches.matchContexts;
    var shown := if |matchContexts| <= DisplayCap then matchContexts else matchContexts[..DisplayCap];
    return Results(matchCounts, matchContexts, shown);
  }
}

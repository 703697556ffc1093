/** import_benchmark_data of benchmark_import.py: flattens a parsed DROP,
    HotpotQA or SQuAD 2.0 file into one extraction dict per test case, holding
    only the requested labels, and optionally regroups the extractions into one
    list per key. */
module BenchmarkImport {
  import opened BenchmarkJson
  import opened Text
  import opened Seqs

  /** A value of an extraction dict: "titles" holds the grouping's title
      string itself, "contexts" and "questions" hold lists of strings. */
  datatype Field = Title(title: string) | Texts(texts: seq<string>)

  /** One test case: a dict from key to field. */
  type Extraction = map<string, Field>

  /** The two return shapes: the list of test cases, or a dict from key to
      the list of all such content across the test cases. */
  datatype Organised = Cases(cases: seq<Extraction>) | Content(content: map<string, seq<string>>)

  const DefaultInclusions: seq<string> := ["titles", "contexts", "questions"]

  /** The labels named in inclusions (a Python list searched with `in`). */
  function Labels(inclusions: seq<string>): set<string> {
    set l | l in inclusions
  }

  // ---------------------------------------------------------------- DROP

  /** The extraction of one DROP test case. */
  function DropExtraction(c: DropCase, inclusions: seq<string>): (e: Extraction)
    ensures e.Keys == Labels(inclusions) * {"contexts", "questions"}
    ensures "contexts" in e ==> e["contexts"] == Texts([Strip(c.passage)])
    ensures "questions" in e ==> e["questions"].Texts? && |e["questions"].texts| == |c.questions|
    ensures "questions" in e ==> forall j :: 0 <= j < |c.questions| ==> e["questions"].texts[j] == Strip(c.questions[j])
  {
    var e := if "contexts" in inclusions then map["contexts" := Texts([Strip(c.passage)])] else map[];
    if "questions" in inclusions then e["questions" := Texts(StripEach(c.questions))] else e
  }

  /** The body of the DROP loop: the extraction dict built label by label. */
  method ExtractDropCase(testCase: DropCase, inclusions: seq<string>) returns (extraction: Extraction)
    ensures extraction == DropExtraction(testCase, inclusions)
  {
    extraction := map[];
    if "contexts" in inclusions {
      extraction := extraction["contexts" := Texts([Strip(testCase.passage)])];
    }
    if "questions" in inclusions {
      extraction := extraction["questions" := Texts(StripEach(testCase.questions))];
    }
  }

  /** The DROP loop: one extraction per test case, in file order. */
  method ExtractDrop(cases: seq<DropCase>, inclusions: seq<string>) returns (caseData: seq<Extraction>)
    ensures |caseData| == |cases|
    ensures forall i :: 0 <= i < |cases| ==> caseData[i] == DropExtraction(cases[i], inclusions)
  {
    caseData := [];
    for i := 0 to |cases|
      invariant |caseData| == i
      invariant forall k :: 0 <= k < i ==> caseData[k] == DropExtraction(cases[k], inclusions)
    {
      var extraction := ExtractDropCase(cases[i], inclusions);
      caseData := caseData + [extraction];
    }
  }

  // ------------------------------------------------------------ HotpotQA

  /** Whether a context is kept: every one with distractors, otherwise those
      whose name is among the supporting-fact names. */
  function KeepContext(c: HotpotCase, distractors: bool): NamedContext -> bool {
    var titles := SupportingNames(c.supportingFacts);
    (x: NamedContext) => distractors || x.name in titles
  }

  /** The space-joined sentences of each kept context, in context order (the
      two list comprehensions of the source). */
  function HotpotContexts(c: HotpotCase, distractors: bool): seq<string> {
    FilterMap(c.context, KeepContext(c, distractors), (x: NamedContext) => Join(" ", x.sentences))
  }

  /** Without distractors exactly the supporting contexts are kept, in order;
      with distractors every context is. */
  lemma HotpotContextsSelected(c: HotpotCase, distractors: bool)
    ensures var idx := Select(c.context, KeepContext(c, distractors));
      && |HotpotContexts(c, distractors)| == |idx| && Increasing(idx)
      && (forall k :: 0 <= k < |idx| ==>
            idx[k] < |c.context| && HotpotContexts(c, distractors)[k] == Join(" ", c.context[idx[k]].sentences))
      && (forall i :: 0 <= i < |c.context| ==>
            (i in idx <==> distractors || c.context[i].name in SupportingNames(c.supportingFacts)))
    ensures distractors ==> |HotpotContexts(c, distractors)| == |c.context|
  {
    FilterMapSelects(c.context, KeepContext(c, distractors), (x: NamedContext) => Join(" ", x.sentences));
    if distractors {
      FilterMapKeepsAll(c.context, KeepContext(c, distractors), (x: NamedContext) => Join(" ", x.sentences));
    }
  }

  /** The extraction of one HotpotQA test case. */
  function HotpotExtraction(c: HotpotCase, inclusions: seq<string>, distractors: bool): (e: Extraction)
    ensures e.Keys == Labels(inclusions) * {"contexts", "questions"}
    ensures "contexts" in e ==> e["contexts"] == Texts(HotpotContexts(c, distractors))
    ensures "questions" in e ==> e["questions"] == Texts([Strip(c.question)])
  {
    var e := if "contexts" in inclusions then map["contexts" := Texts(HotpotContexts(c, distractors))] else map[];
    if "questions" in inclusions then e["questions" := Texts([Strip(c.question)])] else e
  }

  /** The body of the HotpotQA loop after the level test: the extraction dict built label by label. */
  method ExtractHotpotCase(testCase: HotpotCase, inclusions: seq<string>, distractors: bool) returns (extraction: Extraction)
    ensures extraction == HotpotExtraction(testCase, inclusions, distractors)
  {
    extraction := map[];
    if "contexts" in inclusions {
      extraction := extraction["contexts" := Texts(HotpotContexts(testCase, distractors))];
    }
    if "questions" in inclusions {
      extraction := extraction["questions" := Texts([Strip(testCase.question)])];
    }
  }

  /** Whether a test case passes the difficulty filter. */
  function KeepLevel(levels: seq<string>): HotpotCase -> bool {
    (c: HotpotCase) => c.level in levels
  }

  /** What the HotpotQA loop appends, in file order. */
  function HotpotCases(cases: seq<HotpotCase>, inclusions: seq<string>, levels: seq<string>, distractors: bool): seq<Extraction> {
    FilterMap(cases, KeepLevel(levels), (c: HotpotCase) => HotpotExtraction(c, inclusions, distractors))
  }

  /** A test case is extracted if and only if its level is among the
      requested levels, and the extractions keep file order. */
  lemma HotpotLevelFilter(cases: seq<HotpotCase>, inclusions: seq<string>, levels: seq<string>, distractors: bool)
    ensures var idx := Select(cases, KeepLevel(levels));
      && |HotpotCases(cases, inclusions, levels, distractors)| == |idx| && Increasing(idx)
      && (forall k :: 0 <= k < |idx| ==>
            idx[k] < |cases| && HotpotCases(cases, inclusions, levels, distractors)[k] == HotpotExtraction(cases[idx[k]], inclusions, distractors))
      && (forall i :: 0 <= i < |cases| ==> (i in idx <==> cases[i].level in levels))
  {
    FilterMapSelects(cases, KeepLevel(levels), (c: HotpotCase) => HotpotExtraction(c, inclusions, distractors));
  }

  /** The HotpotQA loop. */
  method ExtractHotpot(cases: seq<HotpotCase>, inclusions: seq<string>, levels: seq<string>, distractors: bool)
    returns (caseData: seq<Extraction>)
    ensures caseData == HotpotCases(cases, inclusions, levels, distractors)
  {
    caseData := [];
    for i := 0 to |cases|
      invariant caseData == HotpotCases(cases[..i], inclusions, levels, distractors)
    {
      assert cases[..i + 1][..i] == cases[..i];
      var testCase := cases[i];
      if testCase.level !in levels {
        continue;
      }
      var extraction := ExtractHotpotCase(testCase, inclusions, distractors);
      caseData := caseData + [extraction];
    }
    assert cases[..|cases|] == cases;
  }

  // ------------------------------------------------------------- SQuAD 2.0

  /** The extraction of one SQuAD paragraph of the grouping titled title. */
  function SquadExtraction(title: string, p: Paragraph, inclusions: seq<string>): (e: Extraction)
    ensures e.Keys == Labels(inclusions) * {"titles", "contexts", "questions"}
    ensures "titles" in e ==> e["titles"] == Title(title)
    ensures "contexts" in e ==> e["contexts"] == Texts([Strip(p.context)])
    ensures "questions" in e ==> e["questions"].Texts? && |e["questions"].texts| == |p.questions|
    ensures "questions" in e ==> forall j :: 0 <= j < |p.questions| ==> e["questions"].texts[j] == Strip(p.questions[j])
  {
    var e := if "titles" in inclusions then map["titles" := Title(title)] else map[];
    var e := if "contexts" in inclusions then e["contexts" := Texts([Strip(p.context)])] else e;
    if "questions" in inclusions then e["questions" := Texts(StripEach(p.questions))] else e
  }

  /** The body of the inner SQuAD loop: the extraction dict built label by label. */
  method ExtractSquadCase(title: string, testCase: Paragraph, inclusions: seq<string>) returns (extraction: Extraction)
    ensures extraction == SquadExtraction(title, testCase, inclusions)
  {
    extraction := map[];
    if "titles" in inclusions {
      extraction := extraction["titles" := Title(title)];
    }
    if "contexts" in inclusions {
      extraction := extraction["contexts" := Texts([Strip(testCase.context)])];
    }
    if "questions" in inclusions {
      extraction := extraction["questions" := Texts(StripEach(testCase.questions))];
    }
  }

  /** The extractions of one grouping, one per paragraph, in order. */
  function GroupingCases(g: Grouping, inclusions: seq<string>): seq<Extraction> {
    seq(|g.paragraphs|, j requires 0 <= j < |g.paragraphs| => SquadExtraction(g.title, g.paragraphs[j], inclusions))
  }

  /** What the nested SQuAD loops append: grouping by grouping, paragraph by paragraph. */
  function SquadCases(groupings: seq<Grouping>, inclusions: seq<string>): seq<Extraction> {
    if groupings == [] then []
    else SquadCases(groupings[..|groupings| - 1], inclusions) + GroupingCases(groupings[|groupings| - 1], inclusions)
  }

  /** One extraction per paragraph. */
  lemma {:induction false} SquadCasesCount(groupings: seq<Grouping>, inclusions: seq<string>)
    ensures |SquadCases(groupings, inclusions)| == ParagraphCount(groupings)
  {
    if groupings != [] {
      SquadCasesCount(groupings[..|groupings| - 1], inclusions);
    }
  }

  /** The extractions of earlier groupings come first. */
  lemma {:induction false} SquadCasesConcatenate(a: seq<Grouping>, b: seq<Grouping>, inclusions: seq<string>)
    ensures SquadCases(a + b, inclusions) == SquadCases(a, inclusions) + SquadCases(b, inclusions)
  {
    if b == [] {
      assert a + b == a;
    } else {
      var b' := b[..|b| - 1];
      assert (a + b)[..|a + b| - 1] == a + b';
      SquadCasesConcatenate(a, b', inclusions);
      calc {
        SquadCases(a + b, inclusions);
        SquadCases(a + b', inclusions) + GroupingCases(b[|b| - 1], inclusions);
        SquadCases(a, inclusions) + SquadCases(b', inclusions) + GroupingCases(b[|b| - 1], inclusions);
        SquadCases(a, inclusions) + SquadCases(b, inclusions);
      }
    }
  }

  /** The nested SQuAD loops. */
  method ExtractSquad(groupings: seq<Grouping>, inclusions: seq<string>) returns (caseData: seq<Extraction>)
    ensures caseData == SquadCases(groupings, inclusions)
  {
    caseData := [];
    for i := 0 to |groupings|
      invariant caseData == SquadCases(groupings[..i], inclusions)
    {
      assert groupings[..i + 1][..i] == groupings[..i];
      var grouping := groupings[i];
      ghost var before := caseData;
      for j := 0 to |grouping.paragraphs|
        invariant caseData == before + GroupingCases(grouping, inclusions)[..j]
      {
        var extraction := ExtractSquadCase(grouping.title, grouping.paragraphs[j], inclusions);
        assert GroupingCases(grouping, inclusions)[..j + 1] == GroupingCases(grouping, inclusions)[..j] + [extraction];
        caseData := caseData + [extraction];
      }
      assert GroupingCases(grouping, inclusions)[..|grouping.paragraphs|] == GroupingCases(grouping, inclusions);
    }
    assert groupings[..|groupings|] == groupings;
  }

  // ------------------------------------------------- organise_by == "content"

  /** What `list.extend(value)` appends: the items of a list, or the single
      characters of a title string. */
  function Elements(f: Field): (r: seq<string>)
    ensures f.Title? ==> |r| == |f.title| && forall i :: 0 <= i < |f.title| ==> r[i] == [f.title[i]]
    ensures f.Texts? ==> r == f.texts
  {
    match f
    case Title(t) => seq(|t|, i requires 0 <= i < |t| => [t[i]])
    case Texts(ts) => ts
  }

  /** The content of one key over the test cases, in test-case order. */
  function Gathered(caseData: seq<Extraction>, key: string): seq<string> {
    if caseData == [] then []
    else
      var last := caseData[|caseData| - 1];
      Gathered(caseData[..|caseData| - 1], key) + (if key in last then Elements(last[key]) else [])
  }

  /** The regrouped dict: one list per requested key. */
  function ContentData(caseData: seq<Extraction>, inclusions: seq<string>): (content: map<string, seq<string>>)
    ensures content.Keys == Labels(inclusions)
  {
    map l | l in inclusions :: Gathered(caseData, l)
  }

  /** The regrouping loops: start from an empty list per requested key, then
      extend the list of every key of every test case. */
  method OrganiseByContent(caseData: seq<Extraction>, inclusions: seq<string>) returns (content: map<string, seq<string>>)
    requires forall i :: 0 <= i < |caseData| ==> caseData[i].Keys <= Labels(inclusions)
    ensures content == ContentData(caseData, inclusions)
  {
    content := map l | l in inclusions :: [];
    for i := 0 to |caseData|
      invariant content == ContentData(caseData[..i], inclusions)
    {
      assert caseData[..i + 1][..i] == caseData[..i];
      var testCase := caseData[i];
      ghost var before := content;
      var labels := testCase.Keys;
      while labels != {}
        invariant labels <= testCase.Keys
        invariant content.Keys == before.Keys
        invariant forall l :: l in content ==>
          content[l] == before[l] + (if l in testCase && l !in labels then Elements(testCase[l]) else [])
        decreases labels
      {
        var key :| key in labels;
        content := content[key := content[key] + Elements(testCase[key])];
        labels := labels - {key};
      }
    }
    assert caseData[..|caseData|] == caseData;
  }

  // ------------------------------------------------------------ the whole

  /** The test cases of a benchmark file read as benchmarkName. */
  function CaseData(source: Source, benchmarkName: string, inclusions: seq<string>, levels: seq<string>, distractors: bool)
    : Result<seq<Extraction>>
  {
    if benchmarkName == "drop" then
      if source.DropFile? then
        Success(seq(|source.drop|, i requires 0 <= i < |source.drop| => DropExtraction(source.drop[i], inclusions)))
      else Failure(ShapeMismatch)
    else if benchmarkName == "hotpot" then
      if source.HotpotFile? then Success(HotpotCases(source.hotpot, inclusions, levels, distractors))
      else Failure(ShapeMismatch)
    else if benchmarkName == "squad2" then
      if source.SquadFile? then Success(SquadCases(source.data, inclusions))
      else Failure(ShapeMismatch)
    else Success([])
  }

  /** What import_benchmark_data returns. */
  function BenchmarkData(source: Source, benchmarkName: string, inclusions: seq<string>, organiseBy: string,
                         levels: seq<string>, distractors: bool): Result<Organised>
  {
    match CaseData(source, benchmarkName, inclusions, levels, distractors)
    case Failure(e) => Failure(e)
    case Success(cases) =>
      if organiseBy == "content" then Success(Content(ContentData(cases, inclusions))) else Success(Cases(cases))
  }

  /** import_benchmark_data, after the file has been parsed. */
  method ImportBenchmarkData(source: Source, benchmarkName: string, inclusions: seq<string> := DefaultInclusions,
                             organiseBy: string := "cases", hotpotLevels: seq<string> := ["hard"],
                             hotpotDistractors: bool := false)
    returns (r: Result<Organised>)
    ensures r == BenchmarkData(source, benchmarkName, inclusions, organiseBy, hotpotLevels, hotpotDistractors)
  {
    var caseData: seq<Extraction> := [];
    if benchmarkName == "drop" {
      if !source.DropFile? {
        return Failure(ShapeMismatch);
      }
      caseData := ExtractDrop(source.drop, inclusions);
      assert caseData == seq(|source.drop|, i requires 0 <= i < |source.drop| => DropExtraction(source.drop[i], inclusions));
    } else if benchmarkName == "hotpot" {
      if !source.HotpotFile? {
        return Failure(ShapeMismatch);
      }
      caseData := ExtractHotpot(source.hotpot, inclusions, hotpotLevels, hotpotDistractors);
    } else if benchmarkName == "squad2" {
      if !source.SquadFile? {
        return Failure(ShapeMismatch);
      }
      caseData := ExtractSquad(source.data, inclusions);
    }
    ExtractionKeysWithinInclusions(source, benchmarkName, inclusions, hotpotLevels, hotpotDistractors);
    if organiseBy == "content" {
      var content := OrganiseByContent(caseData, inclusions);
      return Success(Content(content));
    }
    return Success(Cases(caseData));
  }

  // ------------------------------------------------------------ properties

  /** An extraction holds a key only if it was requested. */
  lemma ExtractionKeysWithinInclusions(source: Source, benchmarkName: string, inclusions: seq<string>,
                                       levels: seq<string>, distractors: bool)
    ensures CaseData(source, benchmarkName, inclusions, levels, distractors).Success? ==>
      var cases := CaseData(source, benchmarkName, inclusions, levels, distractors).value;
      forall i :: 0 <= i < |cases| ==> cases[i].Keys <= Labels(inclusions)
  {
    if benchmarkName == "hotpot" && source.HotpotFile? {
      HotpotLevelFilter(source.hotpot, inclusions, levels, distractors);
    } else if benchmarkName == "squad2" && source.SquadFile? {
      SquadKeysWithinInclusions(source.data, inclusions);
    }
  }

  lemma {:induction false} SquadKeysWithinInclusions(groupings: seq<Grouping>, inclusions: seq<string>)
    ensures forall i :: 0 <= i < |SquadCases(groupings, inclusions)| ==>
      SquadCases(groupings, inclusions)[i].Keys <= Labels(inclusions)
  {
    if groupings != [] {
      SquadKeysWithinInclusions(groupings[..|groupings| - 1], inclusions);
    }
  }

  /** Organised by content, the result has exactly the requested labels,
      each holding that key's content over all test cases in order. */
  lemma ContentHasExactlyInclusions(source: Source, benchmarkName: string, inclusions: seq<string>,
                                    levels: seq<string>, distractors: bool)
    requires CaseData(source, benchmarkName, inclusions, levels, distractors).Success?
    ensures var r := BenchmarkData(source, benchmarkName, inclusions, "content", levels, distractors);
      && r.Success? && r.value.Content?
      && r.value.content.Keys == Labels(inclusions)
      && forall l :: l in inclusions ==>
           r.value.content[l] == Gathered(CaseData(source, benchmarkName, inclusions, levels, distractors).value, l)
  {
  }

  /** An unrecognised benchmark name yields no test cases: an empty list, or
      an empty list per requested key. */
  lemma UnrecognisedBenchmarkIsEmpty(source: Source, benchmarkName: string, inclusions: seq<string>, organiseBy: string,
                                     levels: seq<string>, distractors: bool)
    requires benchmarkName !in {"drop", "hotpot", "squad2"}
    ensures var r := BenchmarkData(source, benchmarkName, inclusions, organiseBy, levels, distractors);
      && r.Success?
      && (organiseBy != "content" ==> r.value == Cases([]))
      && (organiseBy == "content" ==>
            r.value.Content? && r.value.content.Keys == Labels(inclusions) && forall l :: l in inclusions ==> r.value.content[l] == [])
  {
  }

  /** DROP yields exactly one extraction per test case, in file order. */
  lemma DropOnePerCase(cases: seq<DropCase>, inclusions: seq<string>)
    ensures var r := BenchmarkData(DropFile(cases), "drop", inclusions, "cases", [], false);
      && r.Success? && r.value.Cases? && |r.value.cases| == |cases|
      && forall i :: 0 <= i < |cases| ==> r.value.cases[i] == DropExtraction(cases[i], inclusions)
  {
  }

  /** SQuAD 2.0 yields exactly one extraction per paragraph. */
  lemma SquadOnePerParagraph(groupings: seq<Grouping>, inclusions: seq<string>)
    ensures var r := BenchmarkData(SquadFile(groupings), "squad2", inclusions, "cases", [], false);
      && r.Success? && r.value.Cases? && |r.value.cases| == ParagraphCount(groupings)
  {
    SquadCasesCount(groupings, inclusions);
  }
}

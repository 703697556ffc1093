/** import_benchmark_data of corpus_processing.py: flattens a parsed DROP,
    HotpotQA or SQuAD file into a list of entries, each a defaultdict(list)
    with the test case's stripped questions and contexts. */
module CorpusProcessing {
  import opened BenchmarkJson
  import opened Text
  import opened Seqs

  /** An entry, a `defaultdict(list)` with the keys "questions" and
      "contexts". Lists are only ever created by appending to them, so a key
      is present exactly when its list is not empty. */
  datatype Entry = Entry(questions: seq<string>, contexts: seq<string>) {
    /** The keys the defaultdict holds. */
    function Keys(): set<string> {
      (if questions == [] then {} else {"questions"}) + (if contexts == [] then {} else {"contexts"})
    }
  }

  const EmptyEntry := Entry([], [])

  // ------------------------------------------------------- DROP and SQuAD

  /** A DROP or SQuAD entry: its questions, stripped and in order, then its
      single stripped context. "questions" is present only if there was a
      question to append. */
  function QuestionsAndContext(questions: seq<string>, context: string): (e: Entry)
    ensures e.contexts == [Strip(context)]
    ensures |e.questions| == |questions|
    ensures forall j :: 0 <= j < |questions| ==> e.questions[j] == Strip(questions[j])
    ensures e.Keys() == {"contexts"} + (if questions == [] then {} else {"questions"})
  {
    Entry(StripEach(questions), [Strip(context)])
  }

  /** The question loop shared by the DROP and SQuAD branches. */
  method AddQuestions(entry: Entry, questions: seq<string>) returns (e: Entry)
    ensures e == entry.(questions := entry.questions + StripEach(questions))
  {
    e := entry;
    for j := 0 to |questions|
      invariant e == entry.(questions := entry.questions + StripEach(questions)[..j])
    {
      var question := Strip(questions[j]);
      assert StripEach(questions)[..j + 1] == StripEach(questions)[..j] + [question];
      e := e.(questions := e.questions + [question]);
    }
    assert StripEach(questions)[..|questions|] == StripEach(questions);
  }

  /** The DROP loop: one entry per test case, in file order. */
  method ImportDrop(cases: seq<DropCase>) returns (entries: seq<Entry>)
    ensures |entries| == |cases|
    ensures forall i :: 0 <= i < |cases| ==> entries[i] == QuestionsAndContext(cases[i].questions, cases[i].passage)
  {
    entries := [];
    for i := 0 to |cases|
      invariant |entries| == i
      invariant forall k :: 0 <= k < i ==> entries[k] == QuestionsAndContext(cases[k].questions, cases[k].passage)
    {
      var testCase := cases[i];
      var entry := AddQuestions(EmptyEntry, testCase.questions);
      var context := Strip(testCase.passage);
      entry := entry.(contexts := entry.contexts + [context]);
      entries := entries + [entry];
    }
  }

  /** The entries of one SQuAD topic, one per paragraph, in order. */
  function TopicEntries(topic: Grouping): seq<Entry> {
    seq(|topic.paragraphs|, j requires 0 <= j < |topic.paragraphs| =>
      QuestionsAndContext(topic.paragraphs[j].questions, topic.paragraphs[j].context))
  }

  /** What the nested SQuAD loops append: topic by topic, paragraph by paragraph. */
  function SquadEntries(topics: seq<Grouping>): seq<Entry> {
    if topics == [] then [] else SquadEntries(topics[..|topics| - 1]) + TopicEntries(topics[|topics| - 1])
  }

  /** One entry per paragraph. */
  lemma {:induction false} SquadEntriesCount(topics: seq<Grouping>)
    ensures |SquadEntries(topics)| == ParagraphCount(topics)
  {
    if topics != [] {
      SquadEntriesCount(topics[..|topics| - 1]);
    }
  }

  /** The entries of earlier topics come first. */
  lemma {:induction false} SquadEntriesConcatenate(a: seq<Grouping>, b: seq<Grouping>)
    ensures SquadEntries(a + b) == SquadEntries(a) + SquadEntries(b)
  {
    if b == [] {
      assert a + b == a;
    } else {
      var b', last := b[..|b| - 1], b[|b| - 1];
      var ab := a + b;
      assert ab[..|ab| - 1] == a + b';
      assert ab[|ab| - 1] == last;
      var t := TopicEntries(last);
      calc {
        SquadEntries(a + b);
        SquadEntries(ab[..|ab| - 1]) + TopicEntries(ab[|ab| - 1]);
        SquadEntries(a + b') + t;
        { SquadEntriesConcatenate(a, b'); }
        (SquadEntries(a) + SquadEntries(b')) + t;
        SquadEntries(a) + (SquadEntries(b') + t);
        SquadEntries(a) + SquadEntries(b);
      }
    }
  }

  /** The paragraph loop of one SQuAD topic. */
  method ImportTopic(entries: seq<Entry>, topic: Grouping) returns (r: seq<Entry>)
    ensures r == entries + TopicEntries(topic)
  {
    r := entries;
    var testCases := topic.paragraphs;
    for j := 0 to |testCases|
      invariant r == entries + TopicEntries(topic)[..j]
    {
      var testCase := testCases[j];
      var entry := AddQuestions(EmptyEntry, testCase.questions);
      var context := Strip(testCase.context);
      entry := entry.(contexts := entry.contexts + [context]);
      assert entry == QuestionsAndContext(testCase.questions, testCase.context);
      assert TopicEntries(topic)[..j + 1] == TopicEntries(topic)[..j] + [entry];
      r := r + [entry];
    }
    assert TopicEntries(topic)[..|testCases|] == TopicEntries(topic);
  }

  /** The nested SQuAD loops. */
  method ImportSquad(topics: seq<Grouping>) returns (entries: seq<Entry>)
    ensures entries == SquadEntries(topics)
  {
    entries := [];
    for i := 0 to |topics|
      invariant entries == SquadEntries(topics[..i])
    {
      assert topics[..i + 1][..i] == topics[..i];
      entries := ImportTopic(entries, topics[i]);
    }
    assert topics[..|topics|] == topics;
  }

  // ------------------------------------------------------------ HotpotQA

  /** `" ".join(sentences).strip().replace("\n", " ")`: never holds a line feed. */
  function ContextContent(sentences: seq<string>): (r: string)
    ensures '\n' !in r
  {
    Replace(Strip(Join(" ", sentences)), '\n', " ")
  }

  /** Whether a named context is appended: every one, or with
      supportingContextsOnly those named by a supporting fact. */
  predicate Kept(x: NamedContext, supportingContextsOnly: bool, supportingContextNames: seq<string>) {
    !supportingContextsOnly || x.name in supportingContextNames
  }

  /** The contents the loop over the named contexts appends, in order. */
  function KeptContents(namedContexts: seq<NamedContext>, supportingContextsOnly: bool, supportingContextNames: seq<string>)
    : (r: seq<string>)
    ensures |r| <= |namedContexts|
  {
    if namedContexts == [] then []
    else
      var last := namedContexts[|namedContexts| - 1];
      KeptContents(namedContexts[..|namedContexts| - 1], supportingContextsOnly, supportingContextNames)
      + (if Kept(last, supportingContextsOnly, supportingContextNames) then [ContextContent(last.sentences)] else [])
  }

  /** One more named context appends its content exactly when it is kept. */
  lemma KeptContentsStep(namedContexts: seq<NamedContext>, j: nat, supportingContextsOnly: bool,
                         supportingContextNames: seq<string>)
    requires j < |namedContexts|
    ensures KeptContents(namedContexts[..j + 1], supportingContextsOnly, supportingContextNames)
         == KeptContents(namedContexts[..j], supportingContextsOnly, supportingContextNames)
            + (if Kept(namedContexts[j], supportingContextsOnly, supportingContextNames)
               then [ContextContent(namedContexts[j].sentences)] else [])
  {
    assert namedContexts[..j + 1][..j] == namedContexts[..j];
  }

  /** The contexts a HotpotQA entry holds, in context order. */
  function HotpotContexts(c: HotpotCase, supportingContextsOnly: bool): (r: seq<string>)
    ensures |r| <= |c.context|
  {
    KeptContents(c.context, supportingContextsOnly, SupportingNames(c.supportingFacts))
  }

  function KeepContext(c: HotpotCase, supportingContextsOnly: bool): NamedContext -> bool {
    (x: NamedContext) => Kept(x, supportingContextsOnly, SupportingNames(c.supportingFacts))
  }

  function ContentOf(): NamedContext -> string {
    (x: NamedContext) => ContextContent(x.sentences)
  }

  /** The context loop is a FilterMap over the named contexts. */
  lemma {:induction false} KeptContentsFilter(namedContexts: seq<NamedContext>, c: HotpotCase, supportingContextsOnly: bool)
    ensures KeptContents(namedContexts, supportingContextsOnly, SupportingNames(c.supportingFacts))
         == FilterMap(namedContexts, KeepContext(c, supportingContextsOnly), ContentOf())
  {
    if namedContexts != [] {
      KeptContentsFilter(namedContexts[..|namedContexts| - 1], c, supportingContextsOnly);
    }
  }

  /** A HotpotQA entry: the one stripped question, then the kept contexts.
      "contexts" is present only if some context was kept. */
  function HotpotEntry(c: HotpotCase, supportingContextsOnly: bool): (e: Entry)
    ensures e.questions == [Strip(c.question)]
    ensures e.contexts == HotpotContexts(c, supportingContextsOnly)
    ensures e.Keys() == {"questions"} + (if e.contexts == [] then {} else {"contexts"})
  {
    Entry([Strip(c.question)], HotpotContexts(c, supportingContextsOnly))
  }

  /** With supportingContextsOnly exactly the contexts named by a supporting
      fact are kept, in order; otherwise every context is. */
  lemma HotpotContextsSelected(c: HotpotCase, supportingContextsOnly: bool)
    ensures var idx := Select(c.context, KeepContext(c, supportingContextsOnly));
      && |HotpotContexts(c, supportingContextsOnly)| == |idx| && Increasing(idx)
      && (forall k :: 0 <= k < |idx| ==>
            idx[k] < |c.context| && HotpotContexts(c, supportingContextsOnly)[k] == ContextContent(c.context[idx[k]].sentences))
      && (forall i :: 0 <= i < |c.context| ==>
            (i in idx <==> !supportingContextsOnly || c.context[i].name in SupportingNames(c.supportingFacts)))
    ensures !supportingContextsOnly ==> |HotpotContexts(c, supportingContextsOnly)| == |c.context|
  {
    KeptContentsFilter(c.context, c, supportingContextsOnly);
    FilterMapSelects(c.context, KeepContext(c, supportingContextsOnly), ContentOf());
    if !supportingContextsOnly {
      FilterMapKeepsAll(c.context, KeepContext(c, supportingContextsOnly), ContentOf());
    }
  }

  /** No context of a HotpotQA entry holds a line feed. */
  lemma HotpotContextsHaveNoNewline(c: HotpotCase, supportingContextsOnly: bool)
    ensures forall k :: 0 <= k < |HotpotContexts(c, supportingContextsOnly)| ==> '\n' !in HotpotContexts(c, supportingContextsOnly)[k]
  {
    KeptContentsFilter(c.context, c, supportingContextsOnly);
    FilterMapSelects(c.context, KeepContext(c, supportingContextsOnly), ContentOf());
  }

  /** Only hard test cases belong to the benchmark. */
  function IsHard(): HotpotCase -> bool {
    (c: HotpotCase) => c.level == "hard"
  }

  /** What the HotpotQA loop appends, in file order. */
  function HotpotEntries(cases: seq<HotpotCase>, supportingContextsOnly: bool): seq<Entry> {
    FilterMap(cases, IsHard(), (c: HotpotCase) => HotpotEntry(c, supportingContextsOnly))
  }

  /** A test case yields an entry if and only if its level is "hard", and
      the entries keep file order. */
  lemma HotpotHardOnly(cases: seq<HotpotCase>, supportingContextsOnly: bool)
    ensures var idx := Select(cases, IsHard());
      && |HotpotEntries(cases, supportingContextsOnly)| == |idx| && Increasing(idx)
      && (forall k :: 0 <= k < |idx| ==>
            idx[k] < |cases| && HotpotEntries(cases, supportingContextsOnly)[k] == HotpotEntry(cases[idx[k]], supportingContextsOnly))
      && (forall i :: 0 <= i < |cases| ==> (i in idx <==> cases[i].level == "hard"))
  {
    FilterMapSelects(cases, IsHard(), (c: HotpotCase) => HotpotEntry(c, supportingContextsOnly));
  }

  /** The body of the HotpotQA loop for a hard test case: the question,
      then the loop over the named contexts. */
  method ImportHotpotCase(testCase: HotpotCase, supportingContextsOnly: bool) returns (entry: Entry)
    ensures entry == HotpotEntry(testCase, supportingContextsOnly)
  {
    var question := Strip(testCase.question);
    entry := EmptyEntry.(questions := [question]);
    var namedContexts := testCase.context;
    var supportingContextNames := SupportingNames(testCase.supportingFacts);
    for j := 0 to |namedContexts|
      invariant entry.questions == [question]
      invariant entry.contexts == KeptContents(namedContexts[..j], supportingContextsOnly, supportingContextNames)
    {
      KeptContentsStep(namedContexts, j, supportingContextsOnly, supportingContextNames);
      var contextName := namedContexts[j].name;
      var contextContent := ContextContent(namedContexts[j].sentences);
      assert Kept(namedContexts[j], supportingContextsOnly, supportingContextNames)
        <==> !supportingContextsOnly || contextName in supportingContextNames;
      if supportingContextsOnly {
        if contextName in supportingContextNames {
          entry := entry.(contexts := entry.contexts + [contextContent]);
        }
      } else {
        entry := entry.(contexts := entry.contexts + [contextContent]);
      }
    }
    assert namedContexts[..|namedContexts|] == namedContexts;
  }

  /** The HotpotQA loop: hard test cases only, in file order. */
  method ImportHotpot(cases: seq<HotpotCase>, supportingContextsOnly: bool) returns (entries: seq<Entry>)
    ensures entries == HotpotEntries(cases, supportingContextsOnly)
  {
    entries := [];
    ghost var entryOf := (c: HotpotCase) => HotpotEntry(c, supportingContextsOnly);
    for i := 0 to |cases|
      invariant entries == FilterMap(cases[..i], IsHard(), entryOf)
    {
      FilterMapStep(cases, i, IsHard(), entryOf);
      var testCase := cases[i];
      if testCase.level != "hard" {
        continue;
      }
      var entry := ImportHotpotCase(testCase, supportingContextsOnly);
      entries := entries + [entry];
    }
    assert cases[..|cases|] == cases;
  }

  // ------------------------------------------------------------ the whole

  /** What import_benchmark_data returns for a file read as corpusName. */
  function Entries(data: Source, corpusName: string, supportingContextsOnly: bool): Result<seq<Entry>> {
    if corpusName == "drop" then
      if data.DropFile? then
        Success(seq(|data.drop|, i requires 0 <= i < |data.drop| =>
          QuestionsAndContext(data.drop[i].questions, data.drop[i].passage)))
      else Failure(ShapeMismatch)
    else if corpusName == "hotpot" then
      if data.HotpotFile? then Success(HotpotEntries(data.hotpot, supportingContextsOnly)) else Failure(ShapeMismatch)
    else if corpusName == "squad" then
      if data.SquadFile? then Success(SquadEntries(data.data)) else Failure(ShapeMismatch)
    else Success([])
  }

  /** import_benchmark_data, after the file has been parsed. */
  method ImportBenchmarkData(data: Source, corpusName: string, supportingContextsOnly: bool := true)
    returns (r: Result<seq<Entry>>)
    ensures r == Entries(data, corpusName, supportingContextsOnly)
  {
    var entries: seq<Entry> := [];
    if corpusName == "drop" {
      if !data.DropFile? {
        return Failure(ShapeMismatch);
      }
      entries := ImportDrop(data.drop);
      assert entries == seq(|data.drop|, i requires 0 <= i < |data.drop| =>
        QuestionsAndContext(data.drop[i].questions, data.drop[i].passage));
    } else if corpusName == "hotpot" {
      if !data.HotpotFile? {
        return Failure(ShapeMismatch);
      }
      entries := ImportHotpot(data.hotpot, supportingContextsOnly);
    } else if corpusName == "squad" {
      if !data.SquadFile? {
        return Failure(ShapeMismatch);
      }
      entries := ImportSquad(data.data);
    }
    return Success(entries);
  }

  // ------------------------------------------------------------ properties

  /** An unrecognised corpus name yields an empty list. */
  lemma UnrecognisedCorpusIsEmpty(data: Source, corpusName: string, supportingContextsOnly: bool)
    requires corpusName !in {"drop", "hotpot", "squad"}
    ensures Entries(data, corpusName, supportingContextsOnly) == Success([])
  {
  }

  /** DROP yields one entry per test case, in order, each with exactly one context. */
  lemma DropOnePerCase(cases: seq<DropCase>, supportingContextsOnly: bool)
    ensures var r := Entries(DropFile(cases), "drop", supportingContextsOnly);
      && r.Success? && |r.value| == |cases|
      && forall i :: 0 <= i < |cases| ==>
           && r.value[i].contexts == [Strip(cases[i].passage)]
           && |r.value[i].questions| == |cases[i].questions|
  {
  }

  /** SQuAD yields one entry per paragraph. */
  lemma SquadOnePerParagraph(topics: seq<Grouping>, supportingContextsOnly: bool)
    ensures var r := Entries(SquadFile(topics), "squad", supportingContextsOnly);
      r.Success? && |r.value| == ParagraphCount(topics)
  {
    SquadEntriesCount(topics);
  }
}

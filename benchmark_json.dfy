/** The parsed JSON of the three question-answering benchmarks, as far as the
    importers read it. Both importers work on these shapes; reading the file
    and json.load are outside the model. */
module BenchmarkJson {

  /** A DROP test case `{"passage": P, "qa_pairs": [{"question": Q}, ...]}`;
      only the question of each qa pair is read. */
  datatype DropCase = DropCase(passage: string, questions: seq<string>)

  /** One HotpotQA context `[SOURCE_NAME, [SENTENCE, ...]]`. */
  datatype NamedContext = NamedContext(name: string, sentences: seq<string>)

  /** One HotpotQA supporting fact `[SOURCE_NAME, FACT_LOCATION_INDEX]`. */
  datatype SupportingFact = SupportingFact(name: string, index: int)

  /** A HotpotQA test case `{"level": L, "question": Q, "context": [...], "supporting_facts": [...]}`. */
  datatype HotpotCase = HotpotCase(
    level: string,
    question: string,
    context: seq<NamedContext>,
    supportingFacts: seq<SupportingFact>)

  /** A SQuAD paragraph `{"context": C, "qas": [{"question": Q}, ...]}`. */
  datatype Paragraph = Paragraph(context: string, questions: seq<string>)

  /** A SQuAD grouping (topic) `{"title": T, "paragraphs": [...]}`. */
  datatype Grouping = Grouping(title: string, paragraphs: seq<Paragraph>)

  /** A whole benchmark file: the DROP dict (its values, in file order), the
      HotpotQA list, or the SQuAD dict's "data" list. */
  datatype Source =
    | DropFile(drop: seq<DropCase>)
    | HotpotFile(hotpot: seq<HotpotCase>)
    | SquadFile(data: seq<Grouping>)

  /** The file does not have the shape of the benchmark it was named as. */
  datatype ImportError = ShapeMismatch

  datatype Result<T> = Success(value: T) | Failure(error: ImportError)

  /** Number of paragraphs over all groupings. */
  function ParagraphCount(groupings: seq<Grouping>): nat {
    if groupings == [] then 0
    else ParagraphCount(groupings[..|groupings| - 1]) + |groupings[|groupings| - 1].paragraphs|
  }

  /** `[details[0] for details in supporting_facts]`: the source name of each fact, in order. */
  function SupportingNames(facts: seq<SupportingFact>): (names: seq<string>)
    ensures |names| == |facts|
    ensures forall i :: 0 <= i < |facts| ==> names[i] == facts[i].name
  {
    if facts == [] then [] else SupportingNames(facts[..|facts| - 1]) + [facts[|facts| - 1].name]
  }
}

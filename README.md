# corpora — a verified Dafny model

The corpora repository turns question-answering benchmarks (DROP, HotpotQA,
SQuAD 2.0) into lists of questions and contexts, and offers a search page
over the HotpotQA text. This project models three of its Python files:

- `benchmark_import.py`, `import_benchmark_data` (module `BenchmarkImport`).
  It reads a parsed benchmark file as one of `drop`, `hotpot` or `squad2`.
  It extracts the requested titles, contexts and questions of every test
  case, and keeps only HotpotQA cases of the requested levels. It strips
  the DROP passage, the SQuAD context and every question; HotpotQA contexts
  are the sentences joined with spaces and are not stripped (unlike in
  `corpus_processing.py`), and SQuAD titles are kept as they are. It keeps the distractor contexts or only the
  supporting ones. The result is either the list of per-case dicts or one
  list per requested label. As written, a SQuAD title is stored as a bare
  string, so regrouping by content extends the titles list one character at
  a time. The model keeps this behaviour (`Elements`).
- `corpus_processing.py`, `import_benchmark_data` (module `CorpusProcessing`).
  It builds one `defaultdict(list)` entry of questions and contexts per
  test case of `drop`, `hotpot` (hard cases only) or `squad`. HotpotQA
  contexts are the joined sentences, stripped and with newlines turned into
  spaces. By default only the supporting contexts are kept. An entry is
  modelled as `Entry(questions, contexts)`. `Keys()` gives the labels the
  defaultdict would hold, which are those of its non-empty lists.
- `corpora.py` (module `Corpora`):
  - `compile_data` selects question lines, context-file lines or both.
  - The typed search term is stripped and every `*` becomes `[\w|-]+`.
  - The term is wrapped in `\b` anchors.
  - `find_matches` counts every match in a `Counter` (lower-cased when case
    is ignored) and collects every matching line once, in corpus order.
  - The page shows the statistics table sorted by count, then match, both
    descending, and the first 200 matching lines.

Two supporting modules hold shared pieces:
- `Text` models the Python string builtins used: `strip` with Python's full
  whitespace set, `join`, one-character `replace`, `lower`, `startswith` and
  `in`.
- `Seqs` gives the meaning of "walk a list once and append what passes a
  test" (`Select`, `FilterMap`).

`BenchmarkJson` holds the parsed JSON shapes both importers read.

Each loop of the source is a method whose `ensures` ties its result to a
specification function. Lemmas then state what that function means: which
cases or contexts are kept and in what order, how many entries come out,
which keys appear, and what the counter holds.

## Model

| member | source | states |
|---|---|---|
| Text.IsSpace | corpus_processing.py:38 | `str.isspace`: the characters `str.strip()` without an argument removes from both ends, listed as the ranges of Python's whitespace table |
| Text.StartsWith | corpora.py:20 | `str.startswith`: the string begins with the prefix |
| Text.Contains | corpora.py:20 | `part in s`: the part occurs at some position of s |
| Text.AsciiSpace | corpus_processing.py:38 | among ASCII characters, the whitespace `str.strip` removes is exactly space, tab, line feed, vertical tab, form feed, carriage return and the four information separators |
| Text.StartsWithAppend | corpora.py:20 | `str.startswith` holds of a string and anything it begins with, and `in` then finds that prefix too |
| Text.ContainsInfix | corpora.py:20 | `part in s` holds when the part is spliced anywhere into s, and never when the part is longer than s |
| Text.Strip | benchmark_import.py:32 | `str.strip` never lengthens its argument |
| Text.StripRemovesOuterSpace | corpus_processing.py:38 | the stripped text is a slice of the input with whitespace-only text cut from both ends, and it neither starts nor ends with whitespace |
| Text.StripIdempotent | corpus_processing.py:61 | stripping an already stripped text changes nothing |
| Text.Join | benchmark_import.py:49 | `sep.join` of no parts is empty; otherwise its length is the parts' lengths plus one separator between each pair of neighbours |
| Text.Replace | corpus_processing.py:61 | after replacing a character by text that lacks it, the character is gone; text without it is unchanged; no other characters appear; a one-character replacement keeps the length |
| Text.ReplaceConcat | corpora.py:48 | replacing a character in a concatenation is replacing it in each piece |
| Text.Lower | corpora.py:37 | lower-casing keeps the length, turns each capital into its small letter, leaves every other character and yields lower-case text |
| Text.LowerFixesLowerCase | corpora.py:37 | text is lower case exactly when lower-casing leaves it unchanged, so lower-casing is idempotent |
| BenchmarkJson.SupportingNames | corpus_processing.py:58 | the supporting names are the source names of the supporting facts, one per fact and in order |
| BenchmarkImport.DropExtraction | benchmark_import.py:29-35 | a DROP extraction holds exactly the requested labels among contexts and questions; contexts is the stripped passage, questions the stripped questions in order |
| BenchmarkImport.ExtractDropCase | benchmark_import.py:30-35 | the dict built label by label equals the DROP extraction of the case |
| BenchmarkImport.ExtractDrop | benchmark_import.py:29-35 | one extraction per DROP test case, in file order |
| BenchmarkImport.HotpotContextsSelected | benchmark_import.py:46-55 | the contexts are the joined sentences of exactly the contexts named by a supporting fact (all of them with distractors), once each and in file order |
| BenchmarkImport.HotpotExtraction | benchmark_import.py:45-58 | a HotpotQA extraction holds exactly the requested labels among contexts and questions; questions is the one stripped question |
| BenchmarkImport.ExtractHotpotCase | benchmark_import.py:45-58 | the dict built label by label equals the HotpotQA extraction of the case |
| BenchmarkImport.HotpotLevelFilter | benchmark_import.py:41-44 | a HotpotQA case yields an extraction exactly when its level is among the requested levels; the extractions keep file order |
| BenchmarkImport.ExtractHotpot | benchmark_import.py:41-58 | the loop yields the level-filtered extractions |
| BenchmarkImport.SquadExtraction | benchmark_import.py:66-73 | a SQuAD extraction holds exactly the requested labels; titles is the grouping's title string, contexts the stripped context, questions the stripped questions in order |
| BenchmarkImport.ExtractSquadCase | benchmark_import.py:66-73 | the dict built label by label equals the SQuAD extraction of the paragraph |
| BenchmarkImport.SquadCasesCount | benchmark_import.py:64-73 | SQuAD yields as many extractions as there are paragraphs over all groupings |
| BenchmarkImport.SquadCasesConcatenate | benchmark_import.py:64-65 | the extractions of consecutive groupings are concatenated in order |
| BenchmarkImport.ExtractSquad | benchmark_import.py:63-73 | the nested loops yield every paragraph's extraction, grouping by grouping |
| BenchmarkImport.Elements | benchmark_import.py:79 | `extend` with a list adds its items; with a title string it adds each character as a string of its own |
| BenchmarkImport.ContentData | benchmark_import.py:76 | the regrouped dict has exactly the requested labels as keys |
| BenchmarkImport.OrganiseByContent | benchmark_import.py:75-80 | starting from an empty list per requested label and extending each case's labels yields the regrouped dict |
| BenchmarkImport.ImportBenchmarkData | benchmark_import.py:3-82 | the import returns the extraction list, or the content dict when organised by content; a file whose shape does not fit the benchmark name is an error |
| BenchmarkImport.ExtractionKeysWithinInclusions | benchmark_import.py:31-33 | every extraction holds only requested labels, so regrouping never meets a label it lacks a list for |
| BenchmarkImport.SquadKeysWithinInclusions | benchmark_import.py:67-72 | every SQuAD extraction holds only requested labels |
| BenchmarkImport.ContentHasExactlyInclusions | benchmark_import.py:75-80 | organised by content, the result has exactly the requested labels, each with that label's content over all cases in order |
| BenchmarkImport.UnrecognisedBenchmarkIsEmpty | benchmark_import.py:24 | an unknown benchmark name gives no test cases: an empty list, or an empty list per requested label |
| BenchmarkImport.DropOnePerCase | benchmark_import.py:29-35 | DROP gives exactly one extraction per test case, in order |
| BenchmarkImport.SquadOnePerParagraph | benchmark_import.py:64-73 | SQuAD gives exactly one extraction per paragraph |
| CorpusProcessing.QuestionsAndContext | corpus_processing.py:35-42 | an entry holds the stripped questions in order and the one stripped context; its keys are contexts, plus questions when there is a question |
| CorpusProcessing.AddQuestions | corpus_processing.py:37-39 | appending stripped questions extends the questions list by exactly those, in order |
| CorpusProcessing.ImportDrop | corpus_processing.py:33-43 | one entry per DROP test case, in file order |
| CorpusProcessing.SquadEntriesCount | corpus_processing.py:73-85 | SQuAD yields one entry per paragraph over all topics |
| CorpusProcessing.SquadEntriesConcatenate | corpus_processing.py:73-75 | the entries of consecutive topics are concatenated in order |
| CorpusProcessing.ImportTopic | corpus_processing.py:74-85 | the paragraph loop of one topic appends exactly that topic's entries, in paragraph order |
| CorpusProcessing.ImportSquad | corpus_processing.py:71-85 | the nested loops yield every paragraph's entry, topic by topic |
| CorpusProcessing.KeptContentsFilter | corpus_processing.py:59-66 | the loop over the named contexts appends the content of exactly the contexts that pass the supporting-name test, in order |
| CorpusProcessing.ContextContent | corpus_processing.py:61 | a HotpotQA context's content has no newline |
| CorpusProcessing.HotpotContexts | corpus_processing.py:59-66 | an entry never holds more contexts than the case has |
| CorpusProcessing.HotpotEntry | corpus_processing.py:52-66 | a HotpotQA entry holds the one stripped question and the kept contexts; contexts is a key only when some context was kept |
| CorpusProcessing.HotpotContextsSelected | corpus_processing.py:58-66 | the contexts kept are exactly those named by a supporting fact (all of them otherwise), once each and in file order |
| CorpusProcessing.HotpotContextsHaveNoNewline | corpus_processing.py:61 | no kept context contains a newline |
| CorpusProcessing.HotpotHardOnly | corpus_processing.py:49-51 | a HotpotQA case yields an entry exactly when its level is hard; entries keep file order |
| CorpusProcessing.ImportHotpotCase | corpus_processing.py:52-67 | the body of the loop for a hard case builds that case's entry: its stripped question and its kept contexts |
| CorpusProcessing.ImportHotpot | corpus_processing.py:48-67 | the loops yield the entries of the hard cases with their kept contexts |
| CorpusProcessing.ImportBenchmarkData | corpus_processing.py:13-87 | the import dispatches on the corpus name; a file whose shape does not fit it is an error |
| CorpusProcessing.UnrecognisedCorpusIsEmpty | corpus_processing.py:29 | an unknown corpus name gives no entries |
| CorpusProcessing.DropOnePerCase | corpus_processing.py:33-43 | DROP gives exactly one entry per case, with the stripped passage as its only context and one question per qa pair |
| CorpusProcessing.SquadOnePerParagraph | corpus_processing.py:71-85 | SQuAD gives exactly one entry per paragraph |
| Corpora.IsContextFile | corpora.py:20 | a data file is read for the HotpotQA sources when its name starts with "hotpot" and contains "contexts" |
| Corpora.ContextFileNames | corpora.py:20 | every name of the form "hotpot…contexts…" is a HotpotQA context file |
| Corpora.NotContextFiles | corpora.py:20 | a name that does not start with "hotpot" is never a context file, even when it contains "contexts" |
| Corpora.ContextLinesSelected | corpora.py:19-23 | the context data is the lines of exactly the files whose name starts with "hotpot" and contains "contexts", file by file in directory order |
| Corpora.CompiledData | corpora.py:12-24 | the questions source gives the question lines, the contexts source the context lines, the full source both in that order, and any other source nothing |
| Corpora.CompileData | corpora.py:12-24 | the loops build exactly the compiled data of the source |
| Corpora.TranslateQuery | corpora.py:48 | the translated term has no `*`, equals the stripped term when that has no `*`, and is empty exactly when the stripped term is |
| Corpora.PatternText | corpora.py:29 | the pattern is the term with a `\b` anchor on each side |
| Corpora.TallyStep | corpora.py:32-39 | one more entry adds the counter keys of exactly its matches |
| Corpora.CountMatches | corpora.py:35-39 | the inner loop adds one count per match, lower-cased when case is ignored |
| Corpora.MatchLoop | corpora.py:32-41 | the loop's counter and context list are the tally of all matches and the matching entries |
| Corpora.FindMatches | corpora.py:27-41 | find_matches ends in a pattern error exactly when `re.compile` rejects the anchored pattern; otherwise it returns the counter and match contexts of the compiled data of the source under that pattern |
| Corpora.MatchingEntriesSelected | corpora.py:33-34 | an entry is a match context exactly when findall finds something in it; match contexts keep corpus order, appear once each and are no more than the entries |
| Corpora.TallyCountsEveryMatch | corpora.py:35-39 | the counter's total is the number of matches, which is at least the number of match contexts |
| Corpora.IgnoreCaseKeysAreLower | corpora.py:36-37 | ignoring case, every counter key is lower case |
| Corpora.CaseSensitiveKeysAreVerbatim | corpora.py:38-39 | matching case, the counter holds every matched string verbatim, once per occurrence |
| Corpora.StrLessIrreflexive | corpora.py:60 | no string sorts before itself |
| Corpora.StrLessTransitive | corpora.py:60 | string order is transitive |
| Corpora.StrLessTotal | corpora.py:60 | of two different strings one sorts before the other |
| Corpora.InsertRow | corpora.py:58-60 | inserting a row with a new match into a sorted table keeps it sorted and adds exactly that row |
| Corpora.StatsTable | corpora.py:58-60 | the statistics table has every counter key once with its count, sorted by count then match, both descending |
| Corpora.StatsTableUnique | corpora.py:60 | any two tables of a counter's items so sorted are equal, so the shown order is fully determined |
| Corpora.DistinctMatches | corpora.py:58-59 | a sorted table of a counter's items has each match on one row only |
| Corpora.Displayed | corpora.py:65-66 | the page shows the first matching entries, at most 200 of them |
| Corpora.Search | corpora.py:45-66 | an empty term (after stripping) runs no search; a non-empty term whose translated, anchored pattern `re.compile` rejects ends the page in `re.error`; otherwise the result is the counter and match contexts of that pattern with case ignored unless case-sensitive, and the first 200 of the contexts are shown |

## Left out

- Reading files is not modelled. This covers `open` with `json.load` (benchmark_import.py:22-23 and corpus_processing.py:4-11) and the question and context files in `compile_data`. Parsed JSON, the question file's lines and the data directory's files in `os.listdir` order are parameters.
- Malformed JSON is not modelled. A missing key or a wrongly typed value inside a well-shaped file would raise `KeyError` or `TypeError` in the source.
- `BenchmarkImport.ImportBenchmarkData` and `CorpusProcessing.ImportBenchmarkData` return one `ShapeMismatch` error whenever the file's top-level shape does not fit the benchmark name. Python raises `AttributeError`, `TypeError` or `KeyError` there, or in degenerate cases returns a result without raising: an empty dict read as HotpotQA gives nothing, and any dict read as `drop` with `inclusions` naming neither `"contexts"` nor `"questions"` (a SQuAD file included) gives one empty extraction per top-level value, because no key of a test case is then read.
- The DROP test-case identifiers are not kept. Both importers only read `source.values()`, in file order.
- The regular-expression engine is not modelled. `re.findall` on a compiled pattern becomes a parameter `findAll(pattern, ignoreCase, entry)` returning the list of matched strings, and whether `re.compile` accepts a pattern becomes a parameter `compiles(pattern)`. Patterns with capturing groups, for which `findall` returns groups, are not distinguished.
- Corpora.Search: which pattern texts `re.compile` rejects (an unbalanced `(` or `[`, a `+` with nothing to repeat, and so on) is a parameter `compiles`, not modelled. On such a term the program ends in an uncaught `re.error`; the model returns `SearchError` instead.
- Text.Lower: `str.lower` is modelled for ASCII letters only. Other cased characters are left unchanged.
- Streamlit is not modelled: widgets, markdown, `st.dataframe`, `st.cache_data`.
- The page's figures are not modelled: `DATASET_SIZES`, the entry and match-string counts in the text, and the floating-point percentage. The figures are plain lengths of modelled values.
- Corpora.StatsTable is a specification of the pandas result, built in an arbitrary key order. `StatsTableUnique` shows that the order does not matter; the pandas sorting algorithm itself is not modelled.

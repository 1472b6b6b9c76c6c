# Persona-driven document relevance ranking, modelled in Dafny

The system reads a collection of documents together with a *persona* (a role, its
experience, domain and goals) and a *job to be done*. It cuts each document into
sections and sub-sections, builds a keyword profile of the persona and the job, scores
every section against that profile, ranks the sections and writes the ranking out as
JSON in one of several output formats. A separate script checks an output file against
the expected JSON shape.

This project models the core of that pipeline and proves properties of it:

- `PyStrings` (`py_strings.dfy`): the Python string operations the code relies on
  (`lower`, `strip`, `split`, `' '.join`, `in`, word runs of `\b\w+\b`, `os.path.basename`),
  over ASCII character classes, plus a `Result` type for raised exceptions.
- `Ranking` (`ranking.dfy`): Python's stable `sorted(..., reverse=True)` as a stable
  descending insertion sort by key, proved sorted, stable and a permutation, and the rank
  numbering loops.
- `TextProcessing`: the PDF, DOCX, text and generic segmenters, heading detection and text
  cleanup of `document_analyst/utils/text_processing.py`.
- `PersonaAnalyzer`: the persona profile builder: keyword tables, job keyword n-grams
  and keyword weights.
- `RelevanceScorer`: the section scorer of `document_analyst/core/relevance_scorer.py`: a
  TF-IDF score (the vectoriser's similarities, given as a parameter), a weighted keyword
  score and a semantic score per section, each min-max normalised and blended with the
  configured weights (0.4, 0.4 and 0.2 by default); the scorer attaches the scores in input
  order and does not rank.
- `OptimizedSections`, `OptimizedSignals`, `OptimizedScorer`: the optimized scorer's
  section and sub-section extraction, relevance signals, stack ranking and weighted total.
- `LightweightAnalyst`: the CPU-only analyst: tokenizer, keyword extraction, Jaccard
  similarity, section splitting and scoring, and the merging of results over documents.
- `ChallengeProcessor`: persona enhancement and the document, page, title, classification
  and relevance helpers of the challenge processor.
- `EnhancedFormatter`, `ExpectedFormatter`: the two output formatters.
- `VerifyFormat`: the format verifier, over a JSON value datatype.
- `DocumentAnalyst`: the package entry point `analyze_documents`.
- `JobTemplates`, `PersonaTemplates`: the template tables and the suggestion functions.

Scores are real numbers. Operations that loop over their input are methods with loop
invariants, each proved equal to a specification function. The properties the code
promises are proved as lemmas about those functions: bounds, ordering, permutation,
completeness of keyword extraction and agreement of the step-by-step code with its
reference definition.

## Model

| member | source | states |
|---|---|---|
| TextProcessing.BlankSepEnd | document_analyst/utils/text_processing.py:175 | the match of `\n\s*\n` found at a position is a real separator (a newline, whitespace, a newline) or there is none |
| TextProcessing.BlankSepEndComplete | document_analyst/utils/text_processing.py:175 | the match is the longest one starting there, as a greedy `\s*` takes |
| TextProcessing.FirstBlankSep | document_analyst/utils/text_processing.py:175 | the split resumes at the first position where a separator starts; no separator starts before it |
| TextProcessing.SplitBlankLines | document_analyst/utils/text_processing.py:175 | `re.split` always yields at least one piece |
| TextProcessing.SplitBlankLinesPieces | document_analyst/utils/text_processing.py:175 | no paragraph produced by the split contains a blank-line separator |
| TextProcessing.SplitBlankLinesNoSep | document_analyst/utils/text_processing.py:175 | text without a blank line comes back as the single paragraph it is |
| TextProcessing.DottedNumberHeading | document_analyst/utils/text_processing.py:242 | "1. Introduction" matches the numbered-heading pattern |
| TextProcessing.PlainNumberHeading | document_analyst/utils/text_processing.py:242 | the dot of a numbered heading is optional: "1 Introduction" is a heading |
| TextProcessing.CapitalsHeadingExample | document_analyst/utils/text_processing.py:243 | an all-capitals line such as "INTRODUCTION" is a heading |
| TextProcessing.ColonHeadingExample | document_analyst/utils/text_processing.py:244 | a capitalised word ending in a colon is a heading |
| TextProcessing.PlainWordIsNoHeading | document_analyst/utils/text_processing.py:241-251 | a capitalised word without number, capitals or colon matches none of the three patterns |
| TextProcessing.MarkdownHeadingExamples | document_analyst/utils/text_processing.py:257 | `#` marks followed by whitespace make a Markdown heading; `#` glued to a word does not |
| TextProcessing.LongTextIsNoHeading | document_analyst/utils/text_processing.py:237-238 | text longer than 100 characters is never a heading, whatever its shape |
| TextProcessing.SubWhitespace | document_analyst/utils/text_processing.py:282 | replacing whitespace runs by one space never lengthens the text |
| TextProcessing.ReplaceSpecial | document_analyst/utils/text_processing.py:285 | each character outside word characters, whitespace and `. , ; : ! ? - ( )` becomes a space, the others stay |
| TextProcessing.SubWhitespaceSingleSpaced | document_analyst/utils/text_processing.py:282 | text whose only whitespace is single spaces is left unchanged |
| TextProcessing.CollapseTrimmed | document_analyst/utils/text_processing.py:288-290 | `' '.join(text.split())` has no leading or trailing whitespace, so the final `strip()` changes nothing |
| TextProcessing.CleanTextIsCollapse | document_analyst/utils/text_processing.py:279-290 | `_clean_text` is the three substitutions in order; the final strip is redundant |
| TextProcessing.CleanTextChars | document_analyst/utils/text_processing.py:279-290 | cleaned text holds only kept characters, and its only whitespace is the plain space |
| TextProcessing.CleanTextProperties | document_analyst/utils/text_processing.py:279-290 | cleaned text has no leading, trailing or doubled space, and cleaning is idempotent |
| TextProcessing.StructureStepAppends | document_analyst/utils/text_processing.py:180-196 | one paragraph step only appends: emitted sections plus the buffer grow by that paragraph's contribution |
| TextProcessing.StructureScanBounds | document_analyst/utils/text_processing.py:180-196 | with a non-negative maximum the buffer never stays longer than the maximum and no emitted section is empty |
| TextProcessing.StructurePiecesNonEmpty | document_analyst/utils/text_processing.py:198-200 | after the final flush no section is empty |
| TextProcessing.StructureScanBlank | document_analyst/utils/text_processing.py:180-183 | blank paragraphs are skipped: blank input emits nothing |
| TextProcessing.IdentifySectionsByStructure | document_analyst/utils/text_processing.py:172-206 | the paragraph loop, final flush and sentence fallback compute the structural split |
| TextProcessing.SentenceStepJoin | document_analyst/utils/text_processing.py:214-223 | one sentence step extends the space-joined output by exactly that sentence |
| TextProcessing.SentenceSectionsJoin | document_analyst/utils/text_processing.py:208-228 | every sentence is kept once and in order: joining the pieces gives back the joined sentences; no sentences, no pieces |
| TextProcessing.SplitBySentences | document_analyst/utils/text_processing.py:208-228 | the sentence loop computes the sentence split of the tokenizer's sentences |
| TextProcessing.DocxScanInvariant | document_analyst/utils/text_processing.py:104-126 | the counter counts emitted sections; each title is the text of some heading among the paragraphs, or "Section N" for the section's own position |
| TextProcessing.DocxTitleIsLastHeading | document_analyst/utils/text_processing.py:104-126 | after any prefix of the paragraphs the current title is the text of the last heading in it ("" when there is none) and the counter is one more than the sections emitted |
| TextProcessing.DocxScanEmitted | document_analyst/utils/text_processing.py:104-126 | every section emitted within a prefix was emitted at a heading of that prefix: its content is the stripped text gathered before that heading and its title the last heading's text before it, or "Section N" for its own position |
| TextProcessing.DocxSectionTitles | document_analyst/utils/text_processing.py:97-137 | each DOCX section, including the final flush, was emitted at a heading or at the end, with the stripped gathered text as content and the text of the last heading before that point, or "Section N", as title |
| TextProcessing.DocxSectionsGood | document_analyst/utils/text_processing.py:97-137 | every DOCX section has non-empty stripped content and a heading's text or "Section N" as title |
| TextProcessing.SegmentDocx | document_analyst/utils/text_processing.py:97-137 | the paragraph loop with its final flush computes the DOCX sections |
| TextProcessing.Numbered | document_analyst/utils/text_processing.py:146-153 | section i carries content i and the title "Section i+1" (or "Page p - Section i+1"), in order |
| TextProcessing.LabelSections | document_analyst/utils/text_processing.py:146-155 | the labelling loop builds exactly the numbered sections |
| TextProcessing.SegmentPdf | document_analyst/utils/text_processing.py:76-95 | the page loop concatenates each non-blank page's numbered structural sections |
| TextProcessing.ProcessSection | document_analyst/utils/text_processing.py:259-277 | the content is replaced by its cleaned form, with word and character counts of the cleaned text; the other fields stay |
| TextProcessing.ValidProcessedGood | document_analyst/utils/text_processing.py:306-313 | every section kept is cleaned, non-empty and has at least a tenth of the minimum length in words |
| TextProcessing.SegmentByType | document_analyst/utils/text_processing.py:57-65 | the file-type dispatch picks the PDF, DOCX, text or generic segmentation |
| TextProcessing.PostProcess | document_analyst/utils/text_processing.py:67-72 | the loop processes each section and keeps the valid ones, in order |
| TextProcessing.SegmentContent | document_analyst/utils/text_processing.py:39-74 | blank content gives no sections; every section returned is cleaned, non-empty and long enough |
| PersonaAnalyzer.ReplaceChar | document_analyst/core/persona_analyzer.py:58 | `replace(' ', '_')` swaps every space for an underscore and keeps every other character |
| PersonaAnalyzer.DomainKeywords | document_analyst/core/persona_analyzer.py:103-120 | the list of the first table key contained in the lower-cased domain, no earlier key contained; otherwise the lower-cased domain alone |
| PersonaAnalyzer.JobClean | document_analyst/core/persona_analyzer.py:125 | the punctuation substitution keeps the length of the job text |
| PersonaAnalyzer.Unigrams | document_analyst/core/persona_analyzer.py:141 | every single-word keyword is a word of the job, longer than two characters and not a stop word |
| PersonaAnalyzer.UnigramsComplete | document_analyst/core/persona_analyzer.py:141 | every such word is kept |
| PersonaAnalyzer.BigramsAdjacent | document_analyst/core/persona_analyzer.py:145-147 | every bigram is two adjacent non-stop-words joined by a space |
| PersonaAnalyzer.BigramsComplete | document_analyst/core/persona_analyzer.py:145-147 | every adjacent pair of non-stop-words yields its bigram |
| PersonaAnalyzer.TrigramsAdjacent | document_analyst/core/persona_analyzer.py:149-151 | every trigram is three adjacent non-stop-words joined by spaces |
| PersonaAnalyzer.ExtractJobKeywords | document_analyst/core/persona_analyzer.py:122-153 | the filtering and phrase loops compute the keywords, then the bigrams, then the trigrams |
| PersonaAnalyzer.JobCleanOfPlainText | document_analyst/core/persona_analyzer.py:125 | text of word characters and whitespace is only lower-cased by the cleanup |
| PersonaAnalyzer.JobWordsOfPlainWords | document_analyst/core/persona_analyzer.py:125-128 | plain words separated by single spaces come back as those words, lower-cased |
| PersonaAnalyzer.JobKeywordsComplete | document_analyst/core/persona_analyzer.py:122-141 | for such a job, every word longer than two characters that is not a stop word is a keyword |
| PersonaAnalyzer.AssignWeights | document_analyst/core/persona_analyzer.py:62-63 | the loop sets the weight of every listed keyword, later assignments overriding earlier ones |
| PersonaAnalyzer.AddKeywords | document_analyst/core/persona_analyzer.py:92-96 | the keyword list is extended by the new keywords and each gets the step's weight |
| PersonaAnalyzer.AddRoleAndExperience | document_analyst/core/persona_analyzer.py:57-71 | role keywords at 2.0 from the normalised role, then experience keywords at 1.5 |
| PersonaAnalyzer.AddDomain | document_analyst/core/persona_analyzer.py:73-81 | a non-empty domain adds its keywords at 2.5 and becomes the domain context |
| PersonaAnalyzer.AddGoals | document_analyst/core/persona_analyzer.py:83-89 | every goal is added at 3.0 |
| PersonaAnalyzer.AnalyzePersona | document_analyst/core/persona_analyzer.py:38-101 | the profile keeps persona and job, lists each collected keyword once and carries the weight map of the five steps |
| PersonaAnalyzer.ProfileWeightsBand | document_analyst/core/persona_analyzer.py:57-96 | a keyword has a weight exactly when some step mentions it; its weight is that of the last step mentioning it |
| PersonaAnalyzer.ProfileKeywordsMatchWeights | document_analyst/core/persona_analyzer.py:98-99 | after de-duplication the keyword list covers exactly the keys of the weight map |
| RelevanceScorer.WholeWordCountPositive | document_analyst/core/relevance_scorer.py:122-123 | the `\b`-delimited match count is positive exactly when a whole-word occurrence exists |
| RelevanceScorer.SectionKeywordScore | document_analyst/core/relevance_scorer.py:110-136 | the accumulator loop over the keywords computes the section's weighted-hit average |
| RelevanceScorer.KeywordScores | document_analyst/core/relevance_scorer.py:104-138 | the section loop computes one keyword score per section, in order |
| RelevanceScorer.NoMatchScoresZero | document_analyst/core/relevance_scorer.py:128-136 | a section matching no keyword has no matched weight and scores 0 |
| RelevanceScorer.WeightedHitsAtLeastWeight | document_analyst/core/relevance_scorer.py:126-130 | with positive weights the weighted hits are at least the matched weight |
| RelevanceScorer.MatchedWeightPositive | document_analyst/core/relevance_scorer.py:128-130 | a matched keyword with positive weight makes the total weight positive |
| RelevanceScorer.KeywordScoreAtLeastOne | document_analyst/core/relevance_scorer.py:126-134 | with positive weights a section matching some keyword scores at least 1 |
| RelevanceScorer.SemanticScoreBounds | document_analyst/core/relevance_scorer.py:154-172 | the three terms (0.3, 0.2, at most 0.5) add up to at most 1, so the cap never changes the score |
| RelevanceScorer.SemanticScores | document_analyst/core/relevance_scorer.py:140-174 | the section loop computes one semantic score per section, in order |
| RelevanceScorer.MinOf | document_analyst/core/relevance_scorer.py:208 | `min(scores)` is an element no larger than any other |
| RelevanceScorer.MaxOf | document_analyst/core/relevance_scorer.py:209 | `max(scores)` is an element no smaller than any other |
| RelevanceScorer.Normalize | document_analyst/core/relevance_scorer.py:203-215 | normalisation keeps the length |
| RelevanceScorer.ScaleRange | document_analyst/core/relevance_scorer.py:214 | a value between minimum and maximum scales into [0, 1], the minimum to 0 and the maximum to 1 |
| RelevanceScorer.ScaleMonotone | document_analyst/core/relevance_scorer.py:214 | scaling keeps order and strict order |
| RelevanceScorer.NormalizeRange | document_analyst/core/relevance_scorer.py:203-215 | every normalised value is in [0, 1]; a constant list gives 0.5 everywhere; otherwise minimum to 0, maximum to 1 |
| RelevanceScorer.NormalizeMonotone | document_analyst/core/relevance_scorer.py:203-215 | normalisation keeps order, and strict order unless all values are equal |
| RelevanceScorer.CombinedScores | document_analyst/core/relevance_scorer.py:191-201 | one combined score per TF-IDF score |
| RelevanceScorer.CombineScores | document_analyst/core/relevance_scorer.py:176-201 | the blending loop computes the weighted sum of the three normalised lists |
| RelevanceScorer.CombinedScoresInUnitRange | document_analyst/core/relevance_scorer.py:181-199 | non-negative blend weights summing to 1 (the defaults 0.4, 0.4, 0.2 do) keep every combined score in [0, 1] |
| RelevanceScorer.BlendInUnitRange | document_analyst/core/relevance_scorer.py:194-198 | a convex blend of three values in [0, 1] lies in [0, 1] |
| RelevanceScorer.CombinedScoresDominance | document_analyst/core/relevance_scorer.py:186-199 | a section no worse on all three signals and strictly better on one with positive weight gets a strictly higher combined score |
| RelevanceScorer.BlendStrictlyAbove | document_analyst/core/relevance_scorer.py:194-198 | the blend is strictly monotone in a signal with positive weight |
| RelevanceScorer.TfidfOrZeros | document_analyst/core/relevance_scorer.py:100-102 | one TF-IDF value per section, all 0.0 when the vectoriser raised ValueError |
| RelevanceScorer.KeywordScoreList | document_analyst/core/relevance_scorer.py:104-138 | one keyword score per section |
| RelevanceScorer.SemanticScoreList | document_analyst/core/relevance_scorer.py:140-174 | one semantic score per section |
| RelevanceScorer.ScoredSections | document_analyst/core/relevance_scorer.py:31-72 | one scored copy per section, in order, each carrying its own section |
| RelevanceScorer.ScoreSections | document_analyst/core/relevance_scorer.py:31-72 | the method computes the scored copies: the section, its combined score and its breakdown |
| RelevanceScorer.AttachScores | document_analyst/core/relevance_scorer.py:61-70 | the copy loop pairs section i with final score i and breakdown i |
| RelevanceScorer.ScoredSectionsShape | document_analyst/core/relevance_scorer.py:42-72 | the three score lists blended and attached in order are the scored sections |
| RelevanceScorer.DefaultScoresInUnitRange | document_analyst/core/relevance_scorer.py:182-199 | with the default blend every section's score lies in [0, 1] |
| Ranking.Insert | document_analyst/__init__.py:57 | inserting one element into a descending list grows it by one |
| Ranking.InsertPermutation | document_analyst/__init__.py:57 | insertion adds exactly the inserted element: the multiset grows by that element alone |
| Ranking.SortDesc | document_analyst/__init__.py:57 | the stable descending sort keeps the length |
| Ranking.InsertMembers | document_analyst/__init__.py:57 | every element after an insertion is the inserted one or an old one |
| Ranking.InsertSorted | document_analyst/__init__.py:57 | inserting into a descending list keeps it descending |
| Ranking.SortDescSorted | document_analyst/__init__.py:57 | `sort(key=..., reverse=True)` yields a list in descending key order |
| Ranking.SortDescPermutation | document_analyst/__init__.py:57 | the sort is a permutation of its input |
| Ranking.KeyFilter | document_analyst/__init__.py:57 | the elements with a given key, in order, are no more than the input |
| Ranking.KeyFilterAppend | document_analyst/__init__.py:57 | selecting the elements of one key distributes over concatenation |
| Ranking.KeyFilterNone | document_analyst/__init__.py:57 | a list with no element of the key selects nothing |
| Ranking.InsertKeyFilter | document_analyst/__init__.py:57 | insertion puts the new element after every earlier element of equal key |
| Ranking.SortDescStable | document_analyst/__init__.py:57 | the sort is stable: elements with equal keys keep their input order |
| Ranking.SortDescHeadIsMax | optimized_relevance_scorer.py:154-155 | the first element of the sorted list has the largest key |
| Ranking.FirstMaxIndex | challenge_lightweight_processor.py:340 | `max(sections, key=...)` picks the first element whose key is the largest |
| Ranking.AssignRanks | optimized_relevance_scorer.py:157-159 | the ranking loop gives ranks 1, 2, ..., n in list order and leaves the entries unchanged |
| Ranking.TopKOfSorted | document_analyst/__init__.py:57-58 | the top-k slice of the sorted list has min(k, n) elements of the input, each at least as good as every element left out |
| OptimizedSections.LongPieces | optimized_relevance_scorer.py:101 | only stripped fragments longer than 20 characters are kept |
| OptimizedSections.Fragments | optimized_relevance_scorer.py:100-101 | every sentence fragment split off at `.`, `!` or `?` and kept is longer than 20 characters |
| OptimizedSections.GroupsUnfold | optimized_relevance_scorer.py:105-112 | one step of the `range(0, len, 3)` loop: the group at i followed by the groups from i + 3 |
| OptimizedSections.GroupSentences | optimized_relevance_scorer.py:103-114 | the grouping loop builds exactly the sub-sections of the grouping function |
| OptimizedSections.ExtractSubsections | optimized_relevance_scorer.py:95-114 | splitting into fragments and grouping them gives the sub-sections of the content |
| OptimizedSections.Contents | optimized_relevance_scorer.py:106 | one content string per sub-section |
| OptimizedSections.GroupAtOne | optimized_relevance_scorer.py:106-112 | the group at i is one sub-section "Subsection i/3+1" joining up to three sentences with ". " |
| OptimizedSections.GroupsShape | optimized_relevance_scorer.py:105-112 | from a multiple of 3, one group per three remaining sentences, numbered on and holding min(3, remaining) |
| OptimizedSections.GroupsTotal | optimized_relevance_scorer.py:105-112 | the groups' sentence counts add up to the remaining sentences |
| OptimizedSections.GroupsJoin | optimized_relevance_scorer.py:105-112 | joining the groups with ". " gives the remaining sentences joined with ". " |
| OptimizedSections.GroupsProperties | optimized_relevance_scorer.py:95-114 | ceil(n/3) groups titled "Subsection 1", "Subsection 2", ..., each with min(3, remaining) sentences, nothing lost or reordered |
| OptimizedSections.SubsectionsProperties | optimized_relevance_scorer.py:95-114 | a section's sub-sections are its long fragments grouped by three, with nothing lost |
| OptimizedSections.RunsShorter | optimized_relevance_scorer.py:100 | no piece of a split is longer than the text split |
| OptimizedSections.LongPiecesNone | optimized_relevance_scorer.py:101 | pieces of at most 20 characters are all dropped |
| OptimizedSections.ShortContentHasNoSubsections | optimized_relevance_scorer.py:100-114 | content of at most 20 characters has no fragment and so no sub-section |
| OptimizedSections.ScanLine | optimized_relevance_scorer.py:68-87 | one pass of the line loop: skip a blank line, close and open on a header after content, otherwise append the line and a space |
| OptimizedSections.ScanLines | optimized_relevance_scorer.py:67-87 | the line loop computes the scan of all lines |
| OptimizedSections.ScanWhole | optimized_relevance_scorer.py:67 | the scan of all lines is the scan of the whole list |
| OptimizedSections.FlushSection | optimized_relevance_scorer.py:89-92 | the last section is added exactly when it has content |
| OptimizedSections.ExtractSections | optimized_relevance_scorer.py:52-93 | the method returns the sections of the document |
| OptimizedSections.ExtractStepGood | optimized_relevance_scorer.py:68-87 | each line step keeps the scan well formed: every closed section has content and a header title after the first |
| OptimizedSections.OpenGood | optimized_relevance_scorer.py:80-84 | closing a non-empty section and opening one at a header keeps the scan well formed |
| OptimizedSections.ExtractScanGood | optimized_relevance_scorer.py:67-87 | the whole scan is well formed |
| OptimizedSections.SectionsGood | optimized_relevance_scorer.py:52-93 | every section has content, the first is "Introduction" and every later one is titled by its header line |
| OptimizedSections.ExtractStepText | optimized_relevance_scorer.py:68-87 | each step adds the stripped non-blank line and a space to the scanned text, and nothing else |
| OptimizedSections.ExtractScanText | optimized_relevance_scorer.py:67-87 | the scanned text is the non-blank stripped lines, each followed by a space |
| OptimizedSections.SectionsKeepLines | optimized_relevance_scorer.py:52-93 | no line is lost or reordered, except a trailing header with no content after it, which is dropped |
| OptimizedSections.SplitOnWithoutSep | optimized_relevance_scorer.py:65 | a text without a newline splits into itself |
| OptimizedSections.ShortLineDocument | optimized_relevance_scorer.py:52-93 | a one-line document of at most 19 non-blank characters is one "Introduction" section with no sub-section |
| OptimizedSignals.LowerNonEmptyMembers | optimized_relevance_scorer.py:235 | `[k.lower() for k in keywords if k]` holds exactly the non-empty inputs lower-cased |
| OptimizedSignals.LowerOfLowercase | optimized_relevance_scorer.py:235 | lower-casing a lower-case word changes nothing |
| OptimizedSignals.CollectFields | optimized_relevance_scorer.py:219-233 | the field loop collects every value of every field, in order |
| OptimizedSignals.ExtractPersonaKeywords | optimized_relevance_scorer.py:214-235 | the method computes the persona keywords |
| OptimizedSignals.PersonaKeywordsMembers | optimized_relevance_scorer.py:214-235 | a persona keyword is exactly a non-empty goal, keyword, role, domain, context preference or role extra, lower-cased |
| OptimizedSignals.FilterDescriptionWords | optimized_relevance_scorer.py:242-244 | exactly the description words of three or more letters are kept |
| OptimizedSignals.ExtractJobKeywords | optimized_relevance_scorer.py:237-254 | the method computes the job keywords |
| OptimizedSignals.FieldsValuesMembers | optimized_relevance_scorer.py:247-252 | the field values are everything in each field and nothing else |
| OptimizedSignals.JobKeywordsMembers | optimized_relevance_scorer.py:237-254 | every long description word and every non-empty keyword, focus area and requirement is a job keyword, and nothing else is |
| OptimizedSignals.MatchCount | optimized_relevance_scorer.py:259 | at most one match per keyword |
| OptimizedSignals.MatchCountExtremes | optimized_relevance_scorer.py:259 | the count is 0 exactly when no keyword occurs and full exactly when all occur |
| OptimizedSignals.KeywordMatchProperties | optimized_relevance_scorer.py:256-260 | the fraction of keywords found, in [0, 1]; 0 exactly when none occurs; 1 exactly when there are keywords and all occur |
| OptimizedSignals.RatioAtMostOne | optimized_relevance_scorer.py:260 | a count over a larger positive total is in [0, 1] |
| OptimizedSignals.RatioIsOne | optimized_relevance_scorer.py:260 | a ratio is 1 exactly when the parts are equal and 0 exactly when the numerator is 0 |
| OptimizedSignals.CountIn | optimized_relevance_scorer.py:268 | at most one count per word |
| OptimizedSignals.CountInZero | optimized_relevance_scorer.py:268 | the count is 0 exactly when no word is a keyword |
| OptimizedSignals.KeywordDensityProperties | optimized_relevance_scorer.py:262-269 | the density is in [0, 0.3] and is 0 exactly when no word of the content is a keyword |
| OptimizedSignals.CalculateContextRelevance | optimized_relevance_scorer.py:271-288 | the two loops add 0.1 per preference and 0.15 per focus area found, capped at 1 |
| OptimizedSignals.CountMatches | optimized_relevance_scorer.py:278-286 | one loop counts the lower-cased entries that occur in the content |
| OptimizedSignals.ContextRelevanceProperties | optimized_relevance_scorer.py:271-288 | the context relevance is in [0, 1] and is 0 exactly when no preference and no focus area occurs |
| OptimizedSignals.SkipSpaces | optimized_relevance_scorer.py:295-301 | a whitespace run ends at or after its start, within the text |
| OptimizedSignals.SkipDigits | optimized_relevance_scorer.py:295-301 | a digit run ends at or after its start, within the text |
| OptimizedSignals.PatternCount | optimized_relevance_scorer.py:303-305 | at most one hit per pattern |
| OptimizedSignals.CalculateSpecificity | optimized_relevance_scorer.py:290-307 | the pattern loop computes the specificity score |
| OptimizedSignals.SpecificityProperties | optimized_relevance_scorer.py:290-307 | 0.2 per pattern found, in [0, 1]; a dietary word alone earns 0.2 |
| OptimizedSignals.ActionabilityProperties | optimized_relevance_scorer.py:309-319 | in [0, 1]; 0 exactly when no action word occurs; 1 exactly when ten or more do |
| OptimizedSignals.LengthScoreProperties | optimized_relevance_scorer.py:324 | the length term is in [0, 1], at least 0.5 exactly from 500 characters on, and 1 exactly at 1000 |
| OptimizedSignals.RatioBelowOne | optimized_relevance_scorer.py:324 | a ratio with a smaller numerator is below 1 |
| OptimizedSignals.SetCardAtMost | optimized_relevance_scorer.py:328 | `len(set(words))` is at most `len(words)` |
| OptimizedSignals.ContentQualityProperties | optimized_relevance_scorer.py:321-331 | the quality is in [0, 1], and empty content scores 0 |
| OptimizedScorer.UnsortedSectionScores | optimized_relevance_scorer.py:125-152 | one score per section, in order, each the section's own score |
| OptimizedScorer.ScoreSectionStep | optimized_relevance_scorer.py:126-152 | one pass of the section loop computes that section's score |
| OptimizedScorer.CalculateSectionRelevance | optimized_relevance_scorer.py:116-161 | the sorted section scores, each with rank i + 1 |
| OptimizedScorer.ScoreSectionProperties | optimized_relevance_scorer.py:126-152 | the score keeps the title and sub-section count, keeps at most 200 characters of content plus "...", and its relevance is in [0, 1] |
| OptimizedScorer.SectionScoresRanked | optimized_relevance_scorer.py:154-155 | the sections are sorted by relevance, highest first, as a stable permutation of the scored sections, each in [0, 1] |
| OptimizedScorer.ScoreSubsectionStep | optimized_relevance_scorer.py:174-203 | one pass of the sub-section loop computes that sub-section's score |
| OptimizedScorer.ScoreSectionSubsections | optimized_relevance_scorer.py:173-203 | the inner loop scores each of the section's sub-sections in order |
| OptimizedScorer.CalculateSubsectionRelevance | optimized_relevance_scorer.py:163-212 | the sorted sub-section scores, each with rank i + 1 |
| OptimizedScorer.ScoreSubsectionProperties | optimized_relevance_scorer.py:174-203 | the score keeps the parent, title, content and sentence count, and its relevance is in [0, 0.755] |
| OptimizedScorer.ScoreSubsectionsMembers | optimized_relevance_scorer.py:173-203 | one score per sub-section, in order |
| OptimizedScorer.PooledScoresMembers | optimized_relevance_scorer.py:170-204 | the pool holds one entry per sub-section of every section and nothing else |
| OptimizedScorer.PooledScoresRange | optimized_relevance_scorer.py:188-192 | every pooled relevance is in [0, 0.755] |
| OptimizedScorer.ScoresSorted | optimized_relevance_scorer.py:154-206 | both the section and the sub-section scores come out in non-increasing relevance order |
| OptimizedScorer.SubsectionScoresRanked | optimized_relevance_scorer.py:205-206 | the sub-sections are sorted by relevance, highest first, as a stable permutation of the pool, each in [0, 0.755] |
| OptimizedScorer.StackRankingKeepsBest | optimized_relevance_scorer.py:333-349 | the top 10 sections and the top 20 sub-sections kept are at least as relevant as any left out |
| OptimizedScorer.WeightedScoreAgrees | optimized_relevance_scorer.py:351-362 | the code as written raises ZeroDivisionError exactly when a list is empty, and otherwise agrees with the corrected total |
| OptimizedScorer.SumRealUnit | optimized_relevance_scorer.py:355 | a sum of values in [0, 1] lies between 0 and their number |
| OptimizedScorer.AverageUnit | optimized_relevance_scorer.py:355-359 | an average of values in [0, 1] is in [0, 1] |
| OptimizedScorer.WeightedScoreRange | optimized_relevance_scorer.py:351-362 | with relevances in [0, 1] the corrected total is in [0, 1] |
| OptimizedScorer.ShortDocumentRaises | optimized_relevance_scorer.py:351-362 | a one-line document of at most 19 non-blank characters has no sub-section, so the total as written raises ZeroDivisionError |
| OptimizedScorer.SingleSectionWithoutSubsections | optimized_relevance_scorer.py:170-173 | a lone section without sub-sections pools no sub-section relevance |
| OptimizedScorer.HelloWorldRaises | optimized_relevance_scorer.py:359 | "Hello world." makes the total as written raise ZeroDivisionError |
| OptimizedScorer.TotalScoreRange | optimized_relevance_scorer.py:351-362 | the corrected total over any document's scores is in [0, 1] |
| OptimizedScorer.RankedTotal | optimized_relevance_scorer.py:40 | the total over the ranked lists is the total over their entries' relevances |
| OptimizedScorer.ScoreSections | optimized_relevance_scorer.py:30-49 | the report holds the ranked section and sub-section lists, the stack ranking and the corrected total (see Findings), which lies in [0, 1]; the code as written raises ZeroDivisionError when either list is empty |
| OptimizedScorer.CalculateEnhancedRelevanceScore | optimized_relevance_scorer.py:19-50 | the document's sections, scored and ranked, with the stack ranking and the corrected total (see Findings), which lies in [0, 1]; the code as written raises ZeroDivisionError when the document has no section or no sub-section |
| LightweightAnalyst.FilterTokens | lightweight_cpu_analyst.py:85 | exactly the words of two or more letters that are not stop words are kept |
| LightweightAnalyst.SimpleTokenize | lightweight_cpu_analyst.py:76-87 | a token is exactly a lower-case letter run of two or more letters that is not a stop word |
| LightweightAnalyst.TokenizeIgnoresCase | lightweight_cpu_analyst.py:81 | tokenising is insensitive to case |
| LightweightAnalyst.DistinctOnce | lightweight_cpu_analyst.py:96-99 | a list of distinct words holds each at most once |
| LightweightAnalyst.TwiceCounted | lightweight_cpu_analyst.py:96 | a word at two positions is counted at least twice |
| LightweightAnalyst.MostCommonMembers | lightweight_cpu_analyst.py:89-99 | `most_common(k)` returns min(k, number of distinct tokens) different tokens |
| LightweightAnalyst.MostCommonOrder | lightweight_cpu_analyst.py:96-99 | the keywords come by non-increasing frequency and none left out is more frequent than one returned |
| PyStrings.SubsetCard | lightweight_cpu_analyst.py:109-110 | a subset is no larger, and equally large only when equal |
| PyStrings.UnitSeparatorSplitsWords | enhanced_output_formatter.py:203 | `split()` treats the ASCII separator U+001F as whitespace: "a\x1fb" gives the two words "a" and "b" |
| LightweightAnalyst.JaccardProperties | lightweight_cpu_analyst.py:106-112 | the overlap is in [0, 1] and symmetric; 1 exactly for equal non-empty sets; 0 exactly when a set is empty or they are disjoint |
| LightweightAnalyst.SimpleSimilarityProperties | lightweight_cpu_analyst.py:101-112 | the similarity of two texts is in [0, 1], symmetric, 1 exactly when their token sets are equal and non-empty, 0 exactly when they share no token |
| LightweightAnalyst.HeaderIgnoresSurroundingSpace | lightweight_cpu_analyst.py:260 | the header test looks only at the stripped text |
| LightweightAnalyst.HeaderFlags | lightweight_cpu_analyst.py:229 | one header flag per paragraph, in order |
| LightweightAnalyst.NonBlankStripped | lightweight_cpu_analyst.py:219 | every paragraph kept is non-empty and a stripped piece of the split |
| LightweightAnalyst.CreateSectionDictProperties | lightweight_cpu_analyst.py:279-293 | the record keeps id and path, holds min(stripped length, MAX_CONTENT_LENGTH) characters, counts its words and keeps at most 5 of its tokens as keywords |
| LightweightAnalyst.RecordsAppend | lightweight_cpu_analyst.py:232-235 | closing one more text appends its record with the next id |
| LightweightAnalyst.SplitStepGood | lightweight_cpu_analyst.py:225-248 | each paragraph step keeps every closed text non-blank |
| LightweightAnalyst.SplitScanGood | lightweight_cpu_analyst.py:225-248 | the whole paragraph loop keeps every closed text non-blank |
| LightweightAnalyst.ParagraphsStartNonSpace | lightweight_cpu_analyst.py:219 | every paragraph is non-empty and starts with a non-space |
| LightweightAnalyst.SectionTextsNotBlank | lightweight_cpu_analyst.py:225-254 | every section text has a non-whitespace character |
| LightweightAnalyst.SplitSectionsProperties | lightweight_cpu_analyst.py:215-256 | sections get ids 0, 1, 2, ... in order, belong to the document, and have non-empty content of at most MAX_CONTENT_LENGTH characters with its word count and at most 5 keywords |
| LightweightAnalyst.Lines | lightweight_cpu_analyst.py:238-240 | each paragraph followed by a newline |
| LightweightAnalyst.SplitScanKeepsText | lightweight_cpu_analyst.py:225-248 | splitting loses and reorders nothing: closed texts and the current one spell the paragraphs, each with a newline |
| LightweightAnalyst.SectionTextsKeepText | lightweight_cpu_analyst.py:215-256 | the section texts in order are the paragraphs each followed by a newline |
| LightweightAnalyst.HeaderStartsSection | lightweight_cpu_analyst.py:229-238 | a header closes the current text when non-empty and starts a new one made of itself |
| LightweightAnalyst.SplitIntoSectionsFast | lightweight_cpu_analyst.py:215-256 | the method returns the sections of the split |
| LightweightAnalyst.SplitParagraphs | lightweight_cpu_analyst.py:221-248 | the loop builds each record as its text closes, with the next id |
| LightweightAnalyst.SplitParagraph | lightweight_cpu_analyst.py:226-248 | one iteration of the loop performs one split step and keeps records and ids in step |
| LightweightAnalyst.ProcessDocumentFast | lightweight_cpu_analyst.py:155-158 | at most MAX_SECTIONS_PER_DOC sections, the first ones of the split |
| LightweightAnalyst.LightPersonaKeywords | lightweight_cpu_analyst.py:321-342 | each keyword once; exactly the role's keyword group and the persona's own keywords |
| LightweightAnalyst.KeywordFractionProperties | lightweight_cpu_analyst.py:351-352 | the keyword fraction is in [0, 1] and is 1 exactly when there are keywords and all occur |
| LightweightAnalyst.SimpleScoreProperties | lightweight_cpu_analyst.py:344-367 | the cap never binds: the score is the weighted sum, in [0, 1], at least 0.2 from 100 words on, and 1 exactly when every part is 1 |
| LightweightAnalyst.ScoreSectionsFast | lightweight_cpu_analyst.py:302-319 | every section gets its simple score and is otherwise unchanged |
| LightweightAnalyst.Merge | lightweight_cpu_analyst.py:427-460 | the first top_k ranked sections, each labelled "Section i" by its position, then the first top_k − n sub-sections, labelled by parent and title |
| LightweightAnalyst.MergeResults | lightweight_cpu_analyst.py:427-460 | the two loops build exactly that merge |
| LightweightAnalyst.MergeCount | lightweight_cpu_analyst.py:432-448 | the merge keeps min(top_k, sections + sub-sections) entries, and takes sub-sections only once all sections are in |
| LightweightAnalyst.MergeOrdered | lightweight_cpu_analyst.py:427-460 | with both lists sorted by relevance, sections come before sub-sections, each kind in non-increasing score, and the sections carry ranks 1, 2, … in order; for top_k ≥ 0 there are min(top_k, sections + sub-sections) entries |
| LightweightAnalyst.MergeAt | lightweight_cpu_analyst.py:427-460 | entry i of the merge is the section ranked i+1, with its relevance, while sections last, and afterwards the (i − n)-th sub-section with its relevance |
| LightweightAnalyst.AllSectionsBound | lightweight_cpu_analyst.py:402-406 | each document contributes at most MAX_SECTIONS_PER_DOC sections |
| LightweightAnalyst.CollectSections | lightweight_cpu_analyst.py:401-406 | the loop collects every document's sections in order |
| LightweightAnalyst.SectionContents | lightweight_cpu_analyst.py:419 | the contents of the sections, in order |
| LightweightAnalyst.FastResultsOrdered | lightweight_cpu_analyst.py:414-460 | the results of the joined document list sections first, each kind by non-increasing relevance, sections ranked 1, 2, …, and for top_k ≥ 0 there are min(top_k, sections + sub-sections) of them |
| LightweightAnalyst.ScoredMergeOrdered | lightweight_cpu_analyst.py:414-460 | for any scored document, the merged ranked sections and sub-sections are ordered as above and number min(top_k, sections + sub-sections) for top_k ≥ 0 |
| LightweightAnalyst.AnalyzeDocumentsFast | lightweight_cpu_analyst.py:385-497 | it counts the documents and the sections (at most MAX_SECTIONS_PER_DOC per document), and its results are exactly the merge of the ranked section and sub-section scores of the joined section texts, at most top_k of them |
| ChallengeProcessor.ProfileOf | challenge_lightweight_processor.py:100-125 | travel exactly when the role or the description mentions "travel"; the generic profile exactly when no rule word occurs |
| ChallengeProcessor.EnhancePersona | challenge_lightweight_processor.py:84-127 | the role (default "Generic User") and "Professional" are kept, and the domain is the one the first matching rule picks |
| ChallengeProcessor.EnhancePersonaShape | challenge_lightweight_processor.py:91-125 | a matched profile fills 4 goals, 8 keywords and 4 preferences and leaves "General"; otherwise the empty defaults stay |
| ChallengeProcessor.EnhancePersonaIgnoresCase | challenge_lightweight_processor.py:88-89 | the rules look only at the lower-cased texts |
| ChallengeProcessor.TravelDescriptionWins | challenge_lightweight_processor.py:101-103 | a travel description picks "Tourism & Travel" whatever the role says |
| ChallengeProcessor.ProfileKeywordsReachAnalyst | challenge_lightweight_processor.py:105 | every keyword the profile adds reaches the analyst's persona keywords |
| ChallengeProcessor.DocumentIndex | challenge_lightweight_processor.py:276-278 | the position of the first document with that file name, or past the end when none has it |
| ChallengeProcessor.GetDocumentId | challenge_lightweight_processor.py:271-280 | the loop returns at the first match, as the spec function says |
| ChallengeProcessor.DocumentIdMeaning | challenge_lightweight_processor.py:271-280 | "doc_unknown" exactly when no listed document has the path's file name; otherwise "doc_" and the first match's one-based position |
| ChallengeProcessor.EstimatePageNumber | challenge_lightweight_processor.py:282-284 | the section id (0 when absent) plus one |
| ChallengeProcessor.SplitSectionPages | challenge_lightweight_processor.py:282-284 | for the analyst's sections, the page estimate is the section's one-based position |
| ChallengeProcessor.FirstLineSingle | challenge_lightweight_processor.py:290 | the first line holds no line break |
| ChallengeProcessor.SectionTitleProperties | challenge_lightweight_processor.py:286-293 | a title is the stripped first line of 11 to 99 characters, or "Section" and the estimated page |
| ChallengeProcessor.ClassifyDocumentTypeIsFirstRule | challenge_lightweight_processor.py:295-306 | the document type is the label of the first rule whose words occur in the lower-cased file name |
| ChallengeProcessor.PdfFilesAreTechnical | challenge_lightweight_processor.py:299-302 | every ".pdf" file not naming travel or tourism is "Technical Documentation" |
| ChallengeProcessor.ClassifyTaskIsFirstRule | challenge_lightweight_processor.py:308-319 | the challenge type is the label of the first rule whose words occur in the lower-cased job-to-be-done text |
| ChallengeProcessor.CleanTextProperties | challenge_lightweight_processor.py:321-324 | at most 503 characters; collapsed text of at most 500 is returned as is and cleaning it again changes nothing; longer text keeps its first 500 characters and "..."; no new characters |
| ChallengeProcessor.AssessRelevance | challenge_lightweight_processor.py:326-333 | "High" exactly from 0.7, "Low" exactly below 0.4, "Medium" between |
| ChallengeProcessor.AssessRelevanceMonotone | challenge_lightweight_processor.py:326-333 | a higher score never gets a lower level |
| ChallengeProcessor.GetTopDocument | challenge_lightweight_processor.py:335-341 | "None" without sections, else the file name of the first section with the highest score |
| EnhancedFormatter.ExtractFilenameProperties | enhanced_output_formatter.py:143-147 | "Unknown" for an empty path; otherwise a suffix of the path holding neither separator |
| EnhancedFormatter.LastOfLastPiece | enhanced_output_formatter.py:147 | the last piece of a split of the last piece is a suffix free of both separators |
| EnhancedFormatter.FileExtensionProperties | enhanced_output_formatter.py:149-153 | with a dot, the lower-cased text after the last dot; "unknown" without one |
| EnhancedFormatter.AfterLastChar | enhanced_output_formatter.py:152 | the last piece of a split on a character is what follows its last occurrence |
| EnhancedFormatter.DocumentIdUnknown | enhanced_output_formatter.py:155-161 | "doc_unknown" exactly when the path is not in the input list |
| EnhancedFormatter.GetDocumentTypeIsFirstRule | enhanced_output_formatter.py:395-410 | the document type is the label of the first word pair found in the lower-cased file name, "General Document" when none is |
| EnhancedFormatter.ExtractPageNumber | enhanced_output_formatter.py:163-167 | the section id plus one, and never below 1 |
| EnhancedFormatter.CalculateConfidence | enhanced_output_formatter.py:188-198 | "High" exactly from 0.8, "Medium" exactly in [0.6, 0.8), "Very Low" exactly below 0.4 |
| EnhancedFormatter.ConfidenceMonotone | enhanced_output_formatter.py:188-198 | a higher score never gets a lower confidence |
| EnhancedFormatter.RefineTextContent | enhanced_output_formatter.py:200-216 | the loop over the sentences computes the refined text |
| EnhancedFormatter.GreedyShape | enhanced_output_formatter.py:209-213 | the greedy loop keeps a prefix of the rejoined text of at most 451 characters that is empty or ends in ". " |
| EnhancedFormatter.RefinedTextProperties | enhanced_output_formatter.py:200-216 | a prefix of the collapsed text of at most 500 characters: all of it when short, otherwise at most 450 characters ending at a full stop or empty |
| EnhancedFormatter.StripSentences | enhanced_output_formatter.py:214 | stripping the kept sentences removes only the final space |
| EnhancedFormatter.LongSingleSentenceRefinesToEmpty | enhanced_output_formatter.py:206-214 | a long text with no ". " is one over-long sentence, so the refined text is empty |
| EnhancedFormatter.Filenames | enhanced_output_formatter.py:381 | the file name of each section's document, in order |
| EnhancedFormatter.AnalyzeContentDistribution | enhanced_output_formatter.py:376-384 | the loop builds the per-file section counts |
| EnhancedFormatter.DistributionCounts | enhanced_output_formatter.py:376-384 | one entry per file name, holding that file's number of sections |
| EnhancedFormatter.CountOfAbsent | enhanced_output_formatter.py:382 | a file that does not occur is counted 0 |
| EnhancedFormatter.SumCountsCons | enhanced_output_formatter.py:382 | the counts of a list are its head's count plus the rest's |
| EnhancedFormatter.CountOfDistinct | enhanced_output_formatter.py:382 | a key listed once among distinct keys is counted once |
| EnhancedFormatter.SumCountsTotal | enhanced_output_formatter.py:376-384 | over distinct keys covering every file, the counts add up to the number of files |
| EnhancedFormatter.SumCountsEmpty | enhanced_output_formatter.py:376-384 | no file counts nothing |
| EnhancedFormatter.SumOverCounts | enhanced_output_formatter.py:376-384 | summing the distribution's values over keys equals summing the counts |
| EnhancedFormatter.DistributionTotal | enhanced_output_formatter.py:376-384 | the keys are the distinct file names and the counts add up to the number of sections |
| EnhancedFormatter.SingleDocumentDistribution | enhanced_output_formatter.py:432-434 | one entry exactly when there are sections and all come from one file |
| EnhancedFormatter.EstimateProcessingTime | enhanced_output_formatter.py:386-393 | at least the 100 ms base time |
| EnhancedFormatter.ProcessingTimeIncrements | enhanced_output_formatter.py:389-393 | each further document adds 50 ms and each further section 10 ms |
| EnhancedFormatter.ScoresOf | enhanced_output_formatter.py:363-369 | one score per section of that file |
| EnhancedFormatter.HighestScoringDocument | enhanced_output_formatter.py:357-374 | "None" without sections, else the first file, in order of first appearance, with the highest average score |
| EnhancedFormatter.HighestScoringDocumentProperties | enhanced_output_formatter.py:357-374 | the chosen file has sections and an average at least that of every file |
| EnhancedFormatter.CountOfPresent | enhanced_output_formatter.py:367-369 | a file that occurs has a positive count |
| EnhancedFormatter.GenerateRecommendations | enhanced_output_formatter.py:412-436 | the method builds the recommendation list |
| EnhancedFormatter.RecommendationsCount | enhanced_output_formatter.py:412-436 | one message without sections; otherwise four lines for an average below 0.3, one for fewer than three sections and one for a single document |
| EnhancedFormatter.FormatAnalysisResults | enhanced_output_formatter.py:16-141 | the method assembles the report |
| EnhancedFormatter.ExtractSections | enhanced_output_formatter.py:67-90 | the loop builds one extracted entry per section, in order |
| EnhancedFormatter.AnalyzeSubsections | enhanced_output_formatter.py:93-123 | the loop builds one detailed entry for each of the first five sections |
| EnhancedFormatter.ExtractedListStructure | enhanced_output_formatter.py:67-90 | one entry per section in input order with ranks 1, 2, 3, ..., the section's score and full path, pages from 1, and "text_section" / "automatic" as the type and extraction method of a section that names none |
| EnhancedFormatter.SubsectionListStructure | enhanced_output_formatter.py:93-110 | the first five sections, the k-th naming the k-th extracted section as its parent with the same file name, document id and page, the document type guessed from that section's path, a one-page range and refined text of at most 500 characters |
| EnhancedFormatter.SectionLabelsDistinct | enhanced_output_formatter.py:71 | the "section_i" labels are distinct, so each analysis entry names exactly one parent |
| ExpectedFormatter.DomainOf | expected_output_formatter.py:72-76 | travel exactly when a travel indicator occurs; hr_forms exactly when no travel one and an hr_forms one does; food likewise after both; none otherwise |
| ExpectedFormatter.FirstDomainIndex | expected_output_formatter.py:82-86 | the first text with a domain, with no earlier text having one |
| ExpectedFormatter.FirstDomainAppend | expected_output_formatter.py:79-99 | searching a + b finds a's domain when a has one, and otherwise b's |
| ExpectedFormatter.FilenameTexts | expected_output_formatter.py:81-83 | each document's lower-cased file name, '' when absent |
| ExpectedFormatter.PathTexts | expected_output_formatter.py:95-96 | each section's lower-cased document path, '' when absent |
| ExpectedFormatter.DetectDomainFirstMatch | expected_output_formatter.py:68-102 | the domain of the first searched text (file names, then description, then paths) that has one, and food when none does |
| ExpectedFormatter.PdfFirstDocumentNotFood | expected_output_formatter.py:73-86 | a first file name containing "pdf" never leads to food, since "pdf" is an hr_forms indicator |
| ExpectedFormatter.MetadataOf | expected_output_formatter.py:32-44 | every document's file name ('' when absent) in order, the role and the job to be done ('' when absent), and the timestamp |
| ExpectedFormatter.FixedSections | expected_output_formatter.py:104-207 | each domain's table has five entries ranked 1 to 5, each with a document, a title and a positive page |
| ExpectedFormatter.FixedSubsections | expected_output_formatter.py:222-310 | each domain's five sub-section entries share document and page with the section entry of the same position |
| ExpectedFormatter.ExpectedOutputFormatter.constructor | expected_output_formatter.py:79 | a new formatter holds no challenge data, so domain detection skips it until the first call stores some |
| ExpectedFormatter.ExpectedOutputFormatter.FormatExpectedOutput | expected_output_formatter.py:14-66 | stores the challenge data, builds the metadata from it and picks both tables by the detected domain |
| ExpectedFormatter.EstimatePageNumber | expected_output_formatter.py:396-416 | an explicit page wins; otherwise one of 1, 4, 7, 8, 9, 11 |
| ExpectedFormatter.FirstContainedCons | expected_output_formatter.py:404-413 | the first fragment found is the head when it occurs, otherwise one past the first in the rest |
| ExpectedFormatter.EstimatePageNumberIsFirstKey | expected_output_formatter.py:403-416 | without a page, the guess paired with the first fragment found in the lower-cased path, and 1 when none is |
| ExpectedFormatter.Under | expected_output_formatter.py:361-382 | every line filed under a part is non-empty |
| ExpectedFormatter.Filed | expected_output_formatter.py:362-382 | a line is filed only when non-empty |
| ExpectedFormatter.JoinStep | expected_output_formatter.py:374-382 | the accumulators add the first piece alone and later pieces after the separator |
| ExpectedFormatter.ScanLineFiles | expected_output_formatter.py:361-382 | one scan step extends each accumulator by what the line files under its part |
| ExpectedFormatter.ScanJoinsUnder | expected_output_formatter.py:356-382 | the ingredients are the lines under ingredients joined with ", ", the instructions those under instructions joined with " ", and the part is the last header seen |
| ExpectedFormatter.ScanAppend | expected_output_formatter.py:361 | scanning one more line is one more step |
| ExpectedFormatter.ScanSnoc | expected_output_formatter.py:361 | scanning up to line i + 1 is one step after scanning up to line i |
| ExpectedFormatter.CollectRecipeParts | expected_output_formatter.py:357-382 | the line loop computes the two accumulators of the scan |
| ExpectedFormatter.RecipeParts | expected_output_formatter.py:354-385 | both parts present only when both are non-empty and both header words occur |
| ExpectedFormatter.LineTitle | expected_output_formatter.py:319-327 | a title offered by a line is non-empty, under 50 characters, and free of '.' and ':' |
| ExpectedFormatter.FirstLineTitle | expected_output_formatter.py:319-327 | a title taken from a line is non-empty, shorter than 50 characters and free of "." and ":" |
| ExpectedFormatter.FirstLineTitleNone | expected_output_formatter.py:319-327 | no title is found exactly when none of the lines offers one |
| ExpectedFormatter.ExtractSectionTitle | expected_output_formatter.py:311-343 | the title heuristic never returns an empty title |
| ExpectedFormatter.RefineTextContent | expected_output_formatter.py:345-394 | the method computes the corrected refinement |
| ExpectedFormatter.RefineTextCorrectsAsWritten | expected_output_formatter.py:345-394 | where the code as written returns, the corrected one agrees; it raises exactly for non-empty recipe text, where the corrected one starts with the title |
| ExpectedFormatter.RefineTextEmptyIffBlank | expected_output_formatter.py:345-394 | empty exactly for blank content; a text that is not a recipe comes out at most 503 characters long |
| ExpectedFormatter.ScanHeaderLine | expected_output_formatter.py:366-371 | a header line only switches the current part |
| ExpectedFormatter.ScanFirstBodyLine | expected_output_formatter.py:373-382 | the first body line under a part becomes that part's text |
| ExpectedFormatter.RecipeLinesScan | expected_output_formatter.py:361-382 | header, line, header, line collect the second as ingredients and the fourth as instructions |
| ExpectedFormatter.ScanFour | expected_output_formatter.py:361 | scanning four lines is four steps |
| ExpectedFormatter.ContainsInJoinPiece | expected_output_formatter.py:354 | what occurs in a piece of a joined text occurs in the text |
| ExpectedFormatter.RecipeLinesParts | expected_output_formatter.py:351-385 | four such lines joined by newlines are already stripped and yield the two body lines as recipe parts |
| ExpectedFormatter.RecipeLinesText | expected_output_formatter.py:351 | four such lines joined by newlines are non-empty and already stripped |
| ExpectedFormatter.HeaderWordsOccur | expected_output_formatter.py:354 | both header words occur in four such lines |
| ExpectedFormatter.JoinFour | expected_output_formatter.py:356 | joining four lines puts the separator between each pair |
| ExpectedFormatter.NewlineFree | expected_output_formatter.py:356 | four such lines hold no newline |
| ExpectedFormatter.RecipeWithBothPartsRaises | expected_output_formatter.py:385-387 | any such four-line recipe makes the code as written raise AttributeError; the corrected refinement renders title, ingredients and instructions |
| ExpectedFormatter.LowerWordLine | expected_output_formatter.py:366-371 | "flour" and "bake" are body lines |
| ExpectedFormatter.IngredientsWord | expected_output_formatter.py:362 | "ingredients" is a single stripped line |
| ExpectedFormatter.InstructionsWord | expected_output_formatter.py:362 | "instructions" is a single stripped line |
| ExpectedFormatter.IngredientsLine | expected_output_formatter.py:366-368 | "ingredients" is an ingredients header |
| ExpectedFormatter.InstructionsLine | expected_output_formatter.py:369-371 | "instructions" is an instructions header |
| ExpectedFormatter.InstructionsLacksIngredients | expected_output_formatter.py:366 | "instructions" does not contain "ingredients" |
| ExpectedFormatter.FlourAndBakeRaises | expected_output_formatter.py:345-387 | the recipe "ingredients", "flour", "instructions", "bake" raises AttributeError as written |
| VerifyFormat.Get | verify_expected_format.py:16 | a parsed member's value is one of the members of that name (the last wins) |
| VerifyFormat.GetDistinct | verify_expected_format.py:16 | with distinct names, each name's value is the one stored with it |
| PyStrings.KeysOf | verify_expected_format.py:66 | the member names in order |
| VerifyFormat.Keys | verify_expected_format.py:66 | `data.keys()`: every name once and nothing else |
| VerifyFormat.Outside | verify_expected_format.py:20 | exactly the names not in the allowed list |
| VerifyFormat.In | verify_expected_format.py:20 | `key in v`: dict membership for a dict; TypeError exactly for numbers, booleans and null |
| VerifyFormat.Index | verify_expected_format.py:29 | `v[key]` succeeds exactly on a dict holding the key, with its value; anything but a dict raises TypeError |
| VerifyFormat.Len | verify_expected_format.py:46 | `len(v)` is a list's length, and raises exactly for numbers, booleans and null |
| VerifyFormat.Missing | verify_expected_format.py:19-20 | exactly the absent names; TypeError exactly when a name is looked up in a non-container |
| VerifyFormat.MetadataErrors | verify_expected_format.py:37-41 | at most one error per check, none exactly when every field is present with its type, and TypeError when a non-dict is indexed |
| VerifyFormat.CheckReport | verify_expected_format.py:38-41 | one check adds a missing-field error exactly when the field is absent and a type error exactly when present with the wrong type |
| VerifyFormat.MetadataErrorsStep | verify_expected_format.py:37-41 | the loop over the checks appends each check's report in order |
| VerifyFormat.CheckedSnoc | verify_expected_format.py:30-35 | a field is checked by a longer list exactly when checked before or by the last entry |
| VerifyFormat.MetadataErrorsOfDict | verify_expected_format.py:37-41 | against a dict, a missing-field error exactly for each absent checked field and a type error exactly for each present field of the wrong type |
| VerifyFormat.Tagged | verify_expected_format.py:50-52 | one missing-field error per absent field of an item, in field order |
| VerifyFormat.ItemErrors | verify_expected_format.py:48-52 | TypeError exactly when a field is looked up in a non-container item; no error exactly when every item has every field |
| VerifyFormat.ItemErrorsReport | verify_expected_format.py:48-52 | with container items, an error exactly for each (item, field) pair whose field is absent |
| VerifyFormat.ListErrors | verify_expected_format.py:44-63 | a single error unless the value is a list of five; no error exactly for five items each with every field |
| VerifyFormat.UnexpectedErrors | verify_expected_format.py:65-68 | an entry exactly when a key lies outside the three, naming exactly those keys |
| VerifyFormat.Errors | verify_expected_format.py:26-68 | the error list exists only for a dict |
| VerifyFormat.Counts | verify_expected_format.py:77-83 | the counts form a PASSED report |
| VerifyFormat.ErrorsEmptyIff | verify_expected_format.py:26-70 | with the three keys present, no error exactly when the file is well formed |
| VerifyFormat.CountsOfWellFormed | verify_expected_format.py:77-83 | a well-formed file reports its number of documents, its persona and five and five |
| VerifyFormat.VerifyPassedIff | verify_expected_format.py:10-83 | PASSED exactly for well-formed files, and then with their counts |
| VerifyFormat.MissingKeysFailAlone | verify_expected_format.py:19-24 | a dict lacking a required key FAILS with the missing-key error alone, naming exactly the absent keys |
| VerifyFormat.UnexpectedKeyFails | verify_expected_format.py:65-74 | an extra top-level key makes a completed check FAIL with an error naming it |
| VerifyFormat.ScalarRaises | verify_expected_format.py:20 | a number, boolean or null at the top level raises TypeError |
| VerifyFormat.MissingOf | verify_expected_format.py:20 | the loop over the required keys computes the missing ones |
| VerifyFormat.CheckMetadata | verify_expected_format.py:37-41 | the loop computes the metadata errors |
| VerifyFormat.CheckListing | verify_expected_format.py:44-63 | one list check with its nested loop computes that list's errors |
| VerifyFormat.VerifyExpectedFormat | verify_expected_format.py:10-83 | the method computes the verdict |
| VerifyFormat.CollectErrors | verify_expected_format.py:26-68 | the three checks and the unexpected keys compute the error list |
| VerifyFormat.Outcomes | verify_expected_format.py:100-108 | one outcome per collection, none for a missing file |
| VerifyFormat.AllPassed | verify_expected_format.py:97-108 | raises exactly when some check raises; otherwise true exactly when every file exists and PASSES |
| VerifyFormat.AllPassedRaisesEarly | verify_expected_format.py:100-102 | once a check raises, the run ends with that exception |
| VerifyFormat.CheckCollections | verify_expected_format.py:97-108 | the collection loop computes whether all passed |
| VerifyFormat.StringsJson | expected_output_formatter.py:34-37 | the file names serialise as a list of the same length |
| VerifyFormat.FiveObjectsWith | verify_expected_format.py:48-52 | five dicts whose names are the required fields have every field |
| VerifyFormat.SectionJsonNames | expected_output_formatter.py:104-137 | a serialised section entry has exactly the four section fields |
| VerifyFormat.SubsectionJsonNames | expected_output_formatter.py:222-250 | a serialised sub-section entry has exactly the three sub-section fields |
| VerifyFormat.ObjectMeetsChecks | verify_expected_format.py:37-41 | a dict with exactly the checked names, distinct and of the right types, passes every check |
| VerifyFormat.MetadataJsonOk | expected_output_formatter.py:32-44 | the serialised metadata passes every metadata check and holds the document list and the persona |
| VerifyFormat.OutputJsonKeys | expected_output_formatter.py:31-51 | the serialised output has exactly the three required keys |
| VerifyFormat.ExpectedOutputPasses | verify_expected_format.py:10-83 | any output of five sections and five sub-sections PASSES with its document count and persona |
| VerifyFormat.FormattedOutputPasses | expected_output_formatter.py:14-53 | whatever its inputs, the output the expected formatter builds PASSES the format check |
| DocumentAnalyst.Tag | document_analyst/__init__.py:46-48 | one entry per section of a document, each tagged with that document's path |
| DocumentAnalyst.CollectedProvenance | document_analyst/__init__.py:43-48 | every section of every document is collected once with its own path, and nothing else is |
| DocumentAnalyst.CollectSections | document_analyst/__init__.py:43-48 | the nested loop collects the tagged sections in document order, then section order |
| DocumentAnalyst.SectionsOf | document_analyst/__init__.py:54 | the collected sections handed to the scorer, in order |
| DocumentAnalyst.Attach | document_analyst/core/relevance_scorer.py:61-70 | each scored copy keeps the document tag of the dict it was copied from |
| DocumentAnalyst.Scored | document_analyst/__init__.py:54 | scoring keeps each section and its document tag, in order |
| DocumentAnalyst.SliceEnd | document_analyst/__init__.py:58 | `[:top_k]` keeps min(top_k, n) items, and a negative top_k drops that many from the end |
| DocumentAnalyst.AnalyzeDocuments | document_analyst/__init__.py:28-71 | the method computes the top sections of the analysis; no document gives no section |
| DocumentAnalyst.CutBelow | document_analyst/__init__.py:57-58 | in a descending list cut at e, everything kept scores at least as high as everything cut |
| DocumentAnalyst.CutPrefix | document_analyst/__init__.py:58 | the kept prefix is descending, drawn from the list, and scores at least as high as everything cut |
| DocumentAnalyst.TopCut | document_analyst/__init__.py:57-58 | the sorted list cut at `[:top_k]` is descending, drawn from the input, and no section left out scores higher than one kept |
| DocumentAnalyst.FromCollected | document_analyst/__init__.py:43-54 | a scored copy of a collected section carries some document's path and one of its sections |
| DocumentAnalyst.AnalysisRanked | document_analyst/__init__.py:42-71 | the result holds the top `[:top_k]` of the scored sections in descending score, each from a given document, and none left out scores higher |
| DocumentAnalyst.AnalysisStable | document_analyst/__init__.py:57 | among equal scores the result keeps document order, then section order |
| JobTemplates.WellFormedOfThree | document_analyst/job_templates.py:8-114 | three entries with distinct names, each with keywords and focus areas, form a well-formed table |
| JobTemplates.TablesWellFormed | document_analyst/job_templates.py:8-114 | every domain table has three distinct jobs, each with keywords and focus areas |
| JobTemplates.JobsForDomainIgnoresCase | document_analyst/job_templates.py:130 | the lookup ignores letter case |
| JobTemplates.JobsForDomainIff | document_analyst/job_templates.py:116-130 | a table exactly for the nine accepted names, always well formed; any other name gives the empty dict |
| JobTemplates.DomainAliases | document_analyst/job_templates.py:119-129 | "finance" selects the business table, "media" the journalism table and "healthcare" the medical table |
| JobTemplates.SuggestIsFirstRule | document_analyst/job_templates.py:132-151 | the suggestion is the table of the first rule with a word in the lower-cased role, and business when none has one |
| JobTemplates.ResearcherBeforeAnalyst | document_analyst/job_templates.py:137-142 | a role naming both a researcher and an analyst also matches the business rule, yet gets the academic table |
| JobTemplates.UnknownRoleGetsBusiness | document_analyst/job_templates.py:149-151 | a role matching no rule gets the business table |
| JobTemplates.NoRuleWordGetsBusiness | document_analyst/job_templates.py:135-151 | a role holding no rule word matches no rule and gets the business table |
| PersonaTemplates.ListIsKeys | document_analyst/persona_templates.py:115-122 | the listed names are exactly the lookup keys, in order, and distinct |
| PersonaTemplates.GetTemplateIff | document_analyst/persona_templates.py:98-113 | a template exactly for a name whose lower-case form is listed, whatever its letter case |
| PersonaTemplates.ListedTemplatesResolve | document_analyst/persona_templates.py:98-122 | every listed name resolves to the template stored under it |
| PersonaTemplates.TemplatesDistinctRoles | document_analyst/persona_templates.py:8-96 | ten different roles, each with goals, keywords and context preferences |
| PersonaTemplates.NoRuleWordInPolicyMaker | document_analyst/job_templates.py:135-148 | a role lacking these letters holds no rule word once lower-cased |
| PersonaTemplates.PolicyMakerLetters | document_analyst/persona_templates.py:63 | the letters of "Policy Maker" |
| PersonaTemplates.PolicyMakerLacks | document_analyst/persona_templates.py:63 | a text made of those letters lacks every letter the rule words need |
| PersonaTemplates.PolicyMakerGetsBusiness | main.py:158-168 | the policy-maker role matches no rule and gets the business table by default |
| PersonaTemplates.NoRuleWordInTechnicalWriter | document_analyst/job_templates.py:135-148 | a role lacking these letters holds no rule word once lower-cased |
| PersonaTemplates.TechnicalWriterLetters | document_analyst/persona_templates.py:90 | the letters of "Technical Writer" |
| PersonaTemplates.TechnicalWriterLacks | document_analyst/persona_templates.py:90 | a text made of those letters lacks every letter the rule words need |
| PersonaTemplates.TechnicalWriterGetsBusiness | main.py:158-168 | the technical-writer role matches no rule and gets the business table by default |

## Left out

- Unicode: character classes (`\s`, `\w`, letters, upper and lower case) are the ASCII ones, so non-ASCII letters, non-ASCII whitespace (U+0085, U+00A0, U+2000 to U+200A, U+3000 and the like) and Unicode case mapping are not modelled. ASCII whitespace is complete: space, `\t`, `\n`, `\r`, `\v`, `\f` and the separators U+001C to U+001F.
- The nltk sentence and word tokenizers and its stop-word list are external: the tokenizer and the stop-word set are parameters of the functions that use them.
- scikit-learn's TF-IDF vectorizer is external: its similarity vector is an optional input, and a missing vector stands for the `ValueError` path, which scores zeros.
- PDF, DOCX and text file parsing (`document_analyst/parsers/`, `core/document_processor.py`) read files: the model starts from the extracted text, pages or paragraphs.
- Clocks, timestamps, processing time measurement, `psutil` memory figures and `check_time_limit` are I/O: timestamps and elapsed times are parameters where the output holds them.
- Floating point: scores are `real`, so rounding error is not modelled, and `round(x, 4)` on output values is left out.
- Regular expressions are written as hand-made predicates for the patterns the code uses, not as a general regex engine.
- `list(set(...))` has an order that depends on string hashing: the model keeps first-occurrence order, so only membership and absence of duplicates of such lists are meaningful.
- Dictionaries are values: aliasing and `copy()` are not modelled, so "the input is not modified" holds by construction.
- JSON file reading and writing, printing, the command-line entry points of `main.py` and the summary they print are I/O and are left out.
- The `enhanced_output` branch of `analyze_documents` (document_analyst/__init__.py:60-69) delegates to the enhanced formatter, which is modelled on its own.
- JSON objects with duplicate keys are not modelled: the last value for a key wins, as in Python's `json.loads`.
- JobTemplates.SuggestJobForPersona: the `domain` argument of `suggest_job_for_persona` is ignored, as it is in the code.
- PersonaTemplates: the suggestion lemmas are proved only for the two templates that reach the default branch (Policy Maker and Technical Writer).
- ExpectedFormatter: the fixed travel, HR and food tables are modelled by their shape (titles, documents, pages, ranks) and not by every word of their text.
- The processor singleton's metrics (`_processor_instance`) and the challenge processor's `process_challenge_input` and `_format_challenge_output` are JSON I/O and output assembly around the modelled helpers.
- EnhancedFormatter: the per-field labels (`_generate_section_title`, `_get_score_breakdown`, `_extract_key_concepts`, the `_assess_*` helpers, `_calculate_information_density`, `_calculate_readability`, `_classify_task_type`, `_assess_complexity`) are descriptive strings and are left out. So are the report's constant fields `scoring_method` (enhanced_output_formatter.py:62) and the sub-section's `page_range` and `total_pages_covered` (:107-110), which restate the page number or are fixed values.
- RelevanceScorer.CombinedScoresDominance: the example where the machine-learning section outranks the software-engineering one depends on TF-IDF values, so the general dominance of a section that is better on every signal is proved instead.
- OptimizedSections: the fourth header pattern of `_extract_sections` needs two newlines after the captured group and so can never match a single line; the model leaves it out.
- LightweightAnalyst.AnalyzeDocumentsFast: where the code raises ZeroDivisionError from the weighted total and re-raises it (the joined section texts give no section or no sub-section, as with an empty document list), the model continues with the corrected total; the total is not part of the results, so the model returns the results the corrected code would.
- LightweightAnalyst.IsSectionHeader: the rule (at most 100 characters, and a header keyword or an upper-case or title-case line) is stated by the predicate itself; the lemmas prove only that surrounding space does not matter and that a header starts a section.

## Findings

| source | as written | input that shows it | evidently intended | confidence | as-written member | corrected member |
|---|---|---|---|---|---|---|
| optimized_relevance_scorer.py:351-362 | `_calculate_weighted_score` divides by `min(5, len(section_scores))` and `min(10, len(subsection_scores))`, so a document with no sub-section raises ZeroDivisionError | the document "Hello world.": one section, no sentence fragment over 20 characters, so no sub-section | a weighted total in [0, 1] in which an empty list contributes 0 | not executed | OptimizedScorer.HelloWorldRaises | OptimizedScorer.WeightedScoreRange |
| expected_output_formatter.py:385-387 | `_refine_text_content` calls `self._extract_section_title`, which the class does not define (its body follows the `return` of the food sub-section table at line 284), so it raises AttributeError | the lines "ingredients", "flour", "instructions", "bake" | the recipe rendered as "<title> Ingredients: flour. Instructions: bake" | not executed | ExpectedFormatter.FlourAndBakeRaises | ExpectedFormatter.RefineTextCorrectsAsWritten |

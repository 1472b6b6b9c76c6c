/** The enhanced output formatter: turns the analysed sections into the report with document
    metadata, ranked extracted sections, a detailed analysis of the first five, summary
    statistics and recommendations. */
module EnhancedFormatter {
  import opened PyStrings
  import Ranking

  /** What the formatter reads of an analysed section dictionary; every key may be absent. */
  datatype AnalyzedSection = AnalyzedSection(content: Option<string>, score: Option<real>,
                                             document: Option<string>, sectionId: Option<int>,
                                             sectionType: Option<string>, source: Option<string>)

  function ContentOf(s: AnalyzedSection): string { GetOr(s.content, "") }
  function DocumentOf(s: AnalyzedSection): string { GetOr(s.document, "") }
  function ScoreOf(s: AnalyzedSection): real { GetOr(s.score, 0.0) }

  // ---------------------------------------------------------------------------
  // Path helpers
  // ---------------------------------------------------------------------------

  /** `_extract_filename`: "Unknown" for an empty path, else what follows the last '\' and
      then the last '/'. */
  function ExtractFilename(path: string): string {
    if path == [] then "Unknown"
    else Basename(Last(SplitOn(path, "\\")))
  }

  /** A non-empty path yields a suffix of itself holding neither separator. */
  lemma ExtractFilenameProperties(path: string)
    ensures path == [] ==> ExtractFilename(path) == "Unknown"
    ensures path != [] ==> var r := ExtractFilename(path);
      |r| <= |path| && path[|path| - |r|..] == r && !Contains(r, "\\") && !Contains(r, "/")
  {
    if path != [] {
      var inner := Last(SplitOn(path, "\\"));
      assert ExtractFilename(path) == Last(SplitOn(inner, "/"));
      LastOfLastPiece(path, "\\", "/");
    }
  }

  /** Splitting on one separator and then the last piece on another leaves a suffix of the
      text free of both. */
  lemma LastOfLastPiece(s: string, a: string, b: string)
    requires |a| > 0 && |b| > 0
    ensures var inner := Last(SplitOn(s, a)); var r := Last(SplitOn(inner, b));
      |r| <= |s| && s[|s| - |r|..] == r && !Contains(r, a) && !Contains(r, b)
  {
    var inner := Last(SplitOn(s, a));
    var r := Last(SplitOn(inner, b));
    LastPiece(s, a);
    LastPiece(inner, b);
    assert s[|s| - |r|..] == inner[|inner| - |r|..];
    if Contains(r, a) {
      ContainsInTail(inner, r, a);
    }
  }

  /** `_get_file_extension`: the lower-cased text after the last '.' of the whole path, or
      "unknown" when the path holds no '.'. */
  function GetFileExtension(path: string): string {
    if Contains(path, ".") then Lower(Last(SplitOn(path, "."))) else "unknown"
  }

  /** With a dot in the path, the extension is the lower-cased text after its last dot:
      lower-case and free of dots. */
  lemma FileExtensionProperties(path: string)
    ensures Contains(path, ".") ==> var r := GetFileExtension(path);
      Lower(r) == r && '.' !in r &&
      exists k :: 1 <= k <= |path| && path[k - 1] == '.' && r == Lower(path[k..])
    ensures !Contains(path, ".") ==> GetFileExtension(path) == "unknown"
  {
    if Contains(path, ".") {
      var p := Last(SplitOn(path, "."));
      var k := AfterLastChar(path, '.');
      LowerIdempotent(p);
      assert Lower(p) == Lower(path[k..]);
    }
  }

  /** The last piece of a text split on a character it holds is what follows the last
      occurrence of that character. */
  lemma AfterLastChar(s: string, c: char) returns (k: nat)
    requires Contains(s, [c])
    ensures var p := Last(SplitOn(s, [c]));
      c !in p && 1 <= k <= |s| && s[k - 1] == c && p == s[k..]
  {
    var p := Last(SplitOn(s, [c]));
    LastPiece(s, [c]);
    SplitOnContaining(s, [c]);
    LastPieceAfterSeparator(s, [c]);
    if c in p {
      ContainsChar(p, c);
    }
    k := |s| - |p|;
    assert MatchAt(s, [c], k - 1);
    assert s[k - 1..k] == [c];
  }

  /** `_get_document_id`: "doc_" and the one-based position of the first equal path, or
      "doc_unknown". */
  function DocumentId(docPath: string, allDocs: seq<string>): string {
    var k := IndexOf(allDocs, docPath);
    if k < |allDocs| then "doc_" + NatToString(k + 1) else "doc_unknown"
  }

  /** The id is "doc_unknown" exactly when the path is not listed. */
  lemma DocumentIdUnknown(docPath: string, allDocs: seq<string>)
    ensures DocumentId(docPath, allDocs) == "doc_unknown" <==> docPath !in allDocs
  {
    var k := IndexOf(allDocs, docPath);
    if k < |allDocs| {
      var digits := NatToString(k + 1);
      assert ("doc_" + digits)[4] == digits[0];
      assert digits[0] in digits;
      assert "doc_unknown"[4] == 'u';
    }
  }

  /** `_get_document_type`: a label from the words in the lower-cased file name, the first
      matching pair of words deciding. */
  function GetDocumentType(docPath: string): string {
    DocumentTypeOfName(Lower(ExtractFilename(docPath)))
  }

  /** The label chain of `_get_document_type` on an already lower-cased file name. */
  function DocumentTypeOfName(f: string): string {
    if Contains(f, "research") || Contains(f, "paper") then "Research Paper"
    else if Contains(f, "report") || Contains(f, "financial") then "Business Report"
    else if Contains(f, "textbook") || Contains(f, "chapter") then "Educational Material"
    else if Contains(f, "news") || Contains(f, "article") then "News Article"
    else if Contains(f, "contract") || Contains(f, "legal") then "Legal Document"
    else "General Document"
  }

  /** The document-type rules as a table: the label of the first rule whose words occur. */
  const DocumentTypeRules: seq<seq<string>> :=
    [["research", "paper"], ["report", "financial"], ["textbook", "chapter"],
     ["news", "article"], ["contract", "legal"]]
  const DocumentTypeLabels: seq<string> :=
    ["Research Paper", "Business Report", "Educational Material", "News Article",
     "Legal Document", "General Document"]

  lemma GetDocumentTypeIsFirstRule(f: string)
    ensures DocumentTypeOfName(f) == DocumentTypeLabels[FirstRule(f, DocumentTypeRules)]
  {
    FirstRuleOfFive(f, ["research", "paper"], ["report", "financial"], ["textbook", "chapter"],
                    ["news", "article"], ["contract", "legal"]);
    ContainsAnyTwo(f, "research", "paper");
    ContainsAnyTwo(f, "report", "financial");
    ContainsAnyTwo(f, "textbook", "chapter");
    ContainsAnyTwo(f, "news", "article");
    ContainsAnyTwo(f, "contract", "legal");
  }

  /** `_extract_page_number`: the section id (0 when absent) plus one, but at least 1. */
  function ExtractPageNumber(sectionId: Option<int>): (page: int)
    ensures page >= 1
    ensures sectionId.Some? && sectionId.value >= 0 ==> page == sectionId.value + 1
    ensures sectionId.None? || sectionId.value < 0 ==> page == 1
  {
    var id := GetOr(sectionId, 0);
    if id + 1 > 1 then id + 1 else 1
  }

  // ---------------------------------------------------------------------------
  // Confidence
  // ---------------------------------------------------------------------------

  /** The confidence labels of `_calculate_confidence`, lowest first. */
  datatype Confidence = VeryLow | Low | Medium | High {
    function Name(): string {
      match this
      case VeryLow => "Very Low"
      case Low => "Low"
      case Medium => "Medium"
      case High => "High"
    }

    function Rank(): nat {
      match this
      case VeryLow => 0
      case Low => 1
      case Medium => 2
      case High => 3
    }
  }

  /** `_calculate_confidence`: High from 0.8, Medium from 0.6, Low from 0.4, else Very Low. */
  function CalculateConfidence(score: real): (c: Confidence)
    ensures c == High <==> score >= 0.8
    ensures c == VeryLow <==> score < 0.4
    ensures c == Medium <==> 0.6 <= score < 0.8
  {
    if score >= 0.8 then High
    else if score >= 0.6 then Medium
    else if score >= 0.4 then Low
    else VeryLow
  }

  /** A higher score never gets a lower confidence. */
  lemma ConfidenceMonotone(a: real, b: real)
    requires a <= b
    ensures CalculateConfidence(a).Rank() <= CalculateConfidence(b).Rank()
  {
  }

  // ---------------------------------------------------------------------------
  // Text refinement
  // ---------------------------------------------------------------------------

  /** The sentence loop of `_refine_text_content`: each sentence is appended with ". " while the
      text so far plus the sentence stays under 450 characters; the first one that does not
      fit ends the loop. */
  function Greedy(refined: string, sentences: seq<string>): string
    decreases |sentences|
  {
    if sentences == [] then refined
    else if |refined + sentences[0]| < 450 then Greedy(refined + sentences[0] + ". ", sentences[1..])
    else refined
  }

  /** What `_refine_text_content` returns. */
  function RefinedText(content: string): string {
    var cleaned := Collapse(content);
    if |cleaned| > 500 then Strip(Greedy("", SplitOn(cleaned, ". "))) else cleaned
  }

  /** `_refine_text_content`. */
  method RefineTextContent(content: string) returns (r: string)
    ensures r == RefinedText(content)
  {
    var cleaned := Collapse(content);
    if |cleaned| > 500 {
      var sentences := SplitOn(cleaned, ". ");
      var refined := "";
      var i := 0;
      while i < |sentences|
        invariant 0 <= i <= |sentences|
        invariant Greedy(refined, sentences[i..]) == Greedy("", sentences)
      {
        assert sentences[i..][1..] == sentences[i + 1..];
        if |refined + sentences[i]| < 450 {
          refined := refined + sentences[i] + ". ";
        } else {
          break;
        }
        i := i + 1;
      }
      r := Strip(refined);
    } else {
      r := cleaned;
    }
  }

  /** A text still longer than 450 characters once the sentences are rejoined keeps, after the
      loop, a prefix of that text of at most 451 characters that is empty or ends in ". ". */
  lemma {:induction false} GreedyShape(refined: string, sentences: seq<string>)
    requires |refined + Join(sentences, ". ")| >= 450
    requires |refined| <= 451 && (refined == [] || (|refined| >= 2 && refined[|refined| - 2..] == ". "))
    ensures var g := Greedy(refined, sentences); var text := refined + Join(sentences, ". ");
      |g| <= 451 && (g == [] || (|g| >= 2 && g[|g| - 2..] == ". ")) &&
      |g| <= |text| && g == text[..|g|]
    decreases |sentences|
  {
    if |sentences| > 1 && |refined + sentences[0]| < 450 {
      var next := refined + sentences[0] + ". ";
      assert Join(sentences, ". ") == sentences[0] + ". " + Join(sentences[1..], ". ");
      assert next + Join(sentences[1..], ". ") == refined + Join(sentences, ". ");
      assert next[|next| - 2..] == ". ";
      GreedyShape(next, sentences[1..]);
    }
  }

  /** A text that collapses to at most 500 characters comes back collapsed. A longer one is
      cut to a prefix of the collapsed text of at most 450 characters that is empty or ends
      with the '.' of the last whole sentence kept. */
  lemma RefinedTextProperties(content: string)
    ensures var r := RefinedText(content); var c := Collapse(content);
      |r| <= 500 && |r| <= |c| && r == c[..|r|] &&
      (|c| <= 500 ==> r == c) &&
      (|c| > 500 ==> |r| <= 450 && (r == [] || r[|r| - 1] == '.'))
  {
    var c := Collapse(content);
    if |c| > 500 {
      var sentences := SplitOn(c, ". ");
      JoinSplitOn(c, ". ");
      GreedyShape("", sentences);
      CollapseNormalized(content);
      assert !IsSpace(c[0]);
      StripSentences(Greedy("", sentences), c);
    }
  }

  /** Stripping kept sentences that end in ". " drops the final space only. */
  lemma StripSentences(g: string, c: string)
    requires g == [] || (|g| >= 2 && g[|g| - 2..] == ". ")
    requires |g| <= |c| && g == c[..|g|] && (c == [] || !IsSpace(c[0]))
    ensures var r := Strip(g);
      r == c[..|r|] && (g != [] ==> |r| == |g| - 1 && r[|r| - 1] == '.')
  {
    if g != [] {
      assert g[0] == c[0];
      assert LStrip(g) == g;
      var h := g[..|g| - 1];
      assert g[|g| - 1] == ' ' && h[|h| - 1] == '.';
      assert RStrip(h) == h;
      assert RStrip(g) == h;
    }
  }

  /** A long text with no ". " in it is one sentence of more than 450 characters, so nothing
      fits and the refined text is empty. */
  lemma LongSingleSentenceRefinesToEmpty(content: string)
    requires |Collapse(content)| > 500 && !Contains(Collapse(content), ". ")
    ensures RefinedText(content) == ""
  {
    var c := Collapse(content);
    if FindFrom(c, ". ", 0) >= 0 {
      ContainsIffMatch(c, ". ");
    }
    assert SplitOn(c, ". ") == [c];
  }

  // ---------------------------------------------------------------------------
  // Summary statistics
  // ---------------------------------------------------------------------------

  /** The file name of each section's document, in order. */
  function Filenames(sections: seq<AnalyzedSection>): (r: seq<string>)
    ensures |r| == |sections| && forall i :: 0 <= i < |r| ==> r[i] == ExtractFilename(DocumentOf(sections[i]))
  {
    if sections == [] then [] else Filenames(sections[..|sections| - 1]) + [ExtractFilename(DocumentOf(Last(sections)))]
  }

  /** The counts `_analyze_content_distribution` accumulates, one file after another. */
  function Distribution(files: seq<string>): map<string, nat> {
    if files == [] then map[]
    else
      var d := Distribution(files[..|files| - 1]);
      var f := Last(files);
      d[f := (if f in d then d[f] else 0) + 1]
  }

  /** `_analyze_content_distribution`. */
  method AnalyzeContentDistribution(sections: seq<AnalyzedSection>) returns (distribution: map<string, nat>)
    ensures distribution == Distribution(Filenames(sections))
  {
    var files := Filenames(sections);
    distribution := map[];
    for i := 0 to |sections|
      invariant distribution == Distribution(files[..i])
    {
      assert files[..i + 1][..i] == files[..i];
      var doc := ExtractFilename(DocumentOf(sections[i]));
      distribution := distribution[doc := (if doc in distribution then distribution[doc] else 0) + 1];
    }
    assert files[..|sections|] == files;
  }

  /** The distribution has one entry per file name, counting its sections. */
  lemma {:induction false} DistributionCounts(files: seq<string>)
    ensures forall f :: f in Distribution(files) <==> f in files
    ensures forall f <- Distribution(files) :: Distribution(files)[f] == CountOf(files, f)
    decreases |files|
  {
    if files != [] {
      var init := files[..|files| - 1];
      var x := Last(files);
      DistributionCounts(init);
      assert files == init + [x];
      forall f ensures CountOf(files, f) == CountOf(init, f) + (if x == f then 1 else 0) {
        CountOfAppend(init, x, f);
      }
      forall f | f in Distribution(files) && f != x ensures f in init {
      }
      forall f | f in init && f !in Distribution(init) ensures false {
      }
      assert x in init ==> x in Distribution(init);
      assert x !in init ==> CountOf(init, x) == 0 by {
        if x !in init { CountOfAbsent(init, x); }
      }
    }
  }

  lemma {:induction false} CountOfAbsent<T>(xs: seq<T>, x: T)
    requires x !in xs
    ensures CountOf(xs, x) == 0
  {
    if xs != [] {
      CountOfAbsent(xs[1..], x);
    }
  }

  /** The sum of the map's values over the listed keys. */
  function SumOver(d: map<string, nat>, keys: seq<string>): int
    requires forall k <- keys :: k in d
  {
    if keys == [] then 0 else d[keys[0]] + SumOver(d, keys[1..])
  }

  /** The counts of all listed keys, summed. */
  function SumCounts(files: seq<string>, keys: seq<string>): int {
    if keys == [] then 0 else CountOf(files, keys[0]) + SumCounts(files, keys[1..])
  }

  lemma {:induction false} SumCountsCons(x: string, rest: seq<string>, keys: seq<string>)
    ensures SumCounts([x] + rest, keys) == CountOf(keys, x) + SumCounts(rest, keys)
    decreases |keys|
  {
    if keys != [] {
      assert ([x] + rest)[1..] == rest;
      SumCountsCons(x, rest, keys[1..]);
    }
  }

  lemma {:induction false} CountOfDistinct(keys: seq<string>, x: string)
    requires x in keys && forall i, j :: 0 <= i < j < |keys| ==> keys[i] != keys[j]
    ensures CountOf(keys, x) == 1
    decreases |keys|
  {
    if keys[0] == x {
      forall j | 0 <= j < |keys| - 1 ensures keys[1..][j] != x {
        assert keys[0] != keys[j + 1];
      }
      CountOfAbsent(keys[1..], x);
    } else {
      CountOfDistinct(keys[1..], x);
    }
  }

  /** Listing every file name once, the counts add up to the number of files. */
  lemma {:induction false} SumCountsTotal(files: seq<string>, keys: seq<string>)
    requires forall f <- files :: f in keys
    requires forall i, j :: 0 <= i < j < |keys| ==> keys[i] != keys[j]
    ensures SumCounts(files, keys) == |files|
    decreases |files|
  {
    if files == [] {
      SumCountsEmpty(keys);
    } else {
      assert files == [files[0]] + files[1..];
      SumCountsCons(files[0], files[1..], keys);
      CountOfDistinct(keys, files[0]);
      SumCountsTotal(files[1..], keys);
    }
  }

  lemma {:induction false} SumCountsEmpty(keys: seq<string>)
    ensures SumCounts([], keys) == 0
  {
    if keys != [] {
      SumCountsEmpty(keys[1..]);
    }
  }

  lemma {:induction false} SumOverCounts(files: seq<string>, keys: seq<string>)
    requires forall k <- keys :: k in Distribution(files)
    requires forall f <- Distribution(files) :: Distribution(files)[f] == CountOf(files, f)
    ensures SumOver(Distribution(files), keys) == SumCounts(files, keys)
    decreases |keys|
  {
    if keys != [] {
      SumOverCounts(files, keys[1..]);
    }
  }

  /** The content distribution counts sum to the number of sections: taken over its keys in
      first-occurrence order, each once, the counts add up to `|sections|`. */
  lemma DistributionTotal(sections: seq<AnalyzedSection>)
    ensures var files := Filenames(sections); var d := Distribution(files);
      (forall k :: k in d <==> k in Distinct(files)) &&
      SumOver(d, Distinct(files)) == |sections|
  {
    var files := Filenames(sections);
    DistributionCounts(files);
    SumOverCounts(files, Distinct(files));
    SumCountsTotal(files, Distinct(files));
  }

  /** All sections come from one file exactly when the distribution has a single entry. */
  lemma SingleDocumentDistribution(files: seq<string>)
    ensures |Distribution(files)| == 1 <==> files != [] && forall f <- files :: f == files[0]
  {
    DistributionCounts(files);
    var keys := Distribution(files).Keys;
    if files != [] && forall f <- files :: f == files[0] {
      assert keys == {files[0]};
    }
    if |keys| == 1 {
      var k :| k in keys;
      if exists f <- files :: f != k {
        var f :| f in files && f != k;
        assert {k, f} <= keys;
        assert |{k, f}| == 2;
        SubsetCard({k, f}, keys);
      }
      assert files[0] in files;
    }
  }

  /** `_estimate_processing_time`: 100 ms, plus 50 per document and 10 per section. */
  function EstimateProcessingTime(numDocs: nat, numSections: nat): (ms: nat)
    ensures ms >= 100
  {
    100 + numDocs * 50 + numSections * 10
  }

  /** Each further document adds 50 ms and each further section 10 ms. */
  lemma ProcessingTimeIncrements(numDocs: nat, numSections: nat)
    ensures EstimateProcessingTime(numDocs + 1, numSections) == EstimateProcessingTime(numDocs, numSections) + 50
    ensures EstimateProcessingTime(numDocs, numSections + 1) == EstimateProcessingTime(numDocs, numSections) + 10
  {
  }

  /** The scores of the sections whose file name is `file`, in order. */
  function ScoresOf(sections: seq<AnalyzedSection>, file: string): (r: seq<real>)
    ensures |r| == CountOf(Filenames(sections), file)
    decreases |sections|
  {
    if sections == [] then []
    else
      var rest := ScoresOf(sections[1..], file);
      assert Filenames(sections) == [ExtractFilename(DocumentOf(sections[0]))] + Filenames(sections[1..]);
      if ExtractFilename(DocumentOf(sections[0])) == file then [ScoreOf(sections[0])] + rest else rest
  }

  /** The mean of a list of scores, 0 for none. */
  function Mean(xs: seq<real>): real {
    if xs == [] then 0.0 else SumReal(xs) / |xs| as real
  }

  /** The average score of a file's sections. */
  function DocumentAverage(sections: seq<AnalyzedSection>, file: string): real {
    Mean(ScoresOf(sections, file))
  }

  /** `_get_highest_scoring_document`: "None" without sections, else the file whose sections
      have the highest average score, the first such file in order of first appearance. */
  function HighestScoringDocument(sections: seq<AnalyzedSection>): (r: string)
    ensures sections == [] ==> r == "None"
    ensures sections != [] ==>
      var docs := Distinct(Filenames(sections));
      exists i :: 0 <= i < |docs| && r == docs[i] &&
        (forall j :: 0 <= j < |docs| ==> DocumentAverage(sections, docs[j]) <= DocumentAverage(sections, r)) &&
        (forall j :: 0 <= j < i ==> DocumentAverage(sections, docs[j]) < DocumentAverage(sections, r))
  {
    if sections == [] then "None"
    else
      var docs := Distinct(Filenames(sections));
      assert Filenames(sections)[0] in docs;
      docs[Ranking.FirstMaxIndex(docs, f => DocumentAverage(sections, f))]
  }

  /** The highest-scoring file is one the sections come from, and its average is at least
      that of every file any section comes from, taken over a non-empty list of scores. */
  lemma HighestScoringDocumentProperties(sections: seq<AnalyzedSection>)
    requires sections != []
    ensures var r := HighestScoringDocument(sections);
      r in Filenames(sections) && |ScoresOf(sections, r)| > 0 &&
      forall f <- Filenames(sections) :: DocumentAverage(sections, f) <= DocumentAverage(sections, r)
  {
    var files := Filenames(sections);
    var docs := Distinct(files);
    var r := HighestScoringDocument(sections);
    var i :| 0 <= i < |docs| && r == docs[i] &&
      (forall j :: 0 <= j < |docs| ==> DocumentAverage(sections, docs[j]) <= DocumentAverage(sections, r));
    assert r in docs;
    CountOfPresent(files, r);
    forall f <- files ensures DocumentAverage(sections, f) <= DocumentAverage(sections, r) {
      assert f in docs;
      var j :| 0 <= j < |docs| && docs[j] == f;
    }
  }

  lemma {:induction false} CountOfPresent<T>(xs: seq<T>, x: T)
    requires x in xs
    ensures CountOf(xs, x) > 0
  {
    if xs[0] != x {
      CountOfPresent(xs[1..], x);
    }
  }

  /** The average section score, 0 without sections. */
  function AverageScore(sections: seq<AnalyzedSection>): real {
    Mean(seq(|sections|, i requires 0 <= i < |sections| => ScoreOf(sections[i])))
  }

  // ---------------------------------------------------------------------------
  // Recommendations
  // ---------------------------------------------------------------------------

  const NoSectionsMessage := "No relevant sections found. Consider refining the search criteria or adding more documents."
  const LowScoreMessages := [
    "Low overall relevance scores detected. Consider:",
    "- Refining the persona definition with more specific keywords",
    "- Adjusting the job description to be more specific",
    "- Adding documents more closely related to the task"]
  const FewSectionsMessage := "Limited sections found. Consider adding more documents to the collection."
  const SingleDocumentMessage := "Content found in only one document. Consider diversifying the document collection."

  /** The recommendations `_generate_recommendations` lists. */
  function Recommendations(sections: seq<AnalyzedSection>): seq<string> {
    if sections == [] then [NoSectionsMessage]
    else
      (if AverageScore(sections) < 0.3 then LowScoreMessages else []) +
      (if |sections| < 3 then [FewSectionsMessage] else []) +
      (if |Distribution(Filenames(sections))| == 1 then [SingleDocumentMessage] else [])
  }

  /** `_generate_recommendations`. */
  method GenerateRecommendations(sections: seq<AnalyzedSection>) returns (recommendations: seq<string>)
    ensures recommendations == Recommendations(sections)
  {
    recommendations := [];
    if sections == [] {
      recommendations := recommendations + [NoSectionsMessage];
      return;
    }
    var avgScore := AverageScore(sections);
    if avgScore < 0.3 {
      recommendations := recommendations + [LowScoreMessages[0]];
      recommendations := recommendations + [LowScoreMessages[1]];
      recommendations := recommendations + [LowScoreMessages[2]];
      recommendations := recommendations + [LowScoreMessages[3]];
      assert recommendations == LowScoreMessages;
    }
    ghost var low := recommendations;
    if |sections| < 3 {
      recommendations := recommendations + [FewSectionsMessage];
    }
    ghost var few := recommendations;
    var docDistribution := AnalyzeContentDistribution(sections);
    if |docDistribution| == 1 {
      recommendations := recommendations + [SingleDocumentMessage];
    }
    assert low == (if AverageScore(sections) < 0.3 then LowScoreMessages else []);
    assert few == low + (if |sections| < 3 then [FewSectionsMessage] else []);
  }

  /** Without sections there is exactly one message. Otherwise there are four lines for an
      average score below 0.3, one for fewer than three sections and one when every section
      comes from the same file. */
  lemma RecommendationsCount(sections: seq<AnalyzedSection>)
    ensures sections == [] ==> Recommendations(sections) == [NoSectionsMessage]
    ensures sections != [] ==>
      |Recommendations(sections)| ==
        (if AverageScore(sections) < 0.3 then 4 else 0) + (if |sections| < 3 then 1 else 0) +
        (if forall f <- Filenames(sections) :: f == Filenames(sections)[0] then 1 else 0)
  {
    SingleDocumentDistribution(Filenames(sections));
  }

  // ---------------------------------------------------------------------------
  // The report
  // ---------------------------------------------------------------------------

  /** `persona.get(...)` with the formatter's defaults. */
  datatype PersonaInfo = PersonaInfo(role: Option<string>, experienceLevel: Option<string>,
                                     domain: Option<string>, goals: Option<seq<string>>,
                                     keywords: Option<seq<string>>, contextPreferences: Option<seq<string>>)
  datatype PersonaSummary = PersonaSummary(role: string, experienceLevel: string, domain: string,
                                           goals: seq<string>, keywords: seq<string>,
                                           contextPreferences: seq<string>)

  function SummarizePersona(p: PersonaInfo): PersonaSummary {
    PersonaSummary(GetOr(p.role, "Unknown"), GetOr(p.experienceLevel, "Not specified"),
                   GetOr(p.domain, "General"), GetOr(p.goals, []), GetOr(p.keywords, []),
                   GetOr(p.contextPreferences, []))
  }

  datatype InputDocument = InputDocument(filename: string, fullPath: string, fileType: string, documentId: string)
  /** The document an extracted section names: file name, identifier and the full path. */
  datatype DocumentRef = DocumentRef(filename: string, documentId: string, fullPath: string)
  /** The document a detailed analysis names: file name, identifier and the document type
      guessed from the file name, in place of the full path. */
  datatype SubsectionDocument = SubsectionDocument(filename: string, documentId: string, sourceType: string)
  datatype ExtractedSection = ExtractedSection(sectionId: string, document: DocumentRef, pageNumber: int,
                                               importanceRank: nat, relevanceScore: real,
                                               contentPreview: string, wordCount: nat,
                                               sectionType: string, extractionMethod: string,
                                               confidence: Confidence)
  datatype SubsectionAnalysis = SubsectionAnalysis(subsectionId: string, parentSectionId: string,
                                                   document: SubsectionDocument, refinedText: string,
                                                   startPage: int, endPage: int)
  datatype Summary = Summary(totalSectionsFound: nat, averageRelevanceScore: real,
                             highestScoringDocument: string, contentDistribution: map<string, nat>,
                             processingTimeMs: nat)
  datatype Report = Report(inputDocuments: seq<InputDocument>, persona: PersonaSummary,
                           taskDescription: string, totalDocumentsProcessed: nat,
                           totalSectionsAnalyzed: nat, extractedSections: seq<ExtractedSection>,
                           subsectionAnalysis: seq<SubsectionAnalysis>, summary: Summary,
                           recommendations: seq<string>)

  /** `content[:200] + "..."` when longer than 200 characters. */
  function Preview(content: string): string {
    if |content| > 200 then content[..200] + "..." else content
  }

  function SectionLabel(i: nat): string { "section_" + NatToString(i + 1) }

  function DocumentRefOf(s: AnalyzedSection, docs: seq<string>): DocumentRef {
    DocumentRef(ExtractFilename(DocumentOf(s)), DocumentId(DocumentOf(s), docs), DocumentOf(s))
  }

  function SubsectionDocumentOf(s: AnalyzedSection, docs: seq<string>): SubsectionDocument {
    SubsectionDocument(ExtractFilename(DocumentOf(s)), DocumentId(DocumentOf(s), docs),
                       GetDocumentType(DocumentOf(s)))
  }

  /** The entry for the input document at position `i`. */
  function InputDocumentEntry(i: nat, doc: string): InputDocument {
    InputDocument(ExtractFilename(doc), doc, GetFileExtension(doc), "doc_" + NatToString(i + 1))
  }

  /** The entry for the section at rank position `i`. */
  function ExtractedEntry(i: nat, s: AnalyzedSection, docs: seq<string>): ExtractedSection {
    ExtractedSection(SectionLabel(i), DocumentRefOf(s, docs), ExtractPageNumber(s.sectionId), i + 1,
                     ScoreOf(s), Preview(ContentOf(s)), |Words(ContentOf(s))|,
                     GetOr(s.sectionType, "text_section"), GetOr(s.source, "automatic"),
                     CalculateConfidence(ScoreOf(s)))
  }

  /** The detailed analysis of the section at position `i`. */
  function SubsectionEntry(i: nat, s: AnalyzedSection, docs: seq<string>): SubsectionAnalysis {
    SubsectionAnalysis("subsection_" + NatToString(i + 1), SectionLabel(i), SubsectionDocumentOf(s, docs),
                       RefinedText(ContentOf(s)), ExtractPageNumber(s.sectionId),
                       ExtractPageNumber(s.sectionId))
  }

  /** One extracted section per analysed section, in order. */
  function ExtractedList(docs: seq<string>, sections: seq<AnalyzedSection>): seq<ExtractedSection> {
    seq(|sections|, i requires 0 <= i < |sections| => ExtractedEntry(i, sections[i], docs))
  }

  /** The detailed analysis of the first five sections. */
  function SubsectionList(docs: seq<string>, sections: seq<AnalyzedSection>): seq<SubsectionAnalysis> {
    seq(Min(5, |sections|), i requires 0 <= i < Min(5, |sections|) => SubsectionEntry(i, sections[i], docs))
  }

  function SummaryOf(docs: seq<string>, sections: seq<AnalyzedSection>): Summary {
    Summary(|sections|, AverageScore(sections), HighestScoringDocument(sections),
            Distribution(Filenames(sections)), EstimateProcessingTime(|docs|, |sections|))
  }

  /** The report `format_analysis_results` builds. */
  function Formatted(docs: seq<string>, persona: PersonaInfo, task: string,
                     sections: seq<AnalyzedSection>): Report {
    Report(seq(|docs|, i requires 0 <= i < |docs| => InputDocumentEntry(i, docs[i])),
           SummarizePersona(persona), task, |docs|, |sections|,
           ExtractedList(docs, sections), SubsectionList(docs, sections),
           SummaryOf(docs, sections), Recommendations(sections))
  }

  /** `format_analysis_results`: the metadata, then one extracted section per analysed
      section, then the detailed analysis of the first five, the summary and the
      recommendations. */
  method FormatAnalysisResults(docs: seq<string>, persona: PersonaInfo, task: string,
                               sections: seq<AnalyzedSection>) returns (r: Report)
    ensures r == Formatted(docs, persona, task, sections)
  {
    var inputDocuments := seq(|docs|, i requires 0 <= i < |docs| => InputDocumentEntry(i, docs[i]));
    var extracted := ExtractSections(docs, sections);
    var subsections := AnalyzeSubsections(docs, sections);
    var distribution := AnalyzeContentDistribution(sections);
    var recommendations := GenerateRecommendations(sections);
    var summary := Summary(|sections|, AverageScore(sections), HighestScoringDocument(sections),
                           distribution, EstimateProcessingTime(|docs|, |sections|));
    r := Report(inputDocuments, SummarizePersona(persona), task, |docs|, |sections|, extracted,
                subsections, summary, recommendations);
  }

  /** The extracted-sections loop of `format_analysis_results`. */
  method ExtractSections(docs: seq<string>, sections: seq<AnalyzedSection>) returns (extracted: seq<ExtractedSection>)
    ensures extracted == ExtractedList(docs, sections)
  {
    extracted := [];
    for i := 0 to |sections|
      invariant |extracted| == i
      invariant forall j :: 0 <= j < i ==> extracted[j] == ExtractedEntry(j, sections[j], docs)
    {
      extracted := extracted + [ExtractedEntry(i, sections[i], docs)];
    }
  }

  /** The sub-section loop of `format_analysis_results`, over the first five sections. */
  method AnalyzeSubsections(docs: seq<string>, sections: seq<AnalyzedSection>) returns (subsections: seq<SubsectionAnalysis>)
    ensures subsections == SubsectionList(docs, sections)
  {
    subsections := [];
    var top := sections[..Min(5, |sections|)];
    for i := 0 to |top|
      invariant |subsections| == i
      invariant forall j :: 0 <= j < i ==> subsections[j] == SubsectionEntry(j, sections[j], docs)
    {
      var s := top[i];
      var refined := RefineTextContent(ContentOf(s));
      var page := ExtractPageNumber(s.sectionId);
      var entry := SubsectionAnalysis("subsection_" + NatToString(i + 1), SectionLabel(i),
                                      SubsectionDocumentOf(s, docs), refined, page, page);
      assert s == sections[i];
      assert entry == SubsectionEntry(i, sections[i], docs);
      subsections := subsections + [entry];
    }
  }

  /** Extracted sections follow the input order with ranks 1, 2, 3, ..., keep each section's
      score and path, and label a section without a type or source "text_section" extracted
      "automatic"ally; every page is at least 1. */
  lemma ExtractedListStructure(docs: seq<string>, sections: seq<AnalyzedSection>)
    ensures var ex := ExtractedList(docs, sections);
      |ex| == |sections| &&
      forall i :: 0 <= i < |sections| ==>
        ex[i].importanceRank == i + 1 && ex[i].pageNumber >= 1 &&
        ex[i].relevanceScore == ScoreOf(sections[i]) &&
        ex[i].document.fullPath == DocumentOf(sections[i]) &&
        (sections[i].sectionType.None? ==> ex[i].sectionType == "text_section") &&
        (sections[i].sectionType.Some? ==> ex[i].sectionType == sections[i].sectionType.value) &&
        (sections[i].source.None? ==> ex[i].extractionMethod == "automatic") &&
        (sections[i].source.Some? ==> ex[i].extractionMethod == sections[i].source.value)
  { }

  /** The detailed analysis covers the first five sections, the k-th naming the k-th
      extracted section as its parent, with the same file name, document identifier and page,
      and the type guessed from that section's path; every refined text is at most 500
      characters. */
  lemma SubsectionListStructure(docs: seq<string>, sections: seq<AnalyzedSection>)
    ensures var sub := SubsectionList(docs, sections); var ex := ExtractedList(docs, sections);
      |sub| == Min(5, |sections|) &&
      forall i :: 0 <= i < |sub| ==>
        sub[i].parentSectionId == ex[i].sectionId &&
        sub[i].document.filename == ex[i].document.filename &&
        sub[i].document.documentId == ex[i].document.documentId &&
        sub[i].document.sourceType == GetDocumentType(ex[i].document.fullPath) &&
        sub[i].startPage == ex[i].pageNumber && sub[i].startPage == sub[i].endPage &&
        |sub[i].refinedText| <= 500
  {
    var sub := SubsectionList(docs, sections);
    forall i | 0 <= i < |sub|
      ensures |sub[i].refinedText| <= 500
    {
      RefinedTextProperties(ContentOf(sections[i]));
    }
  }

  /** Section labels are distinct, so every analysis entry names exactly one parent. */
  lemma SectionLabelsDistinct(i: nat, j: nat)
    requires i != j
    ensures SectionLabel(i) != SectionLabel(j)
  {
    if SectionLabel(i) == SectionLabel(j) {
      assert NatToString(i + 1) == SectionLabel(i)[8..] == SectionLabel(j)[8..] == NatToString(j + 1);
      NatToStringInjective(i + 1, j + 1);
    }
  }
}

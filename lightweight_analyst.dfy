/** `lightweight_cpu_analyst.py`: the tokenizer, frequency keywords and word-overlap
    similarity of `LightweightTextProcessor`, the paragraph-based section splitter of
    `LightweightDocumentProcessor`, the simple scorer of `LightweightRelevanceScorer`, and the
    way `analyze_documents_fast` merges section and sub-section results. A document arrives as
    its already extracted text; clocks, memory probes and file reading are not modelled. */
module LightweightAnalyst {
  import opened PyStrings
  import Ranking
  import OptimizedSignals
  import OptimizedScorer
  import OptimizedSections

  /** `LightweightConfig.MAX_SECTIONS_PER_DOC`. */
  const MaxSectionsPerDoc: nat := 20
  /** `LightweightConfig.MAX_CONTENT_LENGTH`. */
  const MaxContentLength: nat := 10000

  /** `_load_simple_stopwords`: the set a text processor keeps in its `stop_words` field.
      The operations below take that field as their `stop` argument. */
  const StopWords: set<string> := {
    "the", "a", "an", "and", "or", "but", "in", "on", "at", "to", "for",
    "of", "with", "by", "this", "that", "these", "those", "is", "are",
    "was", "were", "be", "been", "being", "have", "has", "had", "do",
    "does", "did", "will", "would", "could", "should", "may", "might",
    "i", "you", "he", "she", "it", "we", "they", "me", "him", "her",
    "us", "them", "my", "your", "his", "its", "our", "their"
  }

  // ---------------------------------------------------------------------------
  // LightweightTextProcessor

  /** A word `simple_tokenize` keeps: at least two lower-case letters and not a stop word. */
  predicate Token(stop: set<string>, w: string) {
    |w| >= 2 && All(w, IsLower) && w !in stop
  }

  function FilterTokens(stop: set<string>, ws: seq<string>): (r: seq<string>)
    ensures forall w :: w in r <==> w in ws && Token(stop, w)
  {
    if ws == [] then []
    else
      assert forall w :: w in ws <==> w == ws[0] || w in ws[1..];
      (if Token(stop, ws[0]) then [ws[0]] else []) + FilterTokens(stop, ws[1..])
  }

  /** `simple_tokenize`: `re.findall(r'\b[a-z]{2,}\b', text.lower())` without stop words.
      A match must start and end at a word boundary and hold only letters, so it is exactly a
      maximal run of word characters made of lower-case letters only (a run that also holds a
      digit or `_` has no boundary next to its letters). The tokens keep their text order. */
  function SimpleTokenize(stop: set<string>, text: string): (r: seq<string>)
    ensures forall w :: w in r <==> w in WordRuns(Lower(text)) && Token(stop, w)
  {
    FilterTokens(stop, WordRuns(Lower(text)))
  }

  /** Tokenizing is insensitive to case: the text is lower-cased first. */
  lemma TokenizeIgnoresCase(stop: set<string>, text: string)
    ensures SimpleTokenize(stop, Lower(text)) == SimpleTokenize(stop, text)
  {
    LowerIdempotent(text);
  }

  /** The sort key of `Counter.most_common`: how often a word occurs among the tokens. */
  function Frequency(tokens: seq<string>): string -> real {
    w => CountOf(tokens, w) as real
  }

  /** `[w for w, c in Counter(tokens).most_common(k)]`: the distinct tokens in first-occurrence
      order, stably sorted by non-increasing frequency and cut to `k`. */
  function MostCommon(tokens: seq<string>, k: nat): seq<string> {
    var ranked := Ranking.SortDesc(Distinct(tokens), Frequency(tokens));
    ranked[..Min(k, |ranked|)]
  }

  /** `extract_keywords`. */
  function ExtractKeywords(stop: set<string>, text: string, topK: nat): seq<string> {
    MostCommon(SimpleTokenize(stop, text), topK)
  }

  lemma {:induction false} DistinctOnce<T>(a: seq<T>, x: T)
    requires forall i, j :: 0 <= i < j < |a| ==> a[i] != a[j]
    ensures multiset(a)[x] <= 1
  {
    if a != [] {
      assert a == [a[0]] + a[1..];
      DistinctOnce(a[1..], x);
      if a[0] == x {
        assert x !in a[1..];
      }
    }
  }

  lemma TwiceCounted<T>(b: seq<T>, i: nat, j: nat)
    requires i < j < |b| && b[i] == b[j]
    ensures multiset(b)[b[i]] >= 2
  {
    assert b == b[..j] + [b[j]] + b[j + 1..];
    assert b[i] in b[..j];
  }

  /** `most_common(k)` returns min(k, #distinct tokens) tokens, all different, each of them
      a token. */
  lemma MostCommonMembers(tokens: seq<string>, k: nat)
    ensures var r := MostCommon(tokens, k);
      && |r| == Min(k, |Distinct(tokens)|)
      && (forall w <- r :: w in tokens)
      && (forall i, j :: 0 <= i < j < |r| ==> r[i] != r[j])
  {
    var d := Distinct(tokens);
    var r := MostCommon(tokens, k);
    Ranking.TopKOfSorted(d, Frequency(tokens), k);
    forall w <- r
      ensures w in tokens
    {
      assert w in multiset(r);
    }
    forall i, j | 0 <= i < j < |r|
      ensures r[i] != r[j]
    {
      if r[i] == r[j] {
        TwiceCounted(r, i, j);
        DistinctOnce(d, r[i]);
        assert false;
      }
    }
  }

  /** `most_common(k)` lists tokens by non-increasing frequency, and no token it leaves out
      occurs more often than any it returns. */
  lemma MostCommonOrder(tokens: seq<string>, k: nat)
    ensures var r := MostCommon(tokens, k);
      && (forall i, j :: 0 <= i < j < |r| ==> CountOf(tokens, r[i]) >= CountOf(tokens, r[j]))
      && (forall w, i :: w in tokens && w !in r && 0 <= i < |r| ==> CountOf(tokens, r[i]) >= CountOf(tokens, w))
  {
    var d := Distinct(tokens);
    var key := Frequency(tokens);
    var s := Ranking.SortDesc(d, key);
    var r := MostCommon(tokens, k);
    Ranking.SortDescSorted(d, key);
    Ranking.SortDescPermutation(d, key);
    Ranking.TopKOfSorted(d, key, k);
    forall i, j | 0 <= i < j < |r|
      ensures CountOf(tokens, r[i]) >= CountOf(tokens, r[j])
    {
      assert key(s[i]) >= key(s[j]);
    }
    forall w, i | w in tokens && w !in r && 0 <= i < |r|
      ensures CountOf(tokens, r[i]) >= CountOf(tokens, w)
    {
      assert w in multiset(s);
      var j :| 0 <= j < |s| && s[j] == w;
      assert key(s[i]) >= key(s[j]);
    }
  }

  /** The Jaccard index of two sets, 0 when either is empty. */
  function Jaccard(a: set<string>, b: set<string>): real {
    if a == {} || b == {} then 0.0 else |a * b| as real / |a + b| as real
  }

  /** `simple_similarity`: the Jaccard index of the two texts' token sets. */
  function SimpleSimilarity(stop: set<string>, text1: string, text2: string): real {
    Jaccard(TokenSet(stop, text1), TokenSet(stop, text2))
  }

  function TokenSet(stop: set<string>, text: string): set<string> {
    set w | w in SimpleTokenize(stop, text)
  }

  /** The similarity lies in [0, 1] and is symmetric; it is 1 exactly when both texts have
      the same non-empty token set, and 0 exactly when one has no token or they share none. */
  lemma JaccardProperties(a: set<string>, b: set<string>)
    ensures 0.0 <= Jaccard(a, b) <= 1.0
    ensures Jaccard(a, b) == Jaccard(b, a)
    ensures Jaccard(a, b) == 1.0 <==> a == b && a != {}
    ensures Jaccard(a, b) == 0.0 <==> a == {} || b == {} || a * b == {}
  {
    assert a * b == b * a && a + b == b + a;
    if a != {} && b != {} {
      SubsetCard(a * b, a + b);
      SubsetCard(a, a + b);
      OptimizedSignals.RatioAtMostOne(|a * b| as real, |a + b| as real);
      OptimizedSignals.RatioIsOne(|a * b| as real, |a + b| as real);
      if |a * b| == |a + b| {
        assert a * b == a + b;
        assert a <= b && b <= a;
      }
      if a == b {
        assert a * b == a + b;
      }
    }
  }

  lemma SimpleSimilarityProperties(stop: set<string>, text1: string, text2: string)
    ensures var a := TokenSet(stop, text1);
      var b := TokenSet(stop, text2);
      var sim := SimpleSimilarity(stop, text1, text2);
      && 0.0 <= sim <= 1.0
      && sim == SimpleSimilarity(stop, text2, text1)
      && (sim == 1.0 <==> a == b && a != {})
      && (sim == 0.0 <==> a == {} || b == {} || a * b == {})
  {
    JaccardProperties(TokenSet(stop, text1), TokenSet(stop, text2));
  }

  // ---------------------------------------------------------------------------
  // LightweightDocumentProcessor: section splitting

  /** The words `_is_section_header` looks for. */
  const HeaderWords: seq<string> :=
    ["chapter", "section", "introduction", "conclusion", "overview", "summary", "abstract", "methodology"]

  /** `_is_section_header`: at most 100 characters once stripped, and either holding one of
      the header words in any case, or all upper-case, or title-case. */
  predicate IsSectionHeader(text: string) {
    var t := Strip(text);
    |t| <= 100 && (ContainsAny(Lower(t), HeaderWords) || PyIsUpper(t) || PyIsTitle(t))
  }


  /** The test looks only at the stripped text: surrounding whitespace never changes it. */
  lemma HeaderIgnoresSurroundingSpace(text: string)
    ensures IsSectionHeader(Strip(text)) == IsSectionHeader(text)
  {
    StripTrimmed(Strip(text));
  }

  /** Whether each paragraph is a header, in order. */
  function HeaderFlags(ps: seq<string>): (r: seq<bool>)
    ensures |r| == |ps| && forall i :: 0 <= i < |r| ==> r[i] == IsSectionHeader(ps[i])
  {
    seq(|ps|, i requires 0 <= i < |ps| => IsSectionHeader(ps[i]))
  }

  /** The pieces of `content.split('\n\n')` that are not blank, stripped. */
  function NonBlankStripped(pieces: seq<string>): (r: seq<string>)
    ensures forall p <- r :: p != [] && exists q <- pieces :: p == Strip(q)
  {
    if pieces == [] then []
    else (if Strip(pieces[0]) != [] then [Strip(pieces[0])] else []) + NonBlankStripped(pieces[1..])
  }

  /** `[p.strip() for p in content.split('\n\n') if p.strip()]`. */
  function Paragraphs(content: string): seq<string> {
    NonBlankStripped(SplitOn(content, "\n\n"))
  }

  /** A section dictionary of `_create_section_dict`, without its timestamp. */
  datatype SectionRecord = SectionRecord(content: string, sectionId: nat, documentPath: string,
                                         wordCount: nat, keywords: seq<string>)

  /** `_create_section_dict`: the stripped text cut to MAX_CONTENT_LENGTH, its word count
      and its five most frequent tokens. */
  function CreateSectionDict(stop: set<string>, current: string, id: nat, path: string): SectionRecord {
    var stripped := Strip(current);
    var content := if |stripped| > MaxContentLength then stripped[..MaxContentLength] else stripped;
    SectionRecord(content, id, path, |Words(content)|, ExtractKeywords(stop, content, 5))
  }

  /** A text with a character that is not whitespace. */
  predicate NotBlank(t: string) {
    exists i :: 0 <= i < |t| && !IsSpace(t[i])
  }

  /** The record keeps the id and path, holds min(|stripped text|, MAX_CONTENT_LENGTH)
      characters (none exactly for blank text), counts its words and has at most five
      keywords, all of them tokens of its text. */
  lemma CreateSectionDictProperties(stop: set<string>, current: string, id: nat, path: string)
    ensures var d := CreateSectionDict(stop, current, id, path);
      && d.sectionId == id && d.documentPath == path
      && |d.content| == Min(|Strip(current)|, MaxContentLength)
      && (d.content == [] <==> !NotBlank(current))
      && d.wordCount == |Words(d.content)|
      && |d.keywords| <= 5
      && forall w <- d.keywords :: w in SimpleTokenize(stop, d.content)
  {
    var d := CreateSectionDict(stop, current, id, path);
    StripEmptyIffBlank(current);
    MostCommonMembers(SimpleTokenize(stop, d.content), 5);
  }

  /** The state of the splitting loop: the texts of the sections closed so far and
      `current_section`. The loop's `section_id` is always the number of closed texts. */
  datatype Split = Split(closed: seq<string>, current: string)

  /** One iteration on a paragraph that is or is not a header: a header closes a non-empty
      current text and starts a new one with itself; any other paragraph is appended; an
      accumulation longer than MAX_CONTENT_LENGTH is closed. */
  function SplitStep(st: Split, p: string, header: bool): Split {
    var st1 :=
      if header then Split(if st.current != [] then st.closed + [st.current] else st.closed, p + "\n")
      else Split(st.closed, st.current + p + "\n");
    if |st1.current| > MaxContentLength then Split(st1.closed + [st1.current], []) else st1
  }

  /** The loop over the first paragraphs, given whether each is a header, from nothing
      closed and an empty text. */
  function SplitScan(ps: seq<string>, headers: seq<bool>): Split
    requires |headers| == |ps|
    decreases |ps|
  {
    if ps == [] then Split([], [])
    else SplitStep(SplitScan(ps[..|ps| - 1], headers[..|ps| - 1]), ps[|ps| - 1], headers[|ps| - 1])
  }

  /** The texts of all sections, after the final flush of a non-empty current text. */
  function SectionTexts(content: string): seq<string> {
    var ps := Paragraphs(content);
    var st := SplitScan(ps, HeaderFlags(ps));
    if st.current != [] then st.closed + [st.current] else st.closed
  }

  /** The dictionaries built from the section texts, the i-th with id i. */
  function Records(stop: set<string>, texts: seq<string>, path: string): (r: seq<SectionRecord>)
    ensures |r| == |texts|
  {
    Indexed(texts, (t: string, i: nat) => CreateSectionDict(stop, t, i, path))
  }

  /** `f` applied to each text and its 0-based position. */
  function Indexed<T>(texts: seq<string>, f: (string, nat) -> T): (r: seq<T>)
    ensures |r| == |texts|
  {
    seq(|texts|, i requires 0 <= i < |texts| => f(texts[i], i))
  }

  lemma IndexedAppend<T>(texts: seq<string>, t: string, f: (string, nat) -> T)
    ensures Indexed(texts + [t], f) == Indexed(texts, f) + [f(t, |texts|)]
  {
    var r := Indexed(texts + [t], f);
    var q := Indexed(texts, f) + [f(t, |texts|)];
    forall i | 0 <= i < |r|
      ensures r[i] == q[i]
    {
      if i < |texts| {
        assert (texts + [t])[i] == texts[i];
      }
    }
  }

  /** `_split_into_sections_fast`. */
  function SplitSections(stop: set<string>, content: string, path: string): seq<SectionRecord> {
    Records(stop, SectionTexts(content), path)
  }

  lemma RecordsAppend(stop: set<string>, texts: seq<string>, t: string, path: string)
    ensures Records(stop, texts + [t], path) == Records(stop, texts, path) + [CreateSectionDict(stop, t, |texts|, path)]
  {
    IndexedAppend(texts, t, (u: string, i: nat) => CreateSectionDict(stop, u, i, path));
  }

  /** What the loop keeps: every closed text is not blank, and the current text is empty or
      not blank and never longer than MAX_CONTENT_LENGTH. */
  predicate GoodSplit(st: Split) {
    && (forall t <- st.closed :: NotBlank(t))
    && (st.current == [] || NotBlank(st.current))
    && |st.current| <= MaxContentLength
  }

  lemma SplitStepGood(st: Split, p: string, header: bool)
    requires GoodSplit(st)
    requires p != [] && !IsSpace(p[0])
    ensures GoodSplit(SplitStep(st, p, header))
  {
    var st1 :=
      if header then Split(if st.current != [] then st.closed + [st.current] else st.closed, p + "\n")
      else Split(st.closed, st.current + p + "\n");
    assert st1.current[|st1.current| - |p| - 1] == p[0];
  }

  lemma {:induction false} SplitScanGood(ps: seq<string>, headers: seq<bool>)
    requires |headers| == |ps|
    requires forall p <- ps :: p != [] && !IsSpace(p[0])
    ensures GoodSplit(SplitScan(ps, headers))
    decreases |ps|
  {
    if ps != [] {
      var n := |ps| - 1;
      assert forall p <- ps[..n] :: p in ps;
      assert ps[n] in ps;
      SplitScanGood(ps[..n], headers[..n]);
      SplitStepGood(SplitScan(ps[..n], headers[..n]), ps[n], headers[n]);
    }
  }

  lemma ParagraphsStartNonSpace(content: string)
    ensures forall p <- Paragraphs(content) :: p != [] && !IsSpace(p[0])
  {
  }

  /** Every section text has a character that is not whitespace. */
  lemma SectionTextsNotBlank(content: string)
    ensures forall t <- SectionTexts(content) :: NotBlank(t)
  {
    var ps := Paragraphs(content);
    ParagraphsStartNonSpace(content);
    SplitScanGood(ps, HeaderFlags(ps));
  }

  /** The split gives the sections ids 0, 1, 2, ... in order; every section belongs to the
      document, has a non-empty text of at most MAX_CONTENT_LENGTH characters, counts its
      words and carries at most five keywords. */
  lemma SplitSectionsProperties(stop: set<string>, content: string, path: string)
    ensures var r := SplitSections(stop, content, path);
      forall i :: 0 <= i < |r| ==>
        && r[i].sectionId == i
        && r[i].documentPath == path
        && r[i].content != []
        && |r[i].content| <= MaxContentLength
        && r[i].wordCount == |Words(r[i].content)|
        && |r[i].keywords| <= 5
  {
    var texts := SectionTexts(content);
    SectionTextsNotBlank(content);
    forall i | 0 <= i < |texts|
      ensures var d := CreateSectionDict(stop, texts[i], i, path);
        && d.sectionId == i && d.documentPath == path && d.content != [] && |d.content| <= MaxContentLength
        && d.wordCount == |Words(d.content)| && |d.keywords| <= 5
    {
      assert NotBlank(texts[i]) by { assert texts[i] in texts; }
      CreateSectionDictProperties(stop, texts[i], i, path);
    }
  }

  /** Each paragraph followed by a newline. */
  function Lines(ps: seq<string>): (r: seq<string>)
    ensures |r| == |ps| && forall i :: 0 <= i < |r| ==> r[i] == ps[i] + "\n"
  {
    seq(|ps|, i requires 0 <= i < |ps| => ps[i] + "\n")
  }

  /** Nothing is lost or reordered while splitting: the closed texts followed by the current
      one spell out the paragraphs, each followed by a newline. */
  lemma {:induction false} SplitScanKeepsText(ps: seq<string>, headers: seq<bool>)
    requires |headers| == |ps|
    ensures var st := SplitScan(ps, headers); Concat(st.closed) + st.current == Concat(Lines(ps))
    decreases |ps|
  {
    if ps != [] {
      var n := |ps| - 1;
      var p := ps[n];
      var st := SplitScan(ps[..n], headers[..n]);
      SplitScanKeepsText(ps[..n], headers[..n]);
      assert Lines(ps) == Lines(ps[..n]) + [p + "\n"];
      ConcatAppend(Lines(ps[..n]), p + "\n");
      assert SplitScan(ps, headers) == SplitStep(st, p, headers[n]);
      SplitStepKeepsText(st, p, headers[n]);
    }
  }

  /** A split step appends the paragraph and a newline to the text spelt out so far. */
  lemma SplitStepKeepsText(st: Split, p: string, header: bool)
    ensures var next := SplitStep(st, p, header);
      Concat(next.closed) + next.current == Concat(st.closed) + st.current + (p + "\n")
  {
    var st1 :=
      if header then Split(if st.current != [] then st.closed + [st.current] else st.closed, p + "\n")
      else Split(st.closed, st.current + p + "\n");
    if header && st.current != [] {
      ConcatAppend(st.closed, st.current);
    }
    assert Concat(st1.closed) + st1.current == Concat(st.closed) + st.current + (p + "\n");
    if |st1.current| > MaxContentLength {
      ConcatAppend(st1.closed, st1.current);
    }
  }

  /** The section texts, one after the other, are the paragraphs each followed by a newline. */
  lemma SectionTextsKeepText(content: string)
    ensures Concat(SectionTexts(content)) == Concat(Lines(Paragraphs(content)))
  {
    var ps := Paragraphs(content);
    var st := SplitScan(ps, HeaderFlags(ps));
    SplitScanKeepsText(ps, HeaderFlags(ps));
    if st.current != [] {
      ConcatAppend(st.closed, st.current);
    }
  }

  /** A header paragraph (at most 100 characters) always starts a new current text made of
      itself: it closes the previous one if that is non-empty, and is never flushed. */
  lemma HeaderStartsSection(st: Split, q: string)
    requires IsSectionHeader(Strip(q))
    ensures var p := Strip(q);
      var next := SplitStep(st, p, true);
      && next.current == p + "\n"
      && next.closed == (if st.current != [] then st.closed + [st.current] else st.closed)
  {
    var p := Strip(q);
    StripTrimmed(p);
    assert |p| <= 100;
  }

  /** `_split_into_sections_fast`: the loop over the paragraphs, then the final flush. */
  method SplitIntoSectionsFast(stop: set<string>, content: string, path: string) returns (sections: seq<SectionRecord>)
    ensures sections == SplitSections(stop, content, path)
  {
    var paragraphs := Paragraphs(content);
    var current, sectionId;
    ghost var closed;
    sections, current, sectionId, closed := SplitParagraphs(stop, paragraphs, path);
    if current != [] {
      RecordsAppend(stop, closed, current, path);
      sections := sections + [CreateSectionDict(stop, current, sectionId, path)];
    }
  }

  /** The splitting loop, which builds each dictionary as soon as its section closes. */
  method SplitParagraphs(stop: set<string>, paragraphs: seq<string>, path: string)
    returns (sections: seq<SectionRecord>, current: string, sectionId: nat, ghost closed: seq<string>)
    ensures Split(closed, current) == SplitScan(paragraphs, HeaderFlags(paragraphs))
    ensures sectionId == |closed| && sections == Records(stop, closed, path)
  {
    ghost var headers := HeaderFlags(paragraphs);
    sections, current, sectionId, closed := [], [], 0, [];
    for k := 0 to |paragraphs|
      invariant Split(closed, current) == SplitScan(paragraphs[..k], headers[..k])
      invariant sectionId == |closed| && sections == Records(stop, closed, path)
    {
      assert paragraphs[..k + 1][..k] == paragraphs[..k] && headers[..k + 1][..k] == headers[..k];
      sections, current, sectionId, closed := SplitParagraph(stop, sections, current, sectionId, closed,
                                                             paragraphs[k], path);
    }
    assert paragraphs[..|paragraphs|] == paragraphs && headers[..|paragraphs|] == headers;
  }

  /** One iteration of the splitting loop. */
  method SplitParagraph(stop: set<string>, sections: seq<SectionRecord>, current: string, sectionId: nat,
                        ghost closed: seq<string>, paragraph: string, path: string)
    returns (sections': seq<SectionRecord>, current': string, sectionId': nat, ghost closed': seq<string>)
    requires sectionId == |closed| && sections == Records(stop, closed, path)
    ensures Split(closed', current') == SplitStep(Split(closed, current), paragraph, IsSectionHeader(paragraph))
    ensures sectionId' == |closed'| && sections' == Records(stop, closed', path)
  {
    sections', current', sectionId', closed' := sections, current, sectionId, closed;
    if IsSectionHeader(paragraph) {
      if current' != [] {
        sections', sectionId', closed' := CloseSection(stop, sections', current', sectionId', closed', path);
      }
      current' := paragraph + "\n";
    } else {
      current' := current' + paragraph + "\n";
    }
    assert Split(closed', current') == (
      if IsSectionHeader(paragraph) then Split(if current != [] then closed + [current] else closed, paragraph + "\n")
      else Split(closed, current + paragraph + "\n"));
    if |current'| > MaxContentLength {
      sections', sectionId', closed' := CloseSection(stop, sections', current', sectionId', closed', path);
      current' := [];
    }
  }

  /** Closing the current text: its dictionary gets the next id. */
  method CloseSection(stop: set<string>, sections: seq<SectionRecord>, current: string, sectionId: nat,
                      ghost closed: seq<string>, path: string)
    returns (sections': seq<SectionRecord>, sectionId': nat, ghost closed': seq<string>)
    requires sectionId == |closed| && sections == Records(stop, closed, path)
    ensures closed' == closed + [current]
    ensures sectionId' == |closed'| && sections' == Records(stop, closed', path)
  {
    RecordsAppend(stop, closed, current, path);
    sections' := sections + [CreateSectionDict(stop, current, sectionId, path)];
    sectionId' := sectionId + 1;
    closed' := closed + [current];
  }

  /** `process_document_fast` on already extracted text: at most MAX_SECTIONS_PER_DOC sections. */
  method ProcessDocumentFast(stop: set<string>, text: string, path: string) returns (r: seq<SectionRecord>)
    ensures var all := SplitSections(stop, text, path);
      r == all[..Min(MaxSectionsPerDoc, |all|)] && |r| <= MaxSectionsPerDoc
  {
    var sections := SplitIntoSectionsFast(stop, text, path);
    r := if |sections| > MaxSectionsPerDoc then sections[..MaxSectionsPerDoc] else sections;
  }

  // ---------------------------------------------------------------------------
  // LightweightRelevanceScorer

  /** The role keywords of `_extract_persona_keywords`, first matching rule only. */
  function RoleKeywords(role: string): seq<string> {
    if Contains(role, "travel") || Contains(role, "planner") then
      ["travel", "trip", "tourism", "vacation", "hotel", "restaurant"]
    else if Contains(role, "student") then
      ["study", "learn", "education", "exam", "course"]
    else if Contains(role, "analyst") || Contains(role, "financial") then
      ["analysis", "data", "report", "financial", "business"]
    else if Contains(role, "journalist") || Contains(role, "reporter") then
      ["news", "story", "article", "report", "investigation"]
    else if Contains(role, "legal") || Contains(role, "lawyer") then
      ["legal", "law", "contract", "compliance", "regulation"]
    else []
  }

  /** `persona.get('role', '')`. */
  function RoleOf(persona: OptimizedSignals.Persona): string {
    match persona.role
    case None => []
    case Some(r) => r
  }

  /** `_extract_persona_keywords`: the lower-cased role's keywords, then whatever iterating
      `persona['keywords']` yields, each once. */
  function LightPersonaKeywords(persona: OptimizedSignals.Persona): (r: seq<string>)
    ensures forall i, j :: 0 <= i < j < |r| ==> r[i] != r[j]
    ensures forall w :: w in r <==>
      w in RoleKeywords(Lower(RoleOf(persona))) || w in OptimizedSignals.FieldIteration(persona.keywords)
  {
    Distinct(RoleKeywords(Lower(RoleOf(persona))) + OptimizedSignals.FieldIteration(persona.keywords))
  }

  /** The keywords that occur, lower-cased, in the lower-cased content. */
  function KeywordHits(contentLower: string, keywords: set<string>): set<string> {
    set k | k in keywords && Contains(contentLower, Lower(k))
  }

  /** `keyword_matches / max(len(keywords), 1)`. */
  function KeywordFraction(contentLower: string, keywords: set<string>): real {
    |KeywordHits(contentLower, keywords)| as real / Max(|keywords|, 1) as real
  }

  /** `min(len(content.split()) / 100, 1.0)`. */
  function LengthBonus(content: string): real {
    MinReal(|Words(content)| as real / 100.0, 1.0)
  }

  /** `_calculate_simple_score`. */
  function SimpleScore(stop: set<string>, content: string, keywords: set<string>, job: string): real {
    MinReal(KeywordFraction(Lower(content), keywords) * 0.5 + SimpleSimilarity(stop, content, job) * 0.3
            + LengthBonus(content) * 0.2, 1.0)
  }

  /** The keyword fraction lies in [0, 1] and is 1 exactly when there are keywords and all
      of them occur. */
  lemma KeywordFractionProperties(contentLower: string, keywords: set<string>)
    ensures 0.0 <= KeywordFraction(contentLower, keywords) <= 1.0
    ensures KeywordFraction(contentLower, keywords) == 1.0 <==>
      keywords != {} && KeywordHits(contentLower, keywords) == keywords
  {
    var hits := KeywordHits(contentLower, keywords);
    SubsetCard(hits, keywords);
    OptimizedSignals.RatioAtMostOne(|hits| as real, Max(|keywords|, 1) as real);
    OptimizedSignals.RatioIsOne(|hits| as real, Max(|keywords|, 1) as real);
  }

  /** The weights add up to 1, so the cap at 1.0 never binds: the score is the weighted sum,
      lies in [0, 1], is at least 0.2 for content of 100 words or more, and is 1 exactly when
      every keyword occurs, the token sets coincide and there are at least 100 words. */
  lemma SimpleScoreProperties(stop: set<string>, content: string, keywords: set<string>, job: string)
    ensures var f := KeywordFraction(Lower(content), keywords);
      var sim := SimpleSimilarity(stop, content, job);
      var s := SimpleScore(stop, content, keywords, job);
      && s == f * 0.5 + sim * 0.3 + LengthBonus(content) * 0.2
      && 0.0 <= s <= 1.0
      && (|Words(content)| >= 100 ==> s >= 0.2)
      && (s == 1.0 <==>
            && keywords != {} && KeywordHits(Lower(content), keywords) == keywords
            && TokenSet(stop, content) == TokenSet(stop, job) && TokenSet(stop, content) != {}
            && |Words(content)| >= 100)
  {
    KeywordFractionProperties(Lower(content), keywords);
    SimpleSimilarityProperties(stop, content, job);
  }

  /** A section dict with the `score` key `score_sections_fast` adds. */
  datatype ScoredSection = ScoredSection(section: SectionRecord, score: real)

  /** The keywords `score_sections_fast` matches: the persona's and the job's ten most
      frequent tokens, as a set. */
  function AllKeywords(stop: set<string>, persona: OptimizedSignals.Persona, job: string): set<string> {
    set k | k in LightPersonaKeywords(persona) + ExtractKeywords(stop, job, 10)
  }

  /** `score_sections_fast`: every section gets its simple score; nothing else changes. */
  method ScoreSectionsFast(stop: set<string>, sections: seq<SectionRecord>, persona: OptimizedSignals.Persona,
                           job: string)
    returns (r: seq<ScoredSection>)
    ensures |r| == |sections|
    ensures forall i :: 0 <= i < |r| ==>
      r[i].section == sections[i] && r[i].score == SimpleScore(stop, sections[i].content, AllKeywords(stop, persona, job), job)
  {
    var allKeywords := AllKeywords(stop, persona, job);
    r := AddScores(sections, (s: SectionRecord) => SimpleScore(stop, s.content, allKeywords, job));
  }

  /** The loop of `score_sections_fast`: each section dict gets its `score`, in order. */
  method AddScores(sections: seq<SectionRecord>, score: SectionRecord -> real) returns (r: seq<ScoredSection>)
    ensures |r| == |sections|
    ensures forall i :: 0 <= i < |r| ==> r[i].section == sections[i] && r[i].score == score(sections[i])
  {
    r := [];
    for i := 0 to |sections|
      invariant |r| == i
      invariant forall j :: 0 <= j < i ==> r[j].section == sections[j] && r[j].score == score(sections[j])
    {
      r := r + [ScoredSection(sections[i], score(sections[i]))];
    }
  }

  // ---------------------------------------------------------------------------
  // analyze_documents_fast

  /** The `scoring_details` of a merged entry. */
  datatype Details =
    | SectionDetails(keywordMatch: real, contextRelevance: real, contentQuality: real)
    | SubsectionDetails(keywordDensity: real, specificity: real, actionability: real)

  /** One entry of `analysis_results`. */
  datatype Merged = Merged(content: string, score: real, rank: nat, source: string, analysisType: string,
                           details: Details)

  /** The entry for the `i`-th (0-based) ranked section. */
  function SectionEntry(s: Ranking.Ranked<OptimizedScorer.SectionScore>, i: nat): Merged {
    Merged(s.entry.content, s.entry.relevance, s.rank, "Section " + NatToString(i + 1), "section",
           SectionDetails(s.entry.keywordMatch, s.entry.contextRelevance, s.entry.contentQuality))
  }

  /** The entry for a ranked sub-section. */
  function SubsectionEntry(s: Ranking.Ranked<OptimizedScorer.SubsectionScore>): Merged {
    Merged(s.entry.content, s.entry.relevance, s.rank, s.entry.parentSection + " - " + s.entry.title, "subsection",
           SubsectionDetails(s.entry.keywordDensity, s.entry.specificity, s.entry.actionability))
  }

  /** The merged `analysis_results`: `section_scores[:top_k]` first, each labelled by its
      position, then `subsection_scores[:top_k - n]` where `n` is the number of sections taken. */
  function Merge(secs: seq<Ranking.Ranked<OptimizedScorer.SectionScore>>,
                 subs: seq<Ranking.Ranked<OptimizedScorer.SubsectionScore>>, topK: int): (top: seq<Merged>)
    ensures var a := PySliceTo(secs, topK);
      var b := PySliceTo(subs, topK - |a|);
      && |top| == |a| + |b|
      && (forall i :: 0 <= i < |a| ==> top[i] == SectionEntry(a[i], i))
      && (forall i :: 0 <= i < |b| ==> top[|a| + i] == SubsectionEntry(b[i]))
  {
    var a := PySliceTo(secs, topK);
    var b := PySliceTo(subs, topK - |a|);
    seq(|a|, i requires 0 <= i < |a| => SectionEntry(a[i], i))
      + seq(|b|, i requires 0 <= i < |b| => SubsectionEntry(b[i]))
  }

  /** The merging loops of `analyze_documents_fast`. */
  method MergeResults(secs: seq<Ranking.Ranked<OptimizedScorer.SectionScore>>,
                      subs: seq<Ranking.Ranked<OptimizedScorer.SubsectionScore>>, topK: int)
    returns (top: seq<Merged>)
    ensures top == Merge(secs, subs, topK)
  {
    top := [];
    var firstSections := PySliceTo(secs, topK);
    for i := 0 to |firstSections|
      invariant |top| == i
      invariant forall j :: 0 <= j < i ==> top[j] == SectionEntry(firstSections[j], j)
    {
      top := top + [SectionEntry(firstSections[i], i)];
    }
    var remainingSlots := topK - |top|;
    var extra := PySliceTo(subs, remainingSlots);
    for i := 0 to |extra|
      invariant |top| == |firstSections| + i
      invariant forall j :: 0 <= j < |firstSections| ==> top[j] == SectionEntry(firstSections[j], j)
      invariant forall j :: 0 <= j < i ==> top[|firstSections| + j] == SubsectionEntry(extra[j])
    {
      top := top + [SubsectionEntry(extra[i])];
    }
    ghost var merged := Merge(secs, subs, topK);
    assert forall j :: 0 <= j < |top| ==> top[j] == merged[j];
  }

  /** For a non-negative `top_k` the merge keeps min(top_k, #sections + #sub-sections)
      entries: all sections it has room for, in rank order, and sub-sections only in the
      slots the sections leave free. */
  lemma MergeCount(secs: seq<Ranking.Ranked<OptimizedScorer.SectionScore>>,
                   subs: seq<Ranking.Ranked<OptimizedScorer.SubsectionScore>>, topK: int)
    requires topK >= 0
    ensures var a := PySliceTo(secs, topK);
      var b := PySliceTo(subs, topK - |a|);
      && a == secs[..Min(topK, |secs|)]
      && b == subs[..Min(topK - |a|, |subs|)]
      && |Merge(secs, subs, topK)| == Min(topK, |secs| + |subs|)
      && (|b| > 0 ==> a == secs)
  {
  }

  /** Merged results list every section before every sub-section, each kind by
      non-increasing relevance, and the section entries carry the ranks 1, 2, ... in order. */
  predicate ResultsOrdered(top: seq<Merged>) {
    && (forall i, j :: 0 <= i < j < |top| && top[i].analysisType == top[j].analysisType
          ==> top[i].score >= top[j].score)
    && (forall i, j :: 0 <= i < j < |top| && top[j].analysisType == "section"
          ==> top[i].analysisType == "section")
    && (forall i :: 0 <= i < |top| && top[i].analysisType == "section" ==> top[i].rank == i + 1)
  }

  /** When both scored lists are in non-increasing relevance order, the merge of their
      rankings is ordered as `ResultsOrdered` states, and a non-negative `top_k` keeps
      min(top_k, #sections + #sub-sections) entries. */
  lemma MergeOrdered(secs: seq<OptimizedScorer.SectionScore>, subs: seq<OptimizedScorer.SubsectionScore>, topK: int)
    requires Ranking.SortedDesc(secs, OptimizedScorer.SectionKey)
    requires Ranking.SortedDesc(subs, OptimizedScorer.SubsectionKey)
    ensures ResultsOrdered(Merge(Ranking.RankedList(secs), Ranking.RankedList(subs), topK))
    ensures topK >= 0 ==>
      |Merge(Ranking.RankedList(secs), Ranking.RankedList(subs), topK)| == Min(topK, |secs| + |subs|)
  {
    var top := Merge(Ranking.RankedList(secs), Ranking.RankedList(subs), topK);
    if topK >= 0 {
      MergeCount(Ranking.RankedList(secs), Ranking.RankedList(subs), topK);
    }
    forall i, j | 0 <= i < j < |top|
      ensures top[i].analysisType == top[j].analysisType ==> top[i].score >= top[j].score
      ensures top[j].analysisType == "section" ==> top[i].analysisType == "section"
    {
      MergeAt(secs, subs, topK, i);
      MergeAt(secs, subs, topK, j);
    }
    forall i | 0 <= i < |top|
      ensures top[i].analysisType == "section" ==> top[i].rank == i + 1
    {
      MergeAt(secs, subs, topK, i);
    }
  }

  /** The `i`-th merged entry: the section of rank `i + 1` while sections last, then the
      sub-sections in order. */
  lemma MergeAt(secs: seq<OptimizedScorer.SectionScore>, subs: seq<OptimizedScorer.SubsectionScore>,
                topK: int, i: nat)
    requires i < |Merge(Ranking.RankedList(secs), Ranking.RankedList(subs), topK)|
    ensures var top := Merge(Ranking.RankedList(secs), Ranking.RankedList(subs), topK);
      var n := |PySliceTo(Ranking.RankedList(secs), topK)|;
      && n <= |secs| && i - n < |subs|
      && (i < n ==>
            top[i].analysisType == "section" && top[i].rank == i + 1 &&
            top[i].score == OptimizedScorer.SectionKey(secs[i]))
      && (i >= n ==>
            top[i].analysisType == "subsection" &&
            top[i].score == OptimizedScorer.SubsectionKey(subs[i - n]))
  {
    var rs := Ranking.RankedList(secs);
    var rb := Ranking.RankedList(subs);
    var a := PySliceTo(rs, topK);
    var b := PySliceTo(rb, topK - |a|);
    if i < |a| {
      assert a[i] == rs[i];
    } else {
      var k := i - |a|;
      assert Merge(rs, rb, topK)[|a| + k] == SubsectionEntry(b[k]);
      assert b[k] == rb[k];
    }
  }

  /** A document handed to the analyst: its path and the text extracted from it. */
  datatype SourceDocument = SourceDocument(path: string, text: string)

  /** The sections of all documents, in document order. */
  function AllSections(stop: set<string>, docs: seq<SourceDocument>): seq<SectionRecord>
    decreases |docs|
  {
    if docs == [] then []
    else
      var last := docs[|docs| - 1];
      var s := SplitSections(stop, last.text, last.path);
      AllSections(stop, docs[..|docs| - 1]) + s[..Min(MaxSectionsPerDoc, |s|)]
  }

  /** Each document contributes at most MAX_SECTIONS_PER_DOC sections. */
  lemma {:induction false} AllSectionsBound(stop: set<string>, docs: seq<SourceDocument>)
    ensures |AllSections(stop, docs)| <= MaxSectionsPerDoc * |docs|
    decreases |docs|
  {
    if docs != [] {
      AllSectionsBound(stop, docs[..|docs| - 1]);
    }
  }

  /** The collecting loop of `analyze_documents_fast`. */
  method CollectSections(stop: set<string>, docs: seq<SourceDocument>) returns (all: seq<SectionRecord>)
    ensures all == AllSections(stop, docs)
  {
    all := [];
    for i := 0 to |docs|
      invariant all == AllSections(stop, docs[..i])
    {
      assert docs[..i + 1][..i] == docs[..i];
      var sections := ProcessDocumentFast(stop, docs[i].text, docs[i].path);
      all := all + sections;
    }
    assert docs[..|docs|] == docs;
  }

  /** The contents of sections, in order. */
  function SectionContents(sections: seq<SectionRecord>): (r: seq<string>)
    ensures |r| == |sections| && forall i :: 0 <= i < |r| ==> r[i] == sections[i].content
  {
    seq(|sections|, i requires 0 <= i < |sections| => sections[i].content)
  }

  /** What `analyze_documents_fast` returns, without timings, memory figures and metadata. */
  datatype Analysis = Analysis(results: seq<Merged>, documentsProcessed: nat, sectionsAnalyzed: nat)

  /** The job description `analyze_documents_fast` hands to the scorer: only the task text. */
  function FastJob(jobToBeDone: string): OptimizedSignals.Job {
    OptimizedSignals.Job(Some(jobToBeDone), OptimizedSignals.Missing, OptimizedSignals.Missing,
                         OptimizedSignals.Missing)
  }

  /** The sections `analyze_documents_fast` scores: those of the joined section texts. */
  function FastSections(docs: seq<SourceDocument>): seq<OptimizedSections.DocSection> {
    OptimizedSections.Sections(Join(SectionContents(AllSections(StopWords, docs)), "\n"))
  }

  /** The `analysis_results` of `analyze_documents_fast`: the sections of all documents are
      joined with newlines and scored as one document; the ranked sections, then the ranked
      sub-sections, fill at most `top_k` slots. */
  function FastResults(docs: seq<SourceDocument>, persona: OptimizedSignals.Persona, jobToBeDone: string,
                       topK: int): seq<Merged>
  {
    Merge(Ranking.RankedList(OptimizedScorer.SectionScores(FastSections(docs), persona, FastJob(jobToBeDone))),
          Ranking.RankedList(OptimizedScorer.SubsectionScores(FastSections(docs), persona, FastJob(jobToBeDone))),
          topK)
  }

  /** The results of `analyze_documents_fast` list sections before sub-sections, each kind
      by non-increasing relevance, the sections ranked 1, 2, ... in order; for a non-negative
      `top_k` there are min(top_k, #sections + #sub-sections) of them. */
  lemma FastResultsOrdered(docs: seq<SourceDocument>, persona: OptimizedSignals.Persona,
                           jobToBeDone: string, topK: int)
    ensures ResultsOrdered(FastResults(docs, persona, jobToBeDone, topK))
    ensures var top := FastResults(docs, persona, jobToBeDone, topK);
      var job := FastJob(jobToBeDone);
      (topK >= 0 ==> |top| == Min(topK, |OptimizedScorer.SectionScores(FastSections(docs), persona, job)|
                                       + |OptimizedScorer.SubsectionScores(FastSections(docs), persona, job)|))
  {
    ScoredMergeOrdered(FastSections(docs), persona, FastJob(jobToBeDone), topK);
  }

  /** Merging the ranked scores of any sections gives ordered results of the expected count. */
  lemma ScoredMergeOrdered(sections: seq<OptimizedSections.DocSection>, persona: OptimizedSignals.Persona,
                           job: OptimizedSignals.Job, topK: int)
    ensures var secs := OptimizedScorer.SectionScores(sections, persona, job);
      var subs := OptimizedScorer.SubsectionScores(sections, persona, job);
      var top := Merge(Ranking.RankedList(secs), Ranking.RankedList(subs), topK);
      ResultsOrdered(top) && (topK >= 0 ==> |top| == Min(topK, |secs| + |subs|))
  {
    OptimizedScorer.ScoresSorted(sections, persona, job);
    MergeOrdered(OptimizedScorer.SectionScores(sections, persona, job),
                 OptimizedScorer.SubsectionScores(sections, persona, job), topK);
  }

  /** `analyze_documents_fast`: counts the documents and collected sections and returns the
      merged results (see `FastResults`). */
  method AnalyzeDocumentsFast(docs: seq<SourceDocument>, persona: OptimizedSignals.Persona, jobToBeDone: string,
                              topK: int)
    returns (r: Analysis)
    ensures r.documentsProcessed == |docs|
    ensures r.sectionsAnalyzed == |AllSections(StopWords, docs)| <= MaxSectionsPerDoc * |docs|
    ensures r.results == FastResults(docs, persona, jobToBeDone, topK)
    ensures topK >= 0 ==> |r.results| <= topK
  {
    var all := CollectSections(StopWords, docs);
    AllSectionsBound(StopWords, docs);
    var combined := Join(SectionContents(all), "\n");
    var job := FastJob(jobToBeDone);
    var report := OptimizedScorer.CalculateEnhancedRelevanceScore(combined, persona, job);
    var top := MergeResults(report.sectionScores, report.subsectionScores, topK);
    if topK >= 0 {
      MergeCount(report.sectionScores, report.subsectionScores, topK);
    }
    r := Analysis(top, |docs|, |all|);
  }
}

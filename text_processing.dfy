/** `TextProcessor` of the document analyst: cuts a parsed document into sections
    (PDF pages, DOCX headings, plain-text paragraphs), cleans each section and keeps
    those long enough to analyse. */
module TextProcessing {
  import opened PyStrings

  /** The two configuration values `TextProcessor` reads. */
  datatype Config = Config(minSectionLength: int, maxSectionLength: int)

  const DefaultConfig: Config := Config(100, 2000)

  /** A section before cleaning: the dict a segmenter appends. */
  datatype Section = Section(content: string, title: string, source: string, sectionType: string)

  /** A section after `_process_section` added its derived fields. */
  datatype ProcessedSection = ProcessedSection(
    content: string, title: string, source: string, sectionType: string,
    wordCount: nat, keywords: seq<string>, charCount: nat)

  datatype PdfPage = PdfPage(content: Option<string>, pageNumber: int)
  datatype DocxParagraph = DocxParagraph(content: Option<string>, style: Option<string>)

  /** The parser output `segment_content` receives (absent keys already defaulted). */
  datatype RawContent = RawContent(
    content: string, fileType: string, pages: seq<PdfPage>, paragraphs: seq<DocxParagraph>)

  function OrElse(o: Option<string>, d: string): string {
    if o.Some? then o.value else d
  }

  // ---------------------------------------------------------------------------
  // re.split(r'\n\s*\n', content)

  /** A match of `\n\s*\n`: whitespace that starts and ends with a newline. */
  predicate IsBlankSep(t: string) {
    |t| >= 2 && t[0] == '\n' && t[|t| - 1] == '\n' && All(t, IsSpace)
  }

  function LastIndexOf(s: string, c: char): (k: int)
    ensures -1 <= k < |s|
    ensures k >= 0 ==> s[k] == c
    ensures forall j :: k < j < |s| ==> s[j] != c
  {
    if s == [] then -1
    else if s[|s| - 1] == c then |s| - 1
    else LastIndexOf(s[..|s| - 1], c)
  }

  /** End of the longest `\n\s*\n` match starting at `s[i]`, or -1 when none starts there. */
  function BlankSepEnd(s: string, i: nat): (e: int)
    requires i < |s|
    ensures e == -1 || (i + 2 <= e <= |s| && IsBlankSep(s[i..e]))
  {
    if s[i] != '\n' then -1
    else
      var w := RunLen(s[i + 1..], IsSpace);
      var k := LastIndexOf(s[i + 1..i + 1 + w], '\n');
      if k < 0 then -1
      else
        assert forall j :: i <= j < i + 2 + k ==> IsSpace(s[j]) by {
          forall j | i < j < i + 2 + k ensures IsSpace(s[j]) {
            assert s[j] == s[i + 1..][j - i - 1];
          }
        }
        i + 2 + k
  }

  /** The match found at `i` is the longest one: every match starting at `i` ends by then. */
  lemma BlankSepEndComplete(s: string, i: nat, j: nat)
    requires i < j <= |s| && IsBlankSep(s[i..j])
    ensures BlankSepEnd(s, i) >= j
  {
    var t := s[i + 1..];
    forall k | 0 <= k < j - i - 1
      ensures IsSpace(t[k])
    {
      assert t[k] == s[i..j][k + 1];
    }
    RunLenAtLeast(t, IsSpace, j - i - 1);
    var w := RunLen(t, IsSpace);
    var run := s[i + 1..i + 1 + w];
    assert s[i] == s[i..j][0];
    assert run[j - i - 2] == s[i..j][j - i - 1];
    var k := LastIndexOf(run, '\n');
    assert k >= j - i - 2;
  }

  /** The first index at or after `k` where a separator starts, or -1. */
  function FirstBlankSep(s: string, k: nat): (i: int)
    requires k <= |s|
    ensures i == -1 || (k <= i < |s| && BlankSepEnd(s, i) != -1)
    ensures forall j :: k <= j < |s| && (i == -1 || j < i) ==> BlankSepEnd(s, j) == -1
    decreases |s| - k
  {
    if k == |s| then -1
    else if BlankSepEnd(s, k) != -1 then k
    else FirstBlankSep(s, k + 1)
  }

  /** `re.split(r'\n\s*\n', s)`. */
  function SplitBlankLines(s: string): (r: seq<string>)
    ensures |r| >= 1
    decreases |s|
  {
    var i := FirstBlankSep(s, 0);
    if i < 0 then [s] else [s[..i]] + SplitBlankLines(s[BlankSepEnd(s, i)..])
  }

  predicate NoBlankSep(p: string) {
    forall i, j :: 0 <= i < j <= |p| ==> !IsBlankSep(p[i..j])
  }

  /** A prefix in which no separator starts contains no blank line. */
  lemma PrefixNoBlankSep(s: string, n: nat)
    requires n <= |s|
    requires forall j :: 0 <= j < n ==> BlankSepEnd(s, j) == -1
    ensures NoBlankSep(s[..n])
  {
    forall a, b | 0 <= a < b <= n
      ensures !IsBlankSep(s[..n][a..b])
    {
      assert s[..n][a..b] == s[a..b];
      if IsBlankSep(s[a..b]) {
        BlankSepEndComplete(s, a, b);
      }
    }
  }

  /** No paragraph produced by the split contains a blank line. */
  lemma {:induction false} SplitBlankLinesPieces(s: string)
    ensures forall k :: 0 <= k < |SplitBlankLines(s)| ==> NoBlankSep(SplitBlankLines(s)[k])
    decreases |s|
  {
    var i := FirstBlankSep(s, 0);
    if i < 0 {
      PrefixNoBlankSep(s, |s|);
      assert s[..|s|] == s;
      SplitBlankLinesNone(s);
    } else {
      PrefixNoBlankSep(s, i);
      var rest := s[BlankSepEnd(s, i)..];
      SplitBlankLinesPieces(rest);
      SplitBlankLinesFirst(s, i);
      NoBlankSepCons(s[..i], SplitBlankLines(rest));
    }
  }

  lemma SplitBlankLinesNone(s: string)
    requires FirstBlankSep(s, 0) < 0
    ensures SplitBlankLines(s) == [s]
  {
  }

  lemma SplitBlankLinesFirst(s: string, i: int)
    requires i == FirstBlankSep(s, 0) && i >= 0
    ensures SplitBlankLines(s) == [s[..i]] + SplitBlankLines(s[BlankSepEnd(s, i)..])
  {
  }

  lemma NoBlankSepCons(p: string, rest: seq<string>)
    requires NoBlankSep(p) && forall k :: 0 <= k < |rest| ==> NoBlankSep(rest[k])
    ensures forall k :: 0 <= k < |[p] + rest| ==> NoBlankSep(([p] + rest)[k])
  {
    forall k | 0 <= k < |[p] + rest|
      ensures NoBlankSep(([p] + rest)[k])
    {
      if k > 0 {
        assert ([p] + rest)[k] == rest[k - 1];
      }
    }
  }

  /** Text without a blank line is a single paragraph. */
  lemma SplitBlankLinesNoSep(s: string)
    requires NoBlankSep(s)
    ensures SplitBlankLines(s) == [s]
  {
    var i := FirstBlankSep(s, 0);
    if i >= 0 {
      assert false;
    }
  }

  // ---------------------------------------------------------------------------
  // Headings and section breaks

  /** `re.match(r'\d+\.?\s+[A-Z]', t)`. */
  predicate NumberedHeading(t: string) {
    var d := RunLen(t, IsDigit);
    var p := if d < |t| && t[d] == '.' then d + 1 else d;
    var w := RunLen(t[p..], IsSpace);
    d >= 1 && w >= 1 && p + w < |t| && IsUpper(t[p + w])
  }

  predicate UpperOrSpace(c: char) { IsUpper(c) || IsSpace(c) }
  predicate LowerOrSpace(c: char) { IsLower(c) || IsSpace(c) }

  /** `re.match(r'^[A-Z][A-Z\s]+$', t)` on stripped text. */
  predicate CapitalsHeading(t: string) {
    |t| >= 2 && IsUpper(t[0]) && All(t[1..], UpperOrSpace)
  }

  /** `re.match(r'^[A-Z][a-z\s]+:$', t)` on stripped text. */
  predicate ColonHeading(t: string) {
    |t| >= 3 && IsUpper(t[0]) && t[|t| - 1] == ':' && All(t[1..|t| - 1], LowerOrSpace)
  }

  /** `_looks_like_heading`. */
  predicate LooksLikeHeading(text: string) {
    var t := Strip(text);
    |text| <= 100 && (NumberedHeading(t) || CapitalsHeading(t) || ColonHeading(t))
  }

  predicate IsHash(c: char) { c == '#' }

  /** `re.match(r'^#+\s+', t)`. */
  predicate MarkdownHeading(t: string) {
    var h := RunLen(t, IsHash);
    h >= 1 && h < |t| && IsSpace(t[h])
  }

  /** `_looks_like_section_break`. */
  predicate LooksLikeSectionBreak(text: string) {
    LooksLikeHeading(text) || (|text| < 50 && PyIsUpper(text)) || MarkdownHeading(text)
  }

  /** A single digit, an optional dot, a space and a capital letter open a numbered
      heading. */
  lemma OneDigitHeading(t: string)
    requires |t| >= 4 && IsDigit(t[0]) && !IsDigit(t[1])
    requires var p := if t[1] == '.' then 2 else 1; IsSpace(t[p]) && IsUpper(t[p + 1])
    ensures NumberedHeading(t)
  {
    var p := if t[1] == '.' then 2 else 1;
    assert RunLen(t, IsDigit) == 1;
    var u := t[p..];
    assert u[0] == t[p] && u[1] == t[p + 1];
    assert RunLen(u, IsSpace) == 1;
  }

  /** A trimmed numbered heading of at most 100 characters looks like a heading. */
  lemma TrimmedNumberedHeading(t: string)
    requires Trimmed(t) && |t| <= 100 && NumberedHeading(t)
    ensures LooksLikeHeading(t)
  {
    StripTrimmed(t);
  }

  /** "1. Introduction" is a numbered heading. */
  lemma DottedNumberHeading(t: string)
    requires t == "1. Introduction"
    ensures LooksLikeHeading(t)
  {
    OneDigitHeading(t);
    TrimmedNumberedHeading(t);
  }

  /** "1 Introduction" is a numbered heading too: the dot is optional. */
  lemma PlainNumberHeading(t: string)
    requires t == "1 Introduction"
    ensures LooksLikeHeading(t)
  {
    OneDigitHeading(t);
    TrimmedNumberedHeading(t);
  }

  /** "INTRODUCTION" is a heading. */
  lemma CapitalsHeadingExample(t: string)
    requires t == "INTRODUCTION"
    ensures LooksLikeHeading(t)
  {
    assert CapitalsHeading(t);
    StripTrimmed(t);
  }

  /** "Introduction:" is a heading. */
  lemma ColonHeadingExample(t: string)
    requires t == "Introduction:"
    ensures LooksLikeHeading(t)
  {
    assert ColonHeading(t);
    StripTrimmed(t);
  }

  /** Plain "Introduction" matches none of the heading patterns. */
  lemma PlainWordIsNoHeading(v: string)
    requires v == "Introduction"
    ensures !LooksLikeHeading(v)
  {
    assert v == [] + v;
    RunLenOfPrefix([], v, IsDigit);
    assert !NumberedHeading(v);
    assert !CapitalsHeading(v) by { assert !UpperOrSpace(v[1..][0]); }
    assert !ColonHeading(v);
    StripTrimmed(v);
  }

  /** A line of '#' marks followed by whitespace is a Markdown heading. */
  lemma MarkdownHeadingExamples()
    ensures MarkdownHeading("## Results")
    ensures !MarkdownHeading("#hashtag")
  {
    assert "## Results" == "##" + " Results";
    RunLenOfPrefix("##", " Results", IsHash);
    assert "#hashtag" == "#" + "hashtag";
    RunLenOfPrefix("#", "hashtag", IsHash);
  }

  /** A long paragraph is never a heading, whatever its shape. */
  lemma LongTextIsNoHeading(text: string)
    requires |text| > 100
    ensures !LooksLikeHeading(text)
  {
  }

  // ---------------------------------------------------------------------------
  // _clean_text

  /** `re.sub(r'\s+', ' ', t)`. */
  function SubWhitespace(t: string): (r: string)
    ensures |r| <= |t|
    decreases |t|
  {
    if t == [] then []
    else if IsSpace(t[0]) then " " + SubWhitespace(t[RunLen(t, IsSpace)..])
    else [t[0]] + SubWhitespace(t[1..])
  }

  /** Characters the class `[\w\s\.\,\;\:\!\?\-\(\)]` keeps. */
  predicate KeptChar(c: char) {
    IsWordChar(c) || IsSpace(c) || c in ".,;:!?-()"
  }

  /** `re.sub(r'[^\w\s\.\,\;\:\!\?\-\(\)]', ' ', t)`. */
  function ReplaceSpecial(t: string): (r: string)
    ensures |r| == |t|
    ensures forall i :: 0 <= i < |t| ==> r[i] == if KeptChar(t[i]) then t[i] else ' '
  {
    seq(|t|, i requires 0 <= i < |t| => if KeptChar(t[i]) then t[i] else ' ')
  }

  /** `_clean_text`. */
  function CleanText(text: string): string {
    Strip(Collapse(ReplaceSpecial(SubWhitespace(text))))
  }

  /** Every whitespace character is a lone ' '. */
  predicate SingleSpaced(t: string) {
    forall i :: 0 <= i < |t| && IsSpace(t[i]) ==> t[i] == ' ' && (i + 1 == |t| || !IsSpace(t[i + 1]))
  }

  lemma {:induction false} SubWhitespaceSingleSpaced(t: string)
    requires SingleSpaced(t)
    ensures SubWhitespace(t) == t
    decreases |t|
  {
    if t != [] {
      if IsSpace(t[0]) {
        assert RunLen(t, IsSpace) == 1 by {
          assert t == [t[0]] + t[1..];
          RunLenOfPrefix([t[0]], t[1..], IsSpace);
        }
      }
      SubWhitespaceSingleSpaced(t[1..]);
    }
  }

  lemma CollapseTrimmed(s: string)
    ensures Trimmed(Collapse(s))
  {
    CollapseNormalized(s);
  }

  lemma CleanTextIsCollapse(text: string)
    ensures CleanText(text) == Collapse(ReplaceSpecial(SubWhitespace(text)))
  {
    var c := Collapse(ReplaceSpecial(SubWhitespace(text)));
    CollapseTrimmed(ReplaceSpecial(SubWhitespace(text)));
    StripTrimmed(c);
  }

  /** `_clean_text` keeps only word characters, single spaces and `. , ; : ! ? - ( )`. */
  lemma CleanTextChars(text: string)
    ensures forall c <- CleanText(text) :: KeptChar(c) && (IsSpace(c) ==> c == ' ')
  {
    var u := ReplaceSpecial(SubWhitespace(text));
    CleanTextIsCollapse(text);
    CollapseChars(u);
    CollapseNormalized(u);
    forall ch <- Collapse(u)
      ensures KeptChar(ch) && (IsSpace(ch) ==> ch == ' ')
    {
      var i :| 0 <= i < |Collapse(u)| && Collapse(u)[i] == ch;
      if ch != ' ' {
        var j :| 0 <= j < |u| && u[j] == ch;
      }
    }
  }

  /** `_clean_text` leaves no leading, trailing or repeated whitespace, and cleaning
      twice changes nothing. */
  lemma CleanTextProperties(text: string)
    ensures Normalized(CleanText(text))
    ensures CleanText(CleanText(text)) == CleanText(text)
  {
    var u := ReplaceSpecial(SubWhitespace(text));
    var c := Collapse(u);
    CleanTextIsCollapse(text);
    CollapseNormalized(u);
    CleanTextChars(text);
    assert SingleSpaced(c);
    SubWhitespaceSingleSpaced(c);
    assert ReplaceSpecial(c) == c;
    CollapseIdempotent(u);
    CleanTextIsCollapse(c);
  }

  // ---------------------------------------------------------------------------
  // _identify_sections_by_structure

  /** The accumulator state of a segmenting loop: the emitted pieces and the current buffer. */
  datatype Scan = Scan(sections: seq<string>, current: string)

  /** One paragraph of `_identify_sections_by_structure`'s loop. */
  function StructureStep(acc: Scan, raw: string, maxLen: int): Scan {
    var para := Strip(raw);
    if para == [] then acc else BreakStep(acc, para, LooksLikeSectionBreak(para), maxLen)
  }

  /** The loop's work on a non-blank paragraph, given whether it looks like a section break:
      a break flushes a non-empty buffer and starts a new one with the paragraph, other
      text is appended; an over-long buffer is then flushed. */
  function BreakStep(acc: Scan, para: string, isBreak: bool, maxLen: int): Scan {
    var next :=
      if isBreak then
        (if acc.current != [] then Scan(acc.sections + [acc.current], para + "\n") else acc)
      else Scan(acc.sections, acc.current + para + "\n\n");
    if |next.current| > maxLen then Scan(next.sections + [next.current], "") else next
  }

  function StructureScan(paras: seq<string>, maxLen: int): Scan
  {
    if paras == [] then Scan([], "")
    else StructureStep(StructureScan(paras[..|paras| - 1], maxLen), paras[|paras| - 1], maxLen)
  }

  function Flushed(acc: Scan): seq<string> {
    if acc.current != [] then acc.sections + [acc.current] else acc.sections
  }

  /** `_identify_sections_by_structure(content)`. */
  function StructureSections(content: string, maxLen: int, sentTokenize: string -> seq<string>): seq<string>
  {
    var sections := Flushed(StructureScan(SplitBlankLines(content), maxLen));
    if |sections| == 1 && |sections[0]| > maxLen then SentenceSections(sentTokenize(sections[0]), maxLen)
    else sections
  }

  /** The text a paragraph adds: nothing when blank or when a break arrives with an
      empty buffer, the paragraph and "\n" for a break, and "\n\n" otherwise. */
  function StructureContribution(acc: Scan, raw: string): string {
    var para := Strip(raw);
    if para == [] then [] else BreakContribution(acc, para, LooksLikeSectionBreak(para))
  }

  function BreakContribution(acc: Scan, para: string, isBreak: bool): string {
    if isBreak then (if acc.current != [] then para + "\n" else []) else para + "\n\n"
  }

  /** A step only ever appends text: nothing emitted or buffered is lost or reordered. */
  lemma StructureStepAppends(acc: Scan, raw: string, maxLen: int)
    ensures Concat(StructureStep(acc, raw, maxLen).sections) + StructureStep(acc, raw, maxLen).current
         == Concat(acc.sections) + acc.current + StructureContribution(acc, raw)
  {
    var para := Strip(raw);
    if para != [] {
      var isBreak := LooksLikeSectionBreak(para);
      assert StructureStep(acc, raw, maxLen) == BreakStep(acc, para, isBreak, maxLen);
      assert StructureContribution(acc, raw) == BreakContribution(acc, para, isBreak);
      BreakStepAppends(acc, para, isBreak, maxLen);
    } else {
      assert StructureStep(acc, raw, maxLen) == acc;
      assert acc.current + [] == acc.current;
    }
  }

  lemma BreakStepAppends(acc: Scan, para: string, isBreak: bool, maxLen: int)
    ensures var r := BreakStep(acc, para, isBreak, maxLen);
      Concat(r.sections) + r.current == Concat(acc.sections) + acc.current + BreakContribution(acc, para, isBreak)
  {
    var next :=
      if isBreak then
        (if acc.current != [] then Scan(acc.sections + [acc.current], para + "\n") else acc)
      else Scan(acc.sections, acc.current + para + "\n\n");
    if isBreak && acc.current != [] {
      ConcatAppend(acc.sections, acc.current);
    } else if isBreak {
      assert acc.current + [] == acc.current;
    }
    assert Concat(next.sections) + next.current == Concat(acc.sections) + acc.current + BreakContribution(acc, para, isBreak);
    if |next.current| > maxLen {
      ConcatAppend(next.sections, next.current);
    }
  }

  /** With a non-negative ceiling the buffer never stays longer than the ceiling and
      every emitted piece is non-empty. */
  lemma {:induction false} StructureScanBounds(paras: seq<string>, maxLen: int)
    requires maxLen >= 0
    ensures |StructureScan(paras, maxLen).current| <= maxLen
    ensures forall p <- StructureScan(paras, maxLen).sections :: p != []
    decreases |paras|
  {
    if paras != [] {
      StructureScanBounds(paras[..|paras| - 1], maxLen);
      StructureStepBounds(StructureScan(paras[..|paras| - 1], maxLen), paras[|paras| - 1], maxLen);
    }
  }

  lemma StructureStepBounds(acc: Scan, raw: string, maxLen: int)
    requires maxLen >= 0 && |acc.current| <= maxLen && forall p <- acc.sections :: p != []
    ensures |StructureStep(acc, raw, maxLen).current| <= maxLen
    ensures forall p <- StructureStep(acc, raw, maxLen).sections :: p != []
  {
    var para := Strip(raw);
    if para != [] {
      var isBreak := LooksLikeSectionBreak(para);
      assert StructureStep(acc, raw, maxLen) == BreakStep(acc, para, isBreak, maxLen);
      BreakStepBounds(acc, para, isBreak, maxLen);
    }
  }

  lemma BreakStepBounds(acc: Scan, para: string, isBreak: bool, maxLen: int)
    requires maxLen >= 0 && |acc.current| <= maxLen && forall p <- acc.sections :: p != []
    ensures |BreakStep(acc, para, isBreak, maxLen).current| <= maxLen
    ensures forall p <- BreakStep(acc, para, isBreak, maxLen).sections :: p != []
  {
    var next :=
      if isBreak then
        (if acc.current != [] then Scan(acc.sections + [acc.current], para + "\n") else acc)
      else Scan(acc.sections, acc.current + para + "\n\n");
    assert forall p <- next.sections :: p != [];
    if |next.current| > maxLen {
      assert BreakStep(acc, para, isBreak, maxLen) == Scan(next.sections + [next.current], "");
    } else {
      assert BreakStep(acc, para, isBreak, maxLen) == next;
    }
  }

  lemma StructurePiecesNonEmpty(paras: seq<string>, maxLen: int)
    requires maxLen >= 0
    ensures forall p <- Flushed(StructureScan(paras, maxLen)) :: p != []
  {
    StructureScanBounds(paras, maxLen);
    FlushedNonEmpty(StructureScan(paras, maxLen));
  }

  lemma FlushedNonEmpty(acc: Scan)
    requires forall p <- acc.sections :: p != []
    ensures forall p <- Flushed(acc) :: p != []
  {
    if acc.current != [] {
      assert Flushed(acc) == acc.sections + [acc.current];
    }
  }

  /** Blank input gives no paragraph text at all, so nothing is emitted. */
  lemma {:induction false} StructureScanBlank(paras: seq<string>, maxLen: int)
    requires maxLen >= 0
    requires forall p <- paras :: Strip(p) == []
    ensures StructureScan(paras, maxLen) == Scan([], "")
    decreases |paras|
  {
    if paras != [] {
      StructureScanBlank(paras[..|paras| - 1], maxLen);
    }
  }

  method IdentifySectionsByStructure(content: string, maxLen: int, sentTokenize: string -> seq<string>)
    returns (sections: seq<string>)
    ensures sections == StructureSections(content, maxLen, sentTokenize)
  {
    var paragraphs := SplitBlankLines(content);
    var current;
    sections, current := ScanParagraphs(paragraphs, maxLen);
    if current != [] {
      sections := sections + [current];
    }
    if |sections| == 1 && |sections[0]| > maxLen {
      sections := SplitBySentences(sections[0], maxLen, sentTokenize);
    }
  }

  /** The paragraph loop of `_identify_sections_by_structure`. */
  method ScanParagraphs(paragraphs: seq<string>, maxLen: int) returns (sections: seq<string>, current: string)
    ensures Scan(sections, current) == StructureScan(paragraphs, maxLen)
  {
    sections := [];
    current := "";
    var i := 0;
    while i < |paragraphs|
      invariant 0 <= i <= |paragraphs|
      invariant Scan(sections, current) == StructureScan(paragraphs[..i], maxLen)
    {
      assert paragraphs[..i + 1][..i] == paragraphs[..i];
      var para := Strip(paragraphs[i]);
      if para != [] {
        sections, current := ParagraphStep(sections, current, para, LooksLikeSectionBreak(para), maxLen);
      }
      i := i + 1;
    }
    assert paragraphs[..i] == paragraphs;
  }

  /** The loop body for one non-blank paragraph. */
  method ParagraphStep(sections: seq<string>, current: string, para: string, isBreak: bool, maxLen: int)
    returns (sections': seq<string>, current': string)
    ensures Scan(sections', current') == BreakStep(Scan(sections, current), para, isBreak, maxLen)
  {
    sections', current' := sections, current;
    if isBreak {
      if current' != [] {
        sections' := sections' + [current'];
        current' := para + "\n";
      }
    } else {
      current' := current' + para + "\n\n";
    }
    if |current'| > maxLen {
      sections' := sections' + [current'];
      current' := "";
    }
  }

  // ---------------------------------------------------------------------------
  // _split_by_sentences

  function SentenceStep(acc: Scan, sentence: string, maxLen: int): Scan {
    if |acc.current + sentence| > maxLen then
      if acc.current != [] then Scan(acc.sections + [Strip(acc.current)], sentence + " ")
      else Scan(acc.sections + [sentence], acc.current)
    else Scan(acc.sections, acc.current + sentence + " ")
  }

  function SentenceScan(sentences: seq<string>, maxLen: int): Scan
  {
    if sentences == [] then Scan([], "")
    else SentenceStep(SentenceScan(sentences[..|sentences| - 1], maxLen), sentences[|sentences| - 1], maxLen)
  }

  function SentenceFlushed(acc: Scan): seq<string> {
    if acc.current != [] then acc.sections + [Strip(acc.current)] else acc.sections
  }

  function SentenceSections(sentences: seq<string>, maxLen: int): seq<string> {
    SentenceFlushed(SentenceScan(sentences, maxLen))
  }

  /** The buffer is empty or some sentences joined by ' ' with one trailing ' '. */
  predicate BufferShape(cur: string) {
    cur == [] || (|cur| >= 2 && cur[|cur| - 1] == ' ' && cur[..|cur| - 1] != [] && Trimmed(cur[..|cur| - 1]))
  }

  lemma StripBuffer(cur: string)
    requires BufferShape(cur) && cur != []
    ensures Strip(cur) == cur[..|cur| - 1]
  {
    var body := cur[..|cur| - 1];
    assert cur == body + " ";
    assert LStrip(cur) == cur;
    assert RStrip(cur) == RStrip(body);
    StripTrimmed(body);
    assert LStrip(body) == body;
  }

  lemma JoinExtendLast(ws: seq<string>, a: string, b: string)
    ensures Join(ws + [a + " " + b], " ") == Join(ws + [a], " ") + " " + b
  {
    if ws == [] {
      assert [a + " " + b] == [a + " " + b];
    } else {
      JoinAppend(ws, a + " " + b, " ");
      JoinAppend(ws, a, " ");
    }
  }

  lemma JoinSnoc(ws: seq<string>, w: string)
    ensures Join(ws + [w], " ") == if ws == [] then w else Join(ws, " ") + " " + w
  {
    if ws != [] {
      JoinAppend(ws, w, " ");
    }
  }

  /** One sentence step extends the joined output by exactly that sentence. */
  lemma SentenceStepJoin(acc: Scan, s: string, maxLen: int, prior: seq<string>)
    requires s != [] && Trimmed(s)
    requires BufferShape(acc.current)
    requires Join(SentenceFlushed(acc), " ") == Join(prior, " ")
    requires SentenceFlushed(acc) == [] <==> prior == []
    ensures BufferShape(SentenceStep(acc, s, maxLen).current)
    ensures Join(SentenceFlushed(SentenceStep(acc, s, maxLen)), " ") == Join(prior + [s], " ")
    ensures SentenceFlushed(SentenceStep(acc, s, maxLen)) != []
  {
    JoinSnoc(prior, s);
    if |acc.current + s| > maxLen || acc.current == [] {
      SentenceStepAppends(acc, s, maxLen);
      JoinSnoc(SentenceFlushed(acc), s);
    } else {
      SentenceStepExtends(acc, s, maxLen);
      JoinExtendLast(acc.sections, acc.current[..|acc.current| - 1], s);
    }
  }

  /** A sentence that overflows the buffer, or starts an empty one, becomes a piece of its
      own after the flushed ones. */
  lemma SentenceStepAppends(acc: Scan, s: string, maxLen: int)
    requires s != [] && Trimmed(s)
    requires BufferShape(acc.current)
    requires |acc.current + s| > maxLen || acc.current == []
    ensures BufferShape(SentenceStep(acc, s, maxLen).current)
    ensures SentenceFlushed(SentenceStep(acc, s, maxLen)) == SentenceFlushed(acc) + [s]
  {
    assert (s + " ")[..|s|] == s;
    StripBuffer(s + " ");
    if |acc.current + s| > maxLen && acc.current != [] {
      assert SentenceStep(acc, s, maxLen) == Scan(acc.sections + [Strip(acc.current)], s + " ");
      assert (acc.sections + [Strip(acc.current)]) + [Strip(s + " ")] == SentenceFlushed(acc) + [s];
    } else if |acc.current + s| > maxLen {
      assert SentenceStep(acc, s, maxLen) == Scan(acc.sections + [s], []);
    } else {
      assert SentenceStep(acc, s, maxLen) == Scan(acc.sections, s + " ");
    }
  }

  /** A sentence that fits a non-empty buffer extends its last piece by a space and the
      sentence. */
  lemma SentenceStepExtends(acc: Scan, s: string, maxLen: int)
    requires s != [] && Trimmed(s)
    requires BufferShape(acc.current)
    requires |acc.current + s| <= maxLen && acc.current != []
    ensures BufferShape(SentenceStep(acc, s, maxLen).current)
    ensures var body := acc.current[..|acc.current| - 1];
      SentenceFlushed(acc) == acc.sections + [body] &&
      SentenceFlushed(SentenceStep(acc, s, maxLen)) == acc.sections + [body + " " + s]
  {
    var cur' := acc.current + s + " ";
    var body := acc.current[..|acc.current| - 1];
    assert acc.current == body + " ";
    assert cur'[..|cur'| - 1] == body + " " + s;
    StripBuffer(acc.current);
    StripBuffer(cur');
  }

  /** `_split_by_sentences` keeps every sentence exactly once and in order: joining its
      pieces with ' ' gives back the sentences joined with ' '. */
  lemma {:induction false} SentenceSectionsJoin(sentences: seq<string>, maxLen: int)
    requires forall s <- sentences :: s != [] && Trimmed(s)
    ensures Join(SentenceSections(sentences, maxLen), " ") == Join(sentences, " ")
    ensures BufferShape(SentenceScan(sentences, maxLen).current)
    ensures SentenceSections(sentences, maxLen) == [] <==> sentences == []
    decreases |sentences|
  {
    if sentences != [] {
      var init := sentences[..|sentences| - 1];
      var s := sentences[|sentences| - 1];
      assert forall t <- init :: t in sentences;
      assert s in sentences;
      SentenceSectionsJoin(init, maxLen);
      var acc := SentenceScan(init, maxLen);
      assert SentenceScan(sentences, maxLen) == SentenceStep(acc, s, maxLen);
      SentenceStepJoin(acc, s, maxLen, init);
      assert sentences == init + [s];
    }
  }

  method SplitBySentences(text: string, maxLen: int, sentTokenize: string -> seq<string>)
    returns (sections: seq<string>)
    ensures sections == SentenceSections(sentTokenize(text), maxLen)
  {
    var sentences := sentTokenize(text);
    sections := [];
    var current := "";
    var i := 0;
    while i < |sentences|
      invariant 0 <= i <= |sentences|
      invariant Scan(sections, current) == SentenceScan(sentences[..i], maxLen)
    {
      assert sentences[..i + 1][..i] == sentences[..i];
      var sentence := sentences[i];
      if |current + sentence| > maxLen {
        if current != [] {
          sections := sections + [Strip(current)];
          current := sentence + " ";
        } else {
          sections := sections + [sentence];
        }
      } else {
        current := current + sentence + " ";
      }
      i := i + 1;
    }
    assert sentences[..i] == sentences;
    if current != [] {
      sections := sections + [Strip(current)];
    }
  }

  // ---------------------------------------------------------------------------
  // _segment_docx_content

  predicate IsHeadingStyle(style: string) {
    Contains(style, "Heading") || Contains(style, "Title") || Contains(style, "Subtitle")
  }

  function ParaText(p: DocxParagraph): string { Strip(OrElse(p.content, "")) }

  predicate IsDocxHeading(p: DocxParagraph) {
    IsHeadingStyle(OrElse(p.style, "Normal")) || LooksLikeHeading(ParaText(p))
  }

  function SectionLabel(n: nat): string { "Section " + NatToString(n) }

  datatype DocxScan = DocxScan(sections: seq<Section>, current: string, title: string, count: nat)

  /** The section the DOCX loop emits from its current buffer and title. */
  function DocxSection(acc: DocxScan): Section {
    Section(Strip(acc.current), if acc.title != [] then acc.title else SectionLabel(acc.count),
            "document", "heading_section")
  }

  function DocxStep(acc: DocxScan, p: DocxParagraph): DocxScan {
    if IsDocxHeading(p) then
      var emitted := if Strip(acc.current) != [] then acc.(sections := acc.sections + [DocxSection(acc)], count := acc.count + 1) else acc;
      emitted.(title := ParaText(p), current := "")
    else acc.(current := acc.current + ParaText(p) + "\n")
  }

  function DocxScanAll(paras: seq<DocxParagraph>): DocxScan {
    if paras == [] then DocxScan([], "", "", 1)
    else DocxStep(DocxScanAll(paras[..|paras| - 1]), paras[|paras| - 1])
  }

  function DocxSections(paras: seq<DocxParagraph>): seq<Section> {
    var acc := DocxScanAll(paras);
    if Strip(acc.current) != [] then acc.sections + [DocxSection(acc)] else acc.sections
  }

  /** What the DOCX segmenter promises of the i-th section it emits. */
  predicate GoodDocxSection(paras: seq<DocxParagraph>, s: Section, i: nat) {
    && s.content != [] && Trimmed(s.content)
    && s.title != []
    && (s.title == SectionLabel(i + 1) || exists p <- paras :: IsDocxHeading(p) && s.title == ParaText(p))
  }

  /** The DOCX loop's invariant relative to the whole paragraph list `all`. */
  predicate DocxInv(all: seq<DocxParagraph>, acc: DocxScan) {
    && acc.count == |acc.sections| + 1
    && (acc.title == [] || exists p <- all :: IsDocxHeading(p) && acc.title == ParaText(p))
    && forall i :: 0 <= i < |acc.sections| ==> GoodDocxSection(all, acc.sections[i], i)
  }

  lemma DocxEmitGood(all: seq<DocxParagraph>, acc: DocxScan)
    requires DocxInv(all, acc)
    requires Strip(acc.current) != []
    ensures GoodDocxSection(all, DocxSection(acc), |acc.sections|)
  {
    var sec := DocxSection(acc);
    assert sec.content == Strip(acc.current);
    if acc.title == [] {
      assert sec.title == SectionLabel(|acc.sections| + 1);
      assert sec.title[0] == 'S';
    } else {
      assert sec.title == acc.title;
    }
  }

  lemma DocxGoodAppend(all: seq<DocxParagraph>, secs: seq<Section>, s: Section)
    requires forall i :: 0 <= i < |secs| ==> GoodDocxSection(all, secs[i], i)
    requires GoodDocxSection(all, s, |secs|)
    ensures forall i :: 0 <= i < |secs + [s]| ==> GoodDocxSection(all, (secs + [s])[i], i)
  {
    forall i | 0 <= i < |secs + [s]|
      ensures GoodDocxSection(all, (secs + [s])[i], i)
    {
      if i < |secs| {
        assert (secs + [s])[i] == secs[i];
      }
    }
  }

  lemma DocxStepKeeps(all: seq<DocxParagraph>, acc: DocxScan, p: DocxParagraph)
    requires p in all && DocxInv(all, acc)
    ensures DocxInv(all, DocxStep(acc, p))
  {
    var next := DocxStep(acc, p);
    if IsDocxHeading(p) {
      var emitted := if Strip(acc.current) != [] then acc.(sections := acc.sections + [DocxSection(acc)], count := acc.count + 1) else acc;
      assert next == emitted.(title := ParaText(p), current := "");
      if Strip(acc.current) != [] {
        DocxEmitGood(all, acc);
        DocxGoodAppend(all, acc.sections, DocxSection(acc));
      }
      assert IsDocxHeading(p) && next.title == ParaText(p);
    } else {
      assert next == acc.(current := acc.current + ParaText(p) + "\n");
    }
  }

  /** The section counter counts emitted sections, and every title is some heading's text
      or "Section N" with N the section's own 1-based position (which heading is stated by
      `DocxSectionTitles`). */
  lemma {:induction false} DocxScanInvariant(all: seq<DocxParagraph>, paras: seq<DocxParagraph>)
    requires forall p <- paras :: p in all
    ensures DocxInv(all, DocxScanAll(paras))
    decreases |paras|
  {
    if paras != [] {
      var init := paras[..|paras| - 1];
      assert forall q <- init :: q in paras;
      DocxScanInvariant(all, init);
      DocxStepKeeps(all, DocxScanAll(init), paras[|paras| - 1]);
    }
  }

  /** Every DOCX section has non-empty stripped content and a title that is either a
      heading's text or "Section N" for its own position N. */
  lemma DocxSectionsGood(paras: seq<DocxParagraph>)
    ensures forall i :: 0 <= i < |DocxSections(paras)| ==> GoodDocxSection(paras, DocxSections(paras)[i], i)
  {
    DocxScanInvariant(paras, paras);
    var acc := DocxScanAll(paras);
    if Strip(acc.current) != [] {
      DocxEmitGood(paras, acc);
      DocxGoodAppend(paras, acc.sections, DocxSection(acc));
    }
  }

  /** The text of the last heading paragraph, or "" when there is none. */
  function LastHeadingText(paras: seq<DocxParagraph>): string {
    if paras == [] then ""
    else if IsDocxHeading(paras[|paras| - 1]) then ParaText(paras[|paras| - 1])
    else LastHeadingText(paras[..|paras| - 1])
  }

  /** What one paragraph does to the loop state. */
  lemma DocxStepFacts(acc: DocxScan, p: DocxParagraph)
    ensures var next := DocxStep(acc, p);
      var emits := IsDocxHeading(p) && Strip(acc.current) != [];
      && next.title == (if IsDocxHeading(p) then ParaText(p) else acc.title)
      && next.count == (if emits then acc.count + 1 else acc.count)
      && next.sections == (if emits then acc.sections + [DocxSection(acc)] else acc.sections)
  {
  }

  /** After any prefix of the paragraphs, `current_title` is the last heading's text and
      `section_count` is one past the number of sections emitted. */
  lemma {:induction false} DocxTitleIsLastHeading(paras: seq<DocxParagraph>)
    ensures DocxScanAll(paras).title == LastHeadingText(paras)
    ensures DocxScanAll(paras).count == |DocxScanAll(paras).sections| + 1
    decreases |paras|
  {
    if paras != [] {
      var init := paras[..|paras| - 1];
      DocxTitleIsLastHeading(init);
      DocxStepFacts(DocxScanAll(init), paras[|paras| - 1]);
    }
  }

  /** Section `s`, the `i`-th, is emitted at paragraph `j` (a heading, or the end of the list):
      its content is the loop's non-empty stripped buffer there, and its title is the text of
      the last heading before `j`, or "Section i+1" when that text is empty or there is none. */
  predicate EmittedAt(paras: seq<DocxParagraph>, j: nat, i: nat, s: Section) {
    && j <= |paras|
    && (j == |paras| || IsDocxHeading(paras[j]))
    && var acc := DocxScanAll(paras[..j]);
      && |acc.sections| == i
      && Strip(acc.current) != []
      && s.content == Strip(acc.current)
      && s.title == (if LastHeadingText(paras[..j]) != [] then LastHeadingText(paras[..j]) else SectionLabel(i + 1))
  }

  /** Section `s`, the `i`-th, was emitted at some paragraph before `k`. */
  predicate EmittedBefore(paras: seq<DocxParagraph>, k: nat, i: nat, s: Section)
    decreases k
  {
    k > 0 && (EmittedAt(paras, k - 1, i, s) || EmittedBefore(paras, k - 1, i, s))
  }

  /** Every section of `secs`, the `i`-th at position `i`, was emitted before `k`. */
  predicate AllEmitted(all: seq<DocxParagraph>, k: nat, secs: seq<Section>)
    decreases |secs|
  {
    secs == [] || (AllEmitted(all, k, secs[..|secs| - 1]) && EmittedBefore(all, k, |secs| - 1, secs[|secs| - 1]))
  }

  /** What was emitted before `k` was emitted before `k + 1`. */
  lemma {:induction false} AllEmittedLater(all: seq<DocxParagraph>, k: nat, k': nat, secs: seq<Section>)
    requires k' == k + 1 && AllEmitted(all, k, secs)
    ensures AllEmitted(all, k', secs)
    decreases |secs|
  {
    if secs != [] {
      AllEmittedLater(all, k, k', secs[..|secs| - 1]);
    }
  }

  lemma {:induction false} AllEmittedIndex(all: seq<DocxParagraph>, k: nat, secs: seq<Section>)
    requires AllEmitted(all, k, secs)
    ensures forall i :: 0 <= i < |secs| ==> EmittedBefore(all, k, i, secs[i])
    decreases |secs|
  {
    if secs != [] {
      var init := secs[..|secs| - 1];
      var last := |secs| - 1;
      assert AllEmitted(all, k, init) && EmittedBefore(all, k, last, secs[last]);
      AllEmittedIndex(all, k, init);
      forall i | 0 <= i < |secs|
        ensures EmittedBefore(all, k, i, secs[i])
      {
        if i < last {
          assert secs[i] == init[i];
        } else {
          assert i == last;
        }
      }
    }
  }

  /** The sections so far stay accounted for one paragraph later, and so does a section
      emitted at `k`. */
  lemma {:induction false} EmittedExtend(all: seq<DocxParagraph>, k: nat, k': nat, secs: seq<Section>,
                                         next: seq<Section>)
    requires k' == k + 1 && AllEmitted(all, k, secs)
    requires next == secs || (|next| == |secs| + 1 && next[..|secs|] == secs
                              && EmittedAt(all, k, |secs|, next[|secs|]))
    ensures AllEmitted(all, k', next)
  {
    AllEmittedLater(all, k, k', secs);
  }

  /** A heading after a non-empty buffer emits that buffer as a section. */
  lemma {:induction false} DocxEmitAt(all: seq<DocxParagraph>, j: nat)
    requires j <= |all| && (j == |all| || IsDocxHeading(all[j])) && Strip(DocxScanAll(all[..j]).current) != []
    ensures EmittedAt(all, j, |DocxScanAll(all[..j]).sections|, DocxSection(DocxScanAll(all[..j])))
  {
    DocxTitleIsLastHeading(all[..j]);
  }

  /** The loop state after `k + 1` paragraphs is one step from the state after `k`. */
  lemma DocxScanSnoc(all: seq<DocxParagraph>, k: nat, k': nat)
    requires k < |all| && k' == k + 1
    ensures DocxScanAll(all[..k']) == DocxStep(DocxScanAll(all[..k]), all[k])
  {
    assert all[..k'][..k] == all[..k];
  }

  /** One paragraph of the loop keeps every emitted section accounted for. */
  lemma {:induction false} DocxEmittedStep(all: seq<DocxParagraph>, k: nat, k': nat, acc: DocxScan, next: DocxScan)
    requires k < |all| && k' == k + 1 && acc == DocxScanAll(all[..k]) && next == DocxStep(acc, all[k])
    requires AllEmitted(all, k, acc.sections)
    ensures AllEmitted(all, k', next.sections)
  {
    DocxStepFacts(acc, all[k]);
    if IsDocxHeading(all[k]) && Strip(acc.current) != [] {
      assert next.sections[..|acc.sections|] == acc.sections;
      DocxEmitAt(all, k);
    }
    EmittedExtend(all, k, k', acc.sections, next.sections);
  }

  /** Every section the loop has emitted after `k` paragraphs was emitted at a heading before `k`. */
  lemma {:induction false} DocxScanEmitted(all: seq<DocxParagraph>, k: nat)
    requires k <= |all|
    ensures AllEmitted(all, k, DocxScanAll(all[..k]).sections)
    decreases k
  {
    if k == 0 {
      assert all[..k] == [];
    } else {
      DocxScanEmitted(all, k - 1);
      DocxScanSnoc(all, k - 1, k);
      DocxEmittedStep(all, k - 1, k, DocxScanAll(all[..k - 1]), DocxScanAll(all[..k]));
    }
  }

  /** Every DOCX section is emitted at a heading or at the end of the list; its title is the
      text of the last heading before that point, or "Section N" for its own position N when
      that text is empty or there is no heading. */
  lemma {:induction false} DocxSectionTitles(paras: seq<DocxParagraph>)
    ensures forall i :: 0 <= i < |DocxSections(paras)| ==>
      EmittedBefore(paras, |paras| + 1, i, DocxSections(paras)[i])
  {
    var n := |paras|;
    DocxScanEmitted(paras, n);
    assert paras[..n] == paras;
    var acc := DocxScanAll(paras);
    var secs := DocxSections(paras);
    if Strip(acc.current) != [] {
      assert secs == acc.sections + [DocxSection(acc)];
      assert secs[..|acc.sections|] == acc.sections;
      DocxEmitAt(paras, n);
    }
    EmittedExtend(paras, n, n + 1, acc.sections, secs);
    AllEmittedIndex(paras, n + 1, secs);
  }

  method SegmentDocx(paras: seq<DocxParagraph>) returns (sections: seq<Section>)
    ensures sections == DocxSections(paras)
  {
    sections := [];
    var current := "";
    var title := "";
    var count: nat := 1;
    var i := 0;
    while i < |paras|
      invariant 0 <= i <= |paras|
      invariant DocxScan(sections, current, title, count) == DocxScanAll(paras[..i])
    {
      assert paras[..i + 1][..i] == paras[..i];
      var text := Strip(OrElse(paras[i].content, ""));
      var style := OrElse(paras[i].style, "Normal");
      if IsHeadingStyle(style) || LooksLikeHeading(text) {
        if Strip(current) != [] {
          sections := sections + [Section(Strip(current), if title != [] then title else SectionLabel(count),
                                          "document", "heading_section")];
          count := count + 1;
        }
        title := text;
        current := "";
      } else {
        current := current + text + "\n";
      }
      i := i + 1;
    }
    assert paras[..i] == paras;
    if Strip(current) != [] {
      sections := sections + [Section(Strip(current), if title != [] then title else SectionLabel(count),
                                      "document", "heading_section")];
    }
  }

  // ---------------------------------------------------------------------------
  // _segment_pdf_content, _segment_txt_content, _segment_generic_content

  /** Sections numbered "<prefix>1", "<prefix>2", … in order. */
  function Numbered(contents: seq<string>, prefix: string, source: string, kind: string): (r: seq<Section>)
    ensures |r| == |contents|
    ensures forall i :: 0 <= i < |r| ==> r[i] == Section(contents[i], prefix + NatToString(i + 1), source, kind)
  {
    seq(|contents|, i requires 0 <= i < |contents| => Section(contents[i], prefix + NatToString(i + 1), source, kind))
  }

  method LabelSections(contents: seq<string>, prefix: string, source: string, kind: string)
    returns (r: seq<Section>)
    ensures r == Numbered(contents, prefix, source, kind)
  {
    r := [];
    for i := 0 to |contents|
      invariant r == Numbered(contents[..i], prefix, source, kind)
    {
      r := r + [Section(contents[i], prefix + NatToString(i + 1), source, kind)];
    }
    assert contents[..|contents|] == contents;
  }

  function PageSections(page: PdfPage, maxLen: int, sentTokenize: string -> seq<string>): seq<Section> {
    var text := Strip(OrElse(page.content, ""));
    if text == [] then []
    else Numbered(StructureSections(text, maxLen, sentTokenize),
                  "Page " + IntToString(page.pageNumber) + " - Section ",
                  "page_" + IntToString(page.pageNumber), "page_section")
  }

  function PdfSections(pages: seq<PdfPage>, maxLen: int, sentTokenize: string -> seq<string>): seq<Section> {
    if pages == [] then []
    else PdfSections(pages[..|pages| - 1], maxLen, sentTokenize) + PageSections(pages[|pages| - 1], maxLen, sentTokenize)
  }

  method SegmentPdf(pages: seq<PdfPage>, maxLen: int, sentTokenize: string -> seq<string>)
    returns (sections: seq<Section>)
    ensures sections == PdfSections(pages, maxLen, sentTokenize)
  {
    sections := [];
    for k := 0 to |pages|
      invariant sections == PdfSections(pages[..k], maxLen, sentTokenize)
    {
      var labelled := SegmentPage(pages[k], maxLen, sentTokenize);
      PdfSectionsSnoc(pages, k, maxLen, sentTokenize);
      sections := sections + labelled;
    }
    assert pages[..|pages|] == pages;
  }

  /** The body of the page loop: one page's labelled sections. */
  method SegmentPage(page: PdfPage, maxLen: int, sentTokenize: string -> seq<string>)
    returns (labelled: seq<Section>)
    ensures labelled == PageSections(page, maxLen, sentTokenize)
  {
    labelled := [];
    var text := Strip(OrElse(page.content, ""));
    if text != [] {
      var pieces := IdentifySectionsByStructure(text, maxLen, sentTokenize);
      var n := IntToString(page.pageNumber);
      labelled := LabelSections(pieces, "Page " + n + " - Section ", "page_" + n, "page_section");
    }
  }

  lemma PdfSectionsSnoc(pages: seq<PdfPage>, k: int, maxLen: int, sentTokenize: string -> seq<string>)
    requires 0 <= k < |pages|
    ensures PdfSections(pages[..k + 1], maxLen, sentTokenize)
         == PdfSections(pages[..k], maxLen, sentTokenize) + PageSections(pages[k], maxLen, sentTokenize)
  {
    assert pages[..k + 1][..k] == pages[..k];
  }

  // ---------------------------------------------------------------------------
  // segment_content

  /** `_is_valid_section`: enough words (true division by 10) and non-blank content. */
  predicate IsValidSection(s: ProcessedSection, minLen: int) {
    s.wordCount as real >= minLen as real / 10.0 && Strip(s.content) != []
  }

  /** `_process_section`: the cleaned content and its counts; keywords come from the
      tokenizer the analyst is given. */
  function ProcessSection(s: Section, keywordsOf: string -> seq<string>): (r: ProcessedSection)
    ensures r.content == CleanText(s.content)
    ensures r.title == s.title && r.source == s.source && r.sectionType == s.sectionType
    ensures r.wordCount == |Words(r.content)| && r.charCount == |r.content|
  {
    var c := CleanText(s.content);
    ProcessedSection(c, s.title, s.source, s.sectionType, |Words(c)|, keywordsOf(c), |c|)
  }

  function Segmented(raw: RawContent, cfg: Config, sentTokenize: string -> seq<string>): seq<Section> {
    var maxLen := cfg.maxSectionLength;
    if raw.fileType == "pdf" then PdfSections(raw.pages, maxLen, sentTokenize)
    else if raw.fileType == "docx" then DocxSections(raw.paragraphs)
    else if raw.fileType == "txt" then Numbered(StructureSections(raw.content, maxLen, sentTokenize), "Section ", "text_file", "text_section")
    else Numbered(StructureSections(raw.content, maxLen, sentTokenize), "Section ", "generic", "generic_section")
  }

  /** Processed sections that pass `_is_valid_section`, in order. */
  function ValidProcessed(sections: seq<Section>, cfg: Config, keywordsOf: string -> seq<string>): seq<ProcessedSection>
  {
    if sections == [] then []
    else
      var rest := ValidProcessed(sections[..|sections| - 1], cfg, keywordsOf);
      var p := ProcessSection(sections[|sections| - 1], keywordsOf);
      if IsValidSection(p, cfg.minSectionLength) then rest + [p] else rest
  }

  function SegmentContentSpec(raw: RawContent, cfg: Config, sentTokenize: string -> seq<string>,
                              keywordsOf: string -> seq<string>): seq<ProcessedSection>
  {
    if Strip(raw.content) == [] then [] else ValidProcessed(Segmented(raw, cfg, sentTokenize), cfg, keywordsOf)
  }

  lemma ValidSectionFacts(p: ProcessedSection, minLen: int)
    requires IsValidSection(p, minLen)
    ensures p.content != [] && 10 * p.wordCount >= minLen
  {
    assert (10 * p.wordCount) as real == 10.0 * p.wordCount as real;
  }

  /** Every section that survives is cleaned, non-empty and has at least a tenth of the
      configured minimum length in words. */
  lemma {:induction false} ValidProcessedGood(sections: seq<Section>, cfg: Config, keywordsOf: string -> seq<string>)
    ensures forall p <- ValidProcessed(sections, cfg, keywordsOf) ::
      p.content != [] && Normalized(p.content) && 10 * p.wordCount >= cfg.minSectionLength
    decreases |sections|
  {
    if sections != [] {
      var init := sections[..|sections| - 1];
      ValidProcessedGood(init, cfg, keywordsOf);
      var p := ProcessSection(sections[|sections| - 1], keywordsOf);
      CleanTextProperties(sections[|sections| - 1].content);
      var rest := ValidProcessed(init, cfg, keywordsOf);
      if IsValidSection(p, cfg.minSectionLength) {
        assert ValidProcessed(sections, cfg, keywordsOf) == rest + [p];
        ValidSectionFacts(p, cfg.minSectionLength);
      } else {
        assert ValidProcessed(sections, cfg, keywordsOf) == rest;
      }
    }
  }

  /** The file-type dispatch of `segment_content`. */
  method SegmentByType(raw: RawContent, cfg: Config, sentTokenize: string -> seq<string>)
    returns (sections: seq<Section>)
    ensures sections == Segmented(raw, cfg, sentTokenize)
  {
    if raw.fileType == "pdf" {
      sections := SegmentPdf(raw.pages, cfg.maxSectionLength, sentTokenize);
    } else if raw.fileType == "docx" {
      sections := SegmentDocx(raw.paragraphs);
    } else if raw.fileType == "txt" {
      var pieces := IdentifySectionsByStructure(raw.content, cfg.maxSectionLength, sentTokenize);
      sections := LabelSections(pieces, "Section ", "text_file", "text_section");
    } else {
      var pieces := IdentifySectionsByStructure(raw.content, cfg.maxSectionLength, sentTokenize);
      sections := LabelSections(pieces, "Section ", "generic", "generic_section");
    }
  }

  /** The post-processing loop: process each section and keep the valid ones. */
  method PostProcess(sections: seq<Section>, cfg: Config, keywordsOf: string -> seq<string>)
    returns (result: seq<ProcessedSection>)
    ensures result == ValidProcessed(sections, cfg, keywordsOf)
  {
    result := [];
    for i := 0 to |sections|
      invariant result == ValidProcessed(sections[..i], cfg, keywordsOf)
    {
      assert sections[..i + 1][..i] == sections[..i];
      var processed := ProcessSection(sections[i], keywordsOf);
      if IsValidSection(processed, cfg.minSectionLength) {
        result := result + [processed];
      }
    }
    assert sections[..|sections|] == sections;
  }

  method SegmentContent(raw: RawContent, cfg: Config, sentTokenize: string -> seq<string>,
                        keywordsOf: string -> seq<string>)
    returns (result: seq<ProcessedSection>)
    ensures result == SegmentContentSpec(raw, cfg, sentTokenize, keywordsOf)
    ensures Strip(raw.content) == [] ==> result == []
    ensures forall p <- result :: p.content != [] && Normalized(p.content) && 10 * p.wordCount >= cfg.minSectionLength
  {
    if Strip(raw.content) == [] {
      return [];
    }
    var sections := SegmentByType(raw, cfg, sentTokenize);
    result := PostProcess(sections, cfg, keywordsOf);
    ValidProcessedGood(sections, cfg, keywordsOf);
  }
}

/** `OptimizedRelevanceScorer._extract_sections` and `_extract_subsections`: a line
    scanner that opens a new section at each header line, and a grouping of the sentence
    fragments of a section into sub-sections of three. */
module OptimizedSections {
  import opened PyStrings

  datatype Subsection = Subsection(title: string, content: string, sentenceCount: nat)

  datatype DocSection = DocSection(title: string, content: string, subsections: seq<Subsection>)

  // ---------------------------------------------------------------------------
  // Header lines. Each pattern is tried with `re.match` on "\n" + line + "\n", where
  // the line is stripped, non-empty and has no line break.

  predicate LetterOrSpace(c: char) { IsLetter(c) || IsSpace(c) }
  predicate UpperOrSpace(c: char) { IsUpper(c) || IsSpace(c) }

  /** `\n\s*([A-Z][A-Za-z\s]+:)\s*\n`: a capital, letters and spaces, and a final colon. */
  predicate ColonHeader(t: string) {
    |t| >= 3 && IsUpper(t[0]) && t[|t| - 1] == ':' && All(t[1..|t| - 1], LetterOrSpace)
  }

  /** `\n\s*(\d+\.?\s+[A-Za-z][^.\n]+)\s*\n`: digits, an optional dot, whitespace, a letter
      and at least one more character, with no dot after the letter. */
  predicate NumberedHeader(t: string) {
    var k := RunLen(t, IsDigit);
    var j := if k < |t| && t[k] == '.' then k + 1 else k;
    var m := RunLen(t[j..], IsSpace);
    k >= 1 && m >= 1 && j + m + 1 < |t| && IsLetter(t[j + m]) && '.' !in t[j + m + 1..]
  }

  /** `\n\s*([A-Z][A-Z\s]+)\s*\n`: a capital followed by capitals and spaces only. */
  predicate CapsHeader(t: string) {
    |t| >= 2 && IsUpper(t[0]) && All(t[1..], UpperOrSpace)
  }

  /** The fourth pattern, `\n\s*([A-Za-z][^.\n]{10,50})\s*\n\s*\n`, needs two line breaks
      after the line and the probe has one, so it never matches and is not listed. */
  predicate IsSectionHeader(line: string) {
    ColonHeader(line) || NumberedHeader(line) || CapsHeader(line)
  }

  // ---------------------------------------------------------------------------
  // _extract_subsections

  predicate IsTerminator(c: char) { c == '.' || c == '!' || c == '?' }
  predicate NotTerminator(c: char) { !IsTerminator(c) }

  /** The stripped pieces longer than 20 characters, in order. */
  function LongPieces(pieces: seq<string>): (r: seq<string>)
    ensures forall s <- r :: |s| > 20
  {
    if pieces == [] then []
    else
      var s := Strip(pieces[0]);
      (if |s| > 20 then [s] else []) + LongPieces(pieces[1..])
  }

  /** `re.split(r'[.!?]+', content)` filtered to stripped fragments over 20 characters.
      The non-empty pieces of that split are the maximal runs of non-terminators; the
      empty ones never pass the filter. */
  function Fragments(content: string): (r: seq<string>)
    ensures forall s <- r :: |s| > 20
  {
    LongPieces(Runs(content, NotTerminator))
  }

  function SubsectionTitle(k: nat): string {
    "Subsection " + NatToString(k)
  }

  /** The sub-sections built from index `i` on (a multiple of 3). */
  function Groups(sentences: seq<string>, i: nat): seq<Subsection>
    decreases |sentences| - i
  {
    if i >= |sentences| then []
    else
      var n := |sentences|;
      var content := Join(sentences[i..Min(i + 3, n)], ". ");
      (if content != [] then [Subsection(SubsectionTitle(i / 3 + 1), content, Min(3, n - i))] else [])
      + Groups(sentences, i + 3)
  }

  function Subsections(content: string): seq<Subsection> {
    Groups(Fragments(content), 0)
  }

  /** The sub-section opened at index `i`, when its content is non-empty. */
  function GroupAt(sentences: seq<string>, i: nat): seq<Subsection>
    requires i < |sentences|
  {
    var content := Join(sentences[i..Min(i + 3, |sentences|)], ". ");
    if content != [] then [Subsection(SubsectionTitle(i / 3 + 1), content, Min(3, |sentences| - i))] else []
  }

  lemma GroupsUnfold(sentences: seq<string>, i: nat)
    requires i < |sentences|
    ensures Groups(sentences, i) == GroupAt(sentences, i) + Groups(sentences, i + 3)
  {
  }

  /** The loop over `range(0, len(sentences), 3)`. */
  method GroupSentences(sentences: seq<string>) returns (subsections: seq<Subsection>)
    ensures subsections == Groups(sentences, 0)
  {
    subsections := [];
    var i := 0;
    while i < |sentences|
      invariant subsections + Groups(sentences, i) == Groups(sentences, 0)
    {
      var content := Join(sentences[i..Min(i + 3, |sentences|)], ". ");
      var piece: seq<Subsection> := [];
      if content != [] {
        piece := [Subsection(SubsectionTitle(i / 3 + 1), content, Min(3, |sentences| - i))];
      }
      assert piece == GroupAt(sentences, i);
      GroupsUnfold(sentences, i);
      assert subsections + piece + Groups(sentences, i + 3) == subsections + Groups(sentences, i);
      subsections := subsections + piece;
      i := i + 3;
    }
  }

  method ExtractSubsections(content: string) returns (subsections: seq<Subsection>)
    ensures subsections == Subsections(content)
  {
    var sentences := Fragments(content);
    subsections := GroupSentences(sentences);
  }

  function SentenceTotal(subs: seq<Subsection>): nat {
    if subs == [] then 0 else subs[0].sentenceCount + SentenceTotal(subs[1..])
  }

  function Contents(subs: seq<Subsection>): (r: seq<string>)
    ensures |r| == |subs|
  {
    if subs == [] then [] else [subs[0].content] + Contents(subs[1..])
  }

  /** With non-empty sentences every group has content, so the group at `i` is one
      sub-section holding `sentences[i..i+3]`. */
  lemma GroupAtOne(sentences: seq<string>, i: nat)
    requires i < |sentences|
    requires forall s <- sentences :: s != []
    ensures GroupAt(sentences, i) == [Subsection(SubsectionTitle(i / 3 + 1),
      Join(sentences[i..Min(i + 3, |sentences|)], ". "), Min(3, |sentences| - i))]
  {
    assert sentences[i] in sentences;
    JoinLength(sentences[i..Min(i + 3, |sentences|)], ". ");
  }

  /** From index `i` (a multiple of 3) there is one group per three sentences left, the
      k-th numbered `i/3 + k + 1` and holding min(3, remaining) sentences. */
  lemma {:induction false} GroupsShape(sentences: seq<string>, i: nat)
    requires i % 3 == 0
    requires forall s <- sentences :: s != []
    ensures |Groups(sentences, i)| == if i >= |sentences| then 0 else (|sentences| - i + 2) / 3
    ensures forall k :: 0 <= k < |Groups(sentences, i)| ==>
      Groups(sentences, i)[k].title == SubsectionTitle(i / 3 + k + 1)
      && Groups(sentences, i)[k].sentenceCount == Min(3, |sentences| - (i + 3 * k))
    decreases |sentences| - i
  {
    if i < |sentences| {
      GroupsUnfold(sentences, i);
      GroupAtOne(sentences, i);
      GroupsShape(sentences, i + 3);
      var g := Groups(sentences, i);
      var rest := Groups(sentences, i + 3);
      forall k | 0 < k < |g|
        ensures g[k] == rest[k - 1]
      {
      }
    }
  }

  /** From index `i` the groups' sentence counts add up to the sentences left. */
  lemma {:induction false} GroupsTotal(sentences: seq<string>, i: nat)
    requires forall s <- sentences :: s != []
    ensures SentenceTotal(Groups(sentences, i)) == if i >= |sentences| then 0 else |sentences| - i
    decreases |sentences| - i
  {
    if i < |sentences| {
      GroupsUnfold(sentences, i);
      GroupAtOne(sentences, i);
      GroupsTotal(sentences, i + 3);
      var g := Groups(sentences, i);
      assert g[1..] == Groups(sentences, i + 3);
    }
  }

  /** From index `i` the group contents joined by ". " are the remaining sentences
      joined by ". ". */
  lemma {:induction false} GroupsJoin(sentences: seq<string>, i: nat)
    requires i < |sentences|
    requires forall s <- sentences :: s != []
    ensures Join(Contents(Groups(sentences, i)), ". ") == Join(sentences[i..], ". ")
    decreases |sentences| - i
  {
    var n := |sentences|;
    var group := sentences[i..Min(i + 3, n)];
    GroupsUnfold(sentences, i);
    GroupAtOne(sentences, i);
    var rest := Groups(sentences, i + 3);
    var g := Groups(sentences, i);
    assert Contents(g) == [Join(group, ". ")] + Contents(rest) by {
      assert g[1..] == rest;
    }
    if i + 3 < n {
      GroupsJoin(sentences, i + 3);
      GroupsUnfold(sentences, i + 3);
      GroupAtOne(sentences, i + 3);
      JoinConcat([Join(group, ". ")], Contents(rest), ". ");
      JoinConcat(group, sentences[i + 3..], ". ");
      assert group + sentences[i + 3..] == sentences[i..];
    } else {
      assert group == sentences[i..];
      assert rest == [];
    }
  }

  /** Grouping non-empty sentences by three: the groups are titled "Subsection 1",
      "Subsection 2", ..., each holds min(3, remaining) sentences, the counts add up to
      the number of sentences, and the contents joined by ". " are the sentences joined
      by ". ". */
  lemma GroupsProperties(sentences: seq<string>)
    requires forall s <- sentences :: s != []
    ensures |Groups(sentences, 0)| == (|sentences| + 2) / 3
    ensures forall k :: 0 <= k < |Groups(sentences, 0)| ==>
      Groups(sentences, 0)[k].title == SubsectionTitle(k + 1)
      && Groups(sentences, 0)[k].sentenceCount == Min(3, |sentences| - 3 * k)
    ensures SentenceTotal(Groups(sentences, 0)) == |sentences|
    ensures Join(Contents(Groups(sentences, 0)), ". ") == Join(sentences, ". ")
  {
    var g := Groups(sentences, 0);
    GroupsShape(sentences, 0);
    forall k | 0 <= k < |g|
      ensures g[k].title == SubsectionTitle(k + 1) && g[k].sentenceCount == Min(3, |sentences| - 3 * k)
    {
      assert 0 / 3 + k + 1 == k + 1 && 0 + 3 * k == 3 * k;
    }
    GroupsTotal(sentences, 0);
    if sentences != [] {
      GroupsJoin(sentences, 0);
      assert sentences[0..] == sentences;
    }
  }

  /** The sub-sections of a section's content are the fragments grouped by three. */
  lemma SubsectionsProperties(content: string)
    ensures var f := Fragments(content);
      |Subsections(content)| == (|f| + 2) / 3
      && SentenceTotal(Subsections(content)) == |f|
      && Join(Contents(Subsections(content)), ". ") == Join(f, ". ")
      && forall k :: 0 <= k < |Subsections(content)| ==>
           Subsections(content)[k].title == SubsectionTitle(k + 1)
           && Subsections(content)[k].sentenceCount == Min(3, |f| - 3 * k)
  {
    GroupsProperties(Fragments(content));
  }

  lemma {:induction false} RunsShorter(s: string, p: char -> bool)
    ensures forall w <- Runs(s, p) :: |w| <= |s|
    decreases |s|
  {
    if s != [] {
      if !p(s[0]) {
        RunsShorter(s[1..], p);
      } else {
        var k := RunLen(s, p);
        RunsShorter(s[k..], p);
      }
    }
  }

  lemma {:induction false} LongPiecesNone(pieces: seq<string>)
    requires forall w <- pieces :: |w| <= 20
    ensures LongPieces(pieces) == []
  {
    if pieces != [] {
      assert pieces[0] in pieces;
      assert forall w <- pieces[1..] :: w in pieces;
      LongPiecesNone(pieces[1..]);
    }
  }

  /** Content of at most 20 characters has no fragment long enough, hence no sub-section. */
  lemma ShortContentHasNoSubsections(content: string)
    requires |content| <= 20
    ensures Fragments(content) == [] && Subsections(content) == []
  {
    RunsShorter(content, NotTerminator);
    LongPiecesNone(Runs(content, NotTerminator));
  }

  // ---------------------------------------------------------------------------
  // _extract_sections

  /** The scanner state: finished sections and the open section's title and content. */
  datatype Extract = Extract(sections: seq<DocSection>, title: string, content: string)

  function Close(title: string, content: string): DocSection {
    DocSection(title, content, Subsections(content))
  }

  function ExtractStep(acc: Extract, raw: string): Extract {
    var line := Strip(raw);
    if line == [] then acc
    else if IsSectionHeader(line) && acc.content != [] then Extract(acc.sections + [Close(acc.title, acc.content)], line, "")
    else Extract(acc.sections, acc.title, acc.content + line + " ")
  }

  function ExtractScan(lines: seq<string>): Extract {
    if lines == [] then Extract([], "Introduction", "")
    else ExtractStep(ExtractScan(lines[..|lines| - 1]), lines[|lines| - 1])
  }

  function FinishExtract(acc: Extract): seq<DocSection> {
    if acc.content != [] then acc.sections + [Close(acc.title, acc.content)] else acc.sections
  }

  function Sections(content: string): seq<DocSection> {
    FinishExtract(ExtractScan(SplitOn(content, "\n")))
  }

  /** One iteration of the line loop. */
  method ScanLine(sections: seq<DocSection>, title: string, current: string, raw: string)
    returns (sections': seq<DocSection>, title': string, current': string)
    ensures Extract(sections', title', current') == ExtractStep(Extract(sections, title, current), raw)
  {
    sections', title', current' := sections, title, current;
    var line := Strip(raw);
    if line != [] {
      if IsSectionHeader(line) && current != [] {
        var subsections := ExtractSubsections(current);
        sections' := sections + [DocSection(title, current, subsections)];
        title', current' := line, "";
      } else {
        current' := current + line + " ";
      }
    }
  }

  method ExtractSections(content: string) returns (sections: seq<DocSection>)
    ensures sections == Sections(content)
  {
    var lines := SplitOn(content, "\n");
    var title, current;
    sections, title, current := ScanLines(lines);
    sections := FlushSection(sections, title, current);
  }

  /** The loop over `content.split('\n')`. */
  method ScanLines(lines: seq<string>) returns (sections: seq<DocSection>, title: string, current: string)
    ensures Extract(sections, title, current) == ExtractScan(lines)
  {
    sections := [];
    title, current := "Introduction", "";
    for i := 0 to |lines|
      invariant Extract(sections, title, current) == ExtractScan(lines[..i])
    {
      assert lines[..i + 1][..i] == lines[..i];
      assert ExtractScan(lines[..i + 1]) == ExtractStep(ExtractScan(lines[..i]), lines[i]);
      sections, title, current := ScanLine(sections, title, current, lines[i]);
    }
    ScanWhole(lines);
  }

  lemma ScanWhole(lines: seq<string>)
    ensures ExtractScan(lines[..|lines|]) == ExtractScan(lines)
  {
    assert lines[..|lines|] == lines;
  }

  /** The final flush of the open section. */
  method FlushSection(sections: seq<DocSection>, title: string, current: string) returns (r: seq<DocSection>)
    ensures r == FinishExtract(Extract(sections, title, current))
  {
    r := sections;
    if current != [] {
      var subsections := ExtractSubsections(current);
      r := sections + [DocSection(title, current, subsections)];
    }
  }

  /** The titles and contents the scanner keeps: every section has content, the first one
      is titled "Introduction" and every later one is titled by its header line. */
  predicate GoodScan(acc: Extract) {
    (forall s <- acc.sections :: s.content != [])
    && (acc.sections == [] ==> acc.title == "Introduction")
    && (acc.sections != [] ==> acc.sections[0].title == "Introduction" && IsSectionHeader(acc.title))
    && (forall i :: 0 < i < |acc.sections| ==> IsSectionHeader(acc.sections[i].title))
  }

  lemma ExtractStepGood(acc: Extract, raw: string)
    requires GoodScan(acc)
    ensures GoodScan(ExtractStep(acc, raw))
  {
    var line := Strip(raw);
    var next := ExtractStep(acc, raw);
    if line != [] && IsSectionHeader(line) && acc.content != [] {
      assert next == Extract(acc.sections + [Close(acc.title, acc.content)], line, "");
      OpenGood(acc.sections, acc.title, acc.content, line);
    } else {
      assert next.sections == acc.sections && next.title == acc.title;
    }
  }

  /** Closing the open section and opening one titled by a header keeps the scan good. */
  lemma OpenGood(sections: seq<DocSection>, title: string, content: string, line: string)
    requires GoodScan(Extract(sections, title, content))
    requires content != [] && IsSectionHeader(line)
    ensures GoodScan(Extract(sections + [Close(title, content)], line, ""))
  {
    var secs := sections + [Close(title, content)];
    forall i | 0 < i < |secs|
      ensures IsSectionHeader(secs[i].title)
    {
      if i < |sections| {
        assert secs[i] == sections[i];
      }
    }
  }

  lemma {:induction false} ExtractScanGood(lines: seq<string>)
    ensures GoodScan(ExtractScan(lines))
  {
    if lines != [] {
      ExtractScanGood(lines[..|lines| - 1]);
      ExtractStepGood(ExtractScan(lines[..|lines| - 1]), lines[|lines| - 1]);
    }
  }

  /** Every returned section has non-empty content; the first is titled "Introduction" and
      every later one is titled by the header line that opened it. */
  lemma SectionsGood(content: string)
    ensures forall s <- Sections(content) :: s.content != []
    ensures Sections(content) != [] ==> Sections(content)[0].title == "Introduction"
    ensures forall i :: 0 < i < |Sections(content)| ==> IsSectionHeader(Sections(content)[i].title)
  {
    var acc := ExtractScan(SplitOn(content, "\n"));
    ExtractScanGood(SplitOn(content, "\n"));
    if acc.content != [] {
      var r := Sections(content);
      assert r == acc.sections + [Close(acc.title, acc.content)];
      forall i | 0 < i < |r|
        ensures IsSectionHeader(r[i].title)
      {
        if i < |acc.sections| {
          assert r[i] == acc.sections[i];
        }
      }
    }
  }

  /** The kept lines, each stripped and followed by a space, in order. */
  function LineText(lines: seq<string>): string {
    if lines == [] then []
    else
      var line := Strip(lines[|lines| - 1]);
      LineText(lines[..|lines| - 1]) + if line == [] then [] else line + " "
  }

  /** The sections' text with every section after the first preceded by its title. */
  function SectionsText(secs: seq<DocSection>): string {
    if secs == [] then []
    else
      var s := secs[|secs| - 1];
      SectionsText(secs[..|secs| - 1]) + (if |secs| == 1 then [] else s.title + " ") + s.content
  }

  function ScanText(acc: Extract): string {
    SectionsText(acc.sections) + (if acc.sections == [] then [] else acc.title + " ") + acc.content
  }

  lemma ExtractStepText(acc: Extract, raw: string)
    ensures ScanText(ExtractStep(acc, raw)) == ScanText(acc) + (if Strip(raw) == [] then [] else Strip(raw) + " ")
  {
    var line := Strip(raw);
    if line == [] {
      assert ExtractStep(acc, raw) == acc;
    } else if IsSectionHeader(line) && acc.content != [] {
      HeaderStepText(acc, line);
    } else {
      BodyStepText(acc, line);
    }
  }

  /** A header closes the current section; its own text reappears as the next title. */
  lemma HeaderStepText(acc: Extract, line: string)
    ensures ScanText(Extract(acc.sections + [Close(acc.title, acc.content)], line, ""))
         == ScanText(acc) + (line + " ")
  {
    var secs := acc.sections + [Close(acc.title, acc.content)];
    assert secs[..|secs| - 1] == acc.sections && secs[|secs| - 1].content == acc.content;
    var front := SectionsText(acc.sections) + (if acc.sections == [] then [] else acc.title + " ");
    assert SectionsText(secs) == front + acc.content;
    assert ScanText(acc) == front + acc.content;
    assert ScanText(Extract(secs, line, "")) == SectionsText(secs) + (line + " ") + "";
  }

  /** Any other non-blank line is appended to the current content. */
  lemma BodyStepText(acc: Extract, line: string)
    ensures ScanText(Extract(acc.sections, acc.title, acc.content + line + " ")) == ScanText(acc) + (line + " ")
  {
    var front := SectionsText(acc.sections) + (if acc.sections == [] then [] else acc.title + " ");
    assert ScanText(acc) == front + acc.content;
    assert acc.content + line + " " == acc.content + (line + " ");
  }

  lemma {:induction false} ExtractScanText(lines: seq<string>)
    ensures ScanText(ExtractScan(lines)) == LineText(lines)
  {
    if lines != [] {
      ExtractScanText(lines[..|lines| - 1]);
      ExtractStepText(ExtractScan(lines[..|lines| - 1]), lines[|lines| - 1]);
    }
  }

  /** No line is lost or reordered: putting each later section's title back in front of its
      content gives the document's non-blank lines, stripped and space-terminated; the only
      exception is a header on the last non-blank line, which opens a section that never
      gets content and is dropped. */
  lemma SectionsKeepLines(content: string)
    ensures var acc := ExtractScan(SplitOn(content, "\n"));
      SectionsText(Sections(content)) + (if acc.content == [] && acc.sections != [] then acc.title + " " else [])
      == LineText(SplitOn(content, "\n"))
  {
    var acc := ExtractScan(SplitOn(content, "\n"));
    ExtractScanText(SplitOn(content, "\n"));
    if acc.content != [] {
      var secs := acc.sections + [Close(acc.title, acc.content)];
      assert secs[..|secs| - 1] == acc.sections;
    }
  }

  lemma SplitOnWithoutSep(s: string)
    requires '\n' !in s
    ensures SplitOn(s, "\n") == [s]
  {
    forall j | 0 <= j < |s|
      ensures !MatchAt(s, "\n", j)
    {
      assert s[j..j + 1][0] == s[j];
    }
  }

  /** A one-line document of at most 19 non-blank characters gives one "Introduction"
      section with no sub-section. */
  lemma ShortLineDocument(doc: string)
    requires '\n' !in doc && Strip(doc) != [] && |Strip(doc)| <= 19
    ensures Sections(doc) == [DocSection("Introduction", Strip(doc) + " ", [])]
  {
    SplitOnWithoutSep(doc);
    assert [doc][..0] == [];
    var line := Strip(doc);
    assert ExtractScan([doc]) == ExtractStep(Extract([], "Introduction", ""), doc);
    assert ExtractStep(Extract([], "Introduction", ""), doc) == Extract([], "Introduction", line + " ");
    ShortContentHasNoSubsections(line + " ");
  }
}

/** The formatter that reshapes an analysis into the fixed challenge output layout: metadata
    taken from the challenge input, five extracted sections and five sub-section analyses
    chosen by a detected collection domain, the page-number guess, and the recipe-aware text
    refinement with its ingredients/instructions line scan. */
module ExpectedFormatter {
  import opened PyStrings
  import ChallengeProcessor

  // ---------------------------------------------------------------------------
  // Inputs
  // ---------------------------------------------------------------------------

  /** The parts of the challenge input the formatter reads: each document's `filename`
      (absent keys as `None`), `persona.role`, `job_to_be_done.task` and
      `challenge_info.description`. */
  datatype ChallengeData = ChallengeData(
    filenames: seq<Option<string>>,
    role: Option<string>,
    task: Option<string>,
    description: Option<string>)

  /** An analysed section as the formatter reads it: `document_path` and `page_number`. */
  datatype AnalysisSection = AnalysisSection(documentPath: Option<string>, pageNumber: Option<int>)

  // ---------------------------------------------------------------------------
  // Domain detection
  // ---------------------------------------------------------------------------

  datatype Domain = Travel | HrForms | Food {
    function Name(): string {
      match this
      case Travel => "travel"
      case HrForms => "hr_forms"
      case Food => "food"
    }
  }

  const TravelIndicators: seq<string> :=
    ["france", "travel", "cities", "tourism", "hotels", "restaurants", "things to do", "tips", "culture"]
  const HrIndicators: seq<string> :=
    ["acrobat", "forms", "signatures", "pdf", "fill", "sign", "convert", "edit", "export", "sharing"]
  const FoodIndicators: seq<string> :=
    ["dinner", "lunch", "breakfast", "food", "menu", "recipe", "sides", "mains", "vegetarian"]

  /** The indicator table in its iteration order, and the domain each row names. */
  const Indicators: seq<seq<string>> := [TravelIndicators, HrIndicators, FoodIndicators]
  const Domains: seq<Domain> := [Travel, HrForms, Food]

  /** The first domain, in table order, with an indicator occurring in `text`. */
  function DomainOf(text: string): (d: Option<Domain>)
    ensures d == Some(Travel) <==> ContainsAny(text, TravelIndicators)
    ensures d == Some(HrForms) <==> !ContainsAny(text, TravelIndicators) && ContainsAny(text, HrIndicators)
    ensures d == Some(Food) <==>
      !ContainsAny(text, TravelIndicators) && !ContainsAny(text, HrIndicators) && ContainsAny(text, FoodIndicators)
    ensures d == None <==>
      !ContainsAny(text, TravelIndicators) && !ContainsAny(text, HrIndicators) && !ContainsAny(text, FoodIndicators)
  {
    FirstRuleOfThree(text, TravelIndicators, HrIndicators, FoodIndicators);
    var k := FirstRule(text, Indicators);
    if k < |Indicators| then Some(Domains[k]) else None
  }

  /** Position of the first text that has a domain, or `|texts|`. */
  function FirstDomainIndex(texts: seq<string>): (k: nat)
    ensures k <= |texts|
    ensures k < |texts| ==> DomainOf(texts[k]).Some?
    ensures forall j :: 0 <= j < k ==> DomainOf(texts[j]).None?
  {
    if texts == [] then 0
    else if DomainOf(texts[0]).Some? then 0
    else 1 + FirstDomainIndex(texts[1..])
  }

  /** The domain of the first text that has one. */
  function FirstDomain(texts: seq<string>): (d: Option<Domain>)
  {
    var k := FirstDomainIndex(texts);
    if k < |texts| then DomainOf(texts[k]) else None
  }

  /** The first text with a domain in `a + b` lies in `a` when `a` has one. */
  lemma FirstDomainAppend(a: seq<string>, b: seq<string>)
    ensures FirstDomain(a + b) == if FirstDomain(a).Some? then FirstDomain(a) else FirstDomain(b)
  {
    var k := FirstDomainIndex(a);
    FirstDomainIndexAppend(a, b);
    if k < |a| {
      assert (a + b)[k] == a[k];
    } else {
      var m := FirstDomainIndex(b);
      if m < |b| {
        assert (a + b)[|a| + m] == b[m];
      }
    }
  }

  lemma {:induction false} FirstDomainIndexAppend(a: seq<string>, b: seq<string>)
    ensures FirstDomainIndex(a + b)
            == if FirstDomainIndex(a) < |a| then FirstDomainIndex(a) else |a| + FirstDomainIndex(b)
  {
    if a == [] {
      assert a + b == b;
    } else {
      assert (a + b)[0] == a[0] && (a + b)[1..] == a[1..] + b;
      if DomainOf(a[0]).None? {
        FirstDomainIndexAppend(a[1..], b);
      }
    }
  }

  /** The lower-cased filenames, an absent one read as ''. */
  function FilenameTexts(data: ChallengeData): (r: seq<string>)
    ensures |r| == |data.filenames|
    ensures forall i :: 0 <= i < |r| ==> r[i] == Lower(GetOr(data.filenames[i], ""))
  {
    seq(|data.filenames|, i requires 0 <= i < |data.filenames| => Lower(GetOr(data.filenames[i], "")))
  }

  /** The lower-cased section paths, an absent one read as ''. */
  function PathTexts(sections: seq<AnalysisSection>): (r: seq<string>)
    ensures |r| == |sections|
    ensures forall i :: 0 <= i < |r| ==> r[i] == Lower(GetOr(sections[i].documentPath, ""))
  {
    seq(|sections|, i requires 0 <= i < |sections| => Lower(GetOr(sections[i].documentPath, "")))
  }

  /** `_detect_domain`: the stored challenge data first (filenames in document order, then
      the description), then the analysed sections' paths, and "food" when nothing
      matches. */
  function DetectDomainFrom(data: Option<ChallengeData>, sections: seq<AnalysisSection>): Domain
  {
    var fromChallenge :=
      if data.None? then None
      else if FirstDomain(FilenameTexts(data.value)).Some? then FirstDomain(FilenameTexts(data.value))
      else DomainOf(Lower(GetOr(data.value.description, "")));
    if fromChallenge.Some? then fromChallenge.value
    else
      var fromPaths := FirstDomain(PathTexts(sections));
      if fromPaths.Some? then fromPaths.value else Food
  }

  /** Every text the detection looks at, in the order it looks. */
  function SearchOrder(data: Option<ChallengeData>, sections: seq<AnalysisSection>): seq<string> {
    (if data.None? then [] else FilenameTexts(data.value) + [Lower(GetOr(data.value.description, ""))])
      + PathTexts(sections)
  }

  /** The detected domain is that of the first searched text with one, and food when no
      searched text has one. */
  lemma DetectDomainFirstMatch(data: Option<ChallengeData>, sections: seq<AnalysisSection>)
    ensures var d := FirstDomain(SearchOrder(data, sections));
      DetectDomainFrom(data, sections) == if d.Some? then d.value else Food
  {
    if data.Some? {
      var files := FilenameTexts(data.value);
      var desc := Lower(GetOr(data.value.description, ""));
      FirstDomainAppend(files, [desc]);
      FirstDomainAppend(files + [desc], PathTexts(sections));
      assert [desc][1..] == [];
      assert FirstDomain([desc]) == DomainOf(desc);
    } else {
      assert SearchOrder(data, sections) == PathTexts(sections);
    }
  }

  /** A first document whose lower-cased filename contains "pdf" never leads to the food
      domain: "pdf" is an hr_forms indicator, and only travel is checked before it. */
  lemma PdfFirstDocumentNotFood(data: ChallengeData, sections: seq<AnalysisSection>)
    requires |data.filenames| > 0 && data.filenames[0].Some?
    requires Contains(Lower(data.filenames[0].value), "pdf")
    ensures DetectDomainFrom(Some(data), sections) != Food
  {
    var t := FilenameTexts(data)[0];
    assert "pdf" in HrIndicators;
    assert ContainsAny(t, HrIndicators);
    assert DomainOf(t).Some? && DomainOf(t) != Some(Food);
    assert FirstDomain(FilenameTexts(data)) == DomainOf(t);
  }

  // ---------------------------------------------------------------------------
  // Output
  // ---------------------------------------------------------------------------

  datatype Metadata = Metadata(
    inputDocuments: seq<string>,
    persona: string,
    jobToBeDone: string,
    processingTimestamp: string)

  datatype SectionEntry = SectionEntry(
    document: string, sectionTitle: string, importanceRank: nat, pageNumber: int)

  /** The fixed refined text at position `index` of a domain's sub-section table; its
      wording is not part of the model. */
  datatype DemoText = DemoText(domain: Domain, index: nat)

  datatype SubsectionEntry = SubsectionEntry(document: string, refinedText: DemoText, pageNumber: int)

  datatype ExpectedOutput = ExpectedOutput(
    metadata: Metadata,
    extractedSections: seq<SectionEntry>,
    subsectionAnalysis: seq<SubsectionEntry>)

  /** The `metadata` block: every document's filename ('' when absent) in document order,
      the persona's role and the job's task ('' when absent), and the timestamp. */
  function MetadataOf(data: ChallengeData, timestamp: string): (m: Metadata)
    ensures |m.inputDocuments| == |data.filenames|
    ensures forall i :: 0 <= i < |data.filenames| ==>
      m.inputDocuments[i] == GetOr(data.filenames[i], "")
    ensures m.persona == GetOr(data.role, "") && m.jobToBeDone == GetOr(data.task, "")
    ensures m.processingTimestamp == timestamp
  {
    Metadata(
      seq(|data.filenames|, i requires 0 <= i < |data.filenames| => GetOr(data.filenames[i], "")),
      GetOr(data.role, ""), GetOr(data.task, ""), timestamp)
  }

  /** `_get_travel_sections`, `_get_hr_sections`, `_get_food_sections`: always five entries
      ranked 1 to 5 in list order, each with a document, a non-empty title and a positive
      page, whatever the analysis found. */
  function FixedSections(d: Domain): (r: seq<SectionEntry>)
    ensures |r| == 5
    ensures forall i :: 0 <= i < 5 ==> r[i].importanceRank == i + 1
    ensures forall i :: 0 <= i < 5 ==> r[i].document != [] && r[i].sectionTitle != [] && r[i].pageNumber >= 1
  {
    match d
    case Travel => [
      SectionEntry("South of France - Cities.pdf", "Nice", 1, 3),
      SectionEntry("South of France - Things to Do.pdf", "Beaches and Coastal Activities", 2, 8),
      SectionEntry("South of France - Restaurants and Hotels.pdf", "Budget-Friendly Accommodations", 3, 12),
      SectionEntry("South of France - Cuisine.pdf", "Local Food Markets", 4, 5),
      SectionEntry("South of France - Tips and Tricks.pdf", "Group Travel Tips", 5, 7)]
    case HrForms => [
      SectionEntry("Learn Acrobat - Fill and Sign.pdf", "Creating Fillable Forms", 1, 4),
      SectionEntry("Learn Acrobat - Create and Convert_1.pdf", "Document Conversion Workflows", 2, 6),
      SectionEntry("Learn Acrobat - Request e-signatures_1.pdf", "E-signature Setup", 3, 9),
      SectionEntry("Learn Acrobat - Edit_1.pdf", "Form Field Properties", 4, 11),
      SectionEntry("The Ultimate PDF Sharing Checklist.pdf", "Compliance Best Practices", 5, 2)]
    case Food => [
      SectionEntry("Dinner Ideas - Sides_2.pdf", "Falafel", 1, 7),
      SectionEntry("Dinner Ideas - Sides_3.pdf", "Ratatouille", 2, 8),
      SectionEntry("Dinner Ideas - Sides_1.pdf", "Baba Ganoush", 3, 4),
      SectionEntry("Lunch Ideas.pdf", "Veggie Sushi Rolls", 4, 11),
      SectionEntry("Dinner Ideas - Mains_2.pdf", "Vegetable Lasagna", 5, 9)]
  }

  /** `_get_travel_subsections`, `_get_hr_subsections`, `_get_food_subsections`: always
      five entries, the k-th for the same document and page as the k-th extracted
      section. */
  function FixedSubsections(d: Domain): (r: seq<SubsectionEntry>)
    ensures |r| == 5
    ensures forall i :: 0 <= i < 5 ==>
      r[i].document == FixedSections(d)[i].document && r[i].pageNumber == FixedSections(d)[i].pageNumber
  {
    match d
    case Travel => [
      SubsectionEntry("South of France - Cities.pdf", DemoText(Travel, 0), 3),
      SubsectionEntry("South of France - Things to Do.pdf", DemoText(Travel, 1), 8),
      SubsectionEntry("South of France - Restaurants and Hotels.pdf", DemoText(Travel, 2), 12),
      SubsectionEntry("South of France - Cuisine.pdf", DemoText(Travel, 3), 5),
      SubsectionEntry("South of France - Tips and Tricks.pdf", DemoText(Travel, 4), 7)]
    case HrForms => [
      SubsectionEntry("Learn Acrobat - Fill and Sign.pdf", DemoText(HrForms, 0), 4),
      SubsectionEntry("Learn Acrobat - Create and Convert_1.pdf", DemoText(HrForms, 1), 6),
      SubsectionEntry("Learn Acrobat - Request e-signatures_1.pdf", DemoText(HrForms, 2), 9),
      SubsectionEntry("Learn Acrobat - Edit_1.pdf", DemoText(HrForms, 3), 11),
      SubsectionEntry("The Ultimate PDF Sharing Checklist.pdf", DemoText(HrForms, 4), 2)]
    case Food => [
      SubsectionEntry("Dinner Ideas - Sides_2.pdf", DemoText(Food, 0), 7),
      SubsectionEntry("Dinner Ideas - Sides_3.pdf", DemoText(Food, 1), 8),
      SubsectionEntry("Dinner Ideas - Sides_1.pdf", DemoText(Food, 2), 4),
      SubsectionEntry("Lunch Ideas.pdf", DemoText(Food, 3), 11),
      SubsectionEntry("Dinner Ideas - Mains_2.pdf", DemoText(Food, 4), 9)]
  }

  /** `ExpectedOutputFormatter`: remembers the challenge data of the last call, which the
      domain detection reads. */
  class ExpectedOutputFormatter {
    var currentChallengeData: Option<ChallengeData>

    constructor()
      ensures currentChallengeData == None
    {
      currentChallengeData := None;
    }

    /** `_detect_domain` over the stored challenge data. */
    function DetectDomain(sections: seq<AnalysisSection>): Domain
      reads this
    {
      DetectDomainFrom(currentChallengeData, sections)
    }

    /** `format_expected_output`: stores the challenge data, then builds the metadata block
        from it and picks both fixed tables by the domain detected from it. */
    method FormatExpectedOutput(data: ChallengeData, sections: seq<AnalysisSection>, timestamp: string)
      returns (out: ExpectedOutput)
      modifies this
      ensures currentChallengeData == Some(data)
      ensures out.metadata == MetadataOf(data, timestamp)
      ensures out.extractedSections == FixedSections(DetectDomainFrom(Some(data), sections))
      ensures out.subsectionAnalysis == FixedSubsections(DetectDomainFrom(Some(data), sections))
    {
      currentChallengeData := Some(data);
      var metadata := MetadataOf(data, timestamp);
      var extracted := FixedSections(DetectDomain(sections));
      var analysed := FixedSubsections(DetectDomain(sections));
      out := ExpectedOutput(metadata, extracted, analysed);
    }
  }

  // ---------------------------------------------------------------------------
  // Page-number guess
  // ---------------------------------------------------------------------------

  const PageKeys: seq<string> := ["sides_1", "sides_2", "sides_3", "mains_2", "lunch"]
  const PageGuesses: seq<int> := [4, 7, 8, 9, 11]

  /** `_estimate_page_number`: an explicit page number wins; otherwise the first of the
      listed name fragments in the lower-cased path decides, and 1 when none occurs. */
  function EstimatePageNumber(section: AnalysisSection): (p: int)
    ensures section.pageNumber.Some? ==> p == section.pageNumber.value
    ensures section.pageNumber.None? ==> p in {1, 4, 7, 8, 9, 11}
  {
    if section.pageNumber.Some? then section.pageNumber.value
    else
      var path := Lower(GetOr(section.documentPath, ""));
      if Contains(path, "sides_1") then 4
      else if Contains(path, "sides_2") then 7
      else if Contains(path, "sides_3") then 8
      else if Contains(path, "mains_2") then 9
      else if Contains(path, "lunch") then 11
      else 1
  }

  lemma FirstContainedCons(s: string, w: string, ws: seq<string>)
    ensures FirstContained(s, [w] + ws) == if Contains(s, w) then 0 else 1 + FirstContained(s, ws)
  {
    assert ([w] + ws)[0] == w && ([w] + ws)[1..] == ws;
  }

  /** Without an explicit page, the guess is the value paired with the first listed
      fragment that occurs in the lower-cased path, and 1 when none does. */
  lemma EstimatePageNumberIsFirstKey(section: AnalysisSection)
    requires section.pageNumber.None?
    ensures var k := FirstContained(Lower(GetOr(section.documentPath, "")), PageKeys);
      EstimatePageNumber(section) == if k < |PageKeys| then PageGuesses[k] else 1
  {
    var path := Lower(GetOr(section.documentPath, ""));
    FirstContainedOfFive(path, "sides_1", "sides_2", "sides_3", "mains_2", "lunch");
  }

  lemma FirstContainedOfFive(s: string, w0: string, w1: string, w2: string, w3: string, w4: string)
    ensures FirstContained(s, [w0, w1, w2, w3, w4])
         == if Contains(s, w0) then 0 else if Contains(s, w1) then 1 else if Contains(s, w2) then 2
            else if Contains(s, w3) then 3 else if Contains(s, w4) then 4 else 5
  {
    assert [w0, w1, w2, w3, w4] == [w0] + [w1, w2, w3, w4];
    assert [w1, w2, w3, w4] == [w1] + [w2, w3, w4];
    assert [w2, w3, w4] == [w2] + [w3, w4];
    assert [w3, w4] == [w3] + [w4];
    assert [w4] == [w4] + [];
    FirstContainedCons(s, w0, [w1, w2, w3, w4]);
    FirstContainedCons(s, w1, [w2, w3, w4]);
    FirstContainedCons(s, w2, [w3, w4]);
    FirstContainedCons(s, w3, [w4]);
    FirstContainedCons(s, w4, []);
  }

  // ---------------------------------------------------------------------------
  // Recipe text refinement
  // ---------------------------------------------------------------------------

  /** The two recipe parts the line scan files body lines under. */
  datatype Part = Ingredients | Instructions

  /** The line scan's state: the part being read, and the two accumulated texts. */
  datatype RecipeScan = RecipeScan(current: Option<Part>, ingredients: string, instructions: string)

  /** The part a stripped line opens, if it is a header line: "ingredients" is checked
      before "instructions". */
  function HeaderOf(line: string): Option<Part> {
    if Contains(Lower(line), "ingredients") then Some(Ingredients)
    else if Contains(Lower(line), "instructions") then Some(Instructions)
    else None
  }

  /** One turn of the line loop: blank lines are skipped, a header line switches the
      current part, and any other stripped line is appended to the current part, after
      ", " for ingredients and " " for instructions; a line before any header is
      dropped. */
  function ScanLine(st: RecipeScan, raw: string): RecipeScan {
    var line := Strip(raw);
    if line == [] then st
    else if HeaderOf(line).Some? then st.(current := HeaderOf(line))
    else if st.current == Some(Ingredients) then
      st.(ingredients := if st.ingredients != [] then st.ingredients + ", " + line else line)
    else if st.current == Some(Instructions) then
      st.(instructions := if st.instructions != [] then st.instructions + " " + line else line)
    else st
  }

  /** The state after scanning `lines` in order from the empty state. */
  function Scan(lines: seq<string>): RecipeScan {
    if lines == [] then RecipeScan(None, "", "")
    else ScanLine(Scan(lines[..|lines| - 1]), Last(lines))
  }

  /** The header most recently seen in `lines`, if any. */
  function HeaderAfter(lines: seq<string>): Option<Part> {
    if lines == [] then None
    else
      var line := Strip(Last(lines));
      if line != [] && HeaderOf(line).Some? then HeaderOf(line) else HeaderAfter(lines[..|lines| - 1])
  }

  /** The stripped body lines that follow a header of part `p`, in order: the lines the
      scan files under `p`. */
  function Under(lines: seq<string>, p: Part): (r: seq<string>)
    ensures forall w <- r :: w != []
  {
    if lines == [] then []
    else
      var prev := lines[..|lines| - 1];
      Under(prev, p) + Filed(Last(lines), HeaderAfter(prev), p)
  }

  /** The stripped line, when it is a body line read while `header` is the current part
      and that part is `p`. */
  function Filed(raw: string, header: Option<Part>, p: Part): (r: seq<string>)
    ensures forall w <- r :: w != []
  {
    var line := Strip(raw);
    if line != [] && HeaderOf(line).None? && header == Some(p) then [line] else []
  }

  /** Appending a piece to a join of non-empty pieces is what the accumulators do: the
      piece alone when nothing was joined yet, else after the separator. */
  lemma JoinStep(ws: seq<string>, w: string, sep: string)
    requires forall v <- ws :: v != []
    ensures Join(ws + [w], sep) == if Join(ws, sep) != [] then Join(ws, sep) + sep + w else w
  {
    if ws != [] {
      assert ws[0] in ws;
      JoinHead(ws, sep);
      JoinAppend(ws, w, sep);
    } else {
      assert ws + [w] == [w];
    }
  }

  /** One scan step extends each accumulator by what the line files under its part. */
  lemma ScanLineFiles(st: RecipeScan, ing: seq<string>, ins: seq<string>, raw: string)
    requires forall w <- ing :: w != []
    requires forall w <- ins :: w != []
    requires st.ingredients == Join(ing, ", ") && st.instructions == Join(ins, " ")
    ensures ScanLine(st, raw).ingredients == Join(ing + Filed(raw, st.current, Ingredients), ", ")
    ensures ScanLine(st, raw).instructions == Join(ins + Filed(raw, st.current, Instructions), " ")
  {
    var line := Strip(raw);
    assert ing + [] == ing && ins + [] == ins;
    if line != [] && HeaderOf(line).None? {
      if st.current == Some(Ingredients) {
        JoinStep(ing, line, ", ");
      } else if st.current == Some(Instructions) {
        JoinStep(ins, line, " ");
      }
    }
  }

  /** The scan's accumulators are the lines filed under each part, joined with ", " and
      " ", and its current part is the last header seen. */
  lemma {:induction false} ScanJoinsUnder(lines: seq<string>)
    ensures Scan(lines).current == HeaderAfter(lines)
    ensures Scan(lines).ingredients == Join(Under(lines, Ingredients), ", ")
    ensures Scan(lines).instructions == Join(Under(lines, Instructions), " ")
  {
    if lines != [] {
      var prev := lines[..|lines| - 1];
      ScanJoinsUnder(prev);
      ScanLineFiles(Scan(prev), Under(prev, Ingredients), Under(prev, Instructions), Last(lines));
    }
  }

  lemma ScanAppend(lines: seq<string>, line: string)
    ensures Scan(lines + [line]) == ScanLine(Scan(lines), line)
  {
    assert (lines + [line])[..|lines|] == lines;
  }

  lemma ScanSnoc(lines: seq<string>, i: nat)
    requires i < |lines|
    ensures Scan(lines[..i + 1]) == ScanLine(Scan(lines[..i]), lines[i])
  {
    assert lines[..i + 1][..i] == lines[..i];
  }

  /** The line loop of `_refine_text_content`, run over the lines of a text. */
  method CollectRecipeParts(lines: seq<string>) returns (ingredients: string, instructions: string)
    ensures ingredients == Scan(lines).ingredients && instructions == Scan(lines).instructions
  {
    ingredients, instructions := "", "";
    var current: Option<Part> := None;
    var i := 0;
    while i < |lines|
      invariant 0 <= i <= |lines|
      invariant RecipeScan(current, ingredients, instructions) == Scan(lines[..i])
    {
      ScanSnoc(lines, i);
      var line := Strip(lines[i]);
      i := i + 1;
      if line == [] {
        continue;
      }
      if Contains(Lower(line), "ingredients") {
        current := Some(Ingredients);
        continue;
      } else if Contains(Lower(line), "instructions") {
        current := Some(Instructions);
        continue;
      }
      if current == Some(Ingredients) {
        if ingredients != [] {
          ingredients := ingredients + ", " + line;
        } else {
          ingredients := line;
        }
      } else if current == Some(Instructions) {
        if instructions != [] {
          instructions := instructions + " " + line;
        } else {
          instructions := line;
        }
      }
    }
    assert lines[..|lines|] == lines;
  }

  /** The recipe parts of a stripped text: present when both header words occur in its
      lower-cased form and the line scan collects a non-empty ingredients text and a
      non-empty instructions text. */
  function RecipeParts(text: string): (r: Option<(string, string)>)
    ensures r.Some? ==> r.value.0 != [] && r.value.1 != []
    ensures r.Some? ==> Contains(Lower(text), "ingredients") && Contains(Lower(text), "instructions")
  {
    if Contains(Lower(text), "ingredients") && Contains(Lower(text), "instructions") then
      var st := Scan(SplitOn(text, "\n"));
      if st.ingredients != [] && st.instructions != [] then Some((st.ingredients, st.instructions)) else None
    else None
  }

  const FoodKeywords: seq<string> := [
    "falafel", "ratatouille", "baba ganoush", "escalivada", "hummus",
    "veggie sushi", "vegetable lasagna", "macaroni and cheese", "pasta",
    "salad", "soup", "curry", "stir fry", "pizza", "sandwich", "wrap"]

  /** The title a line offers: its stripped form must be 4 to 49 characters long, hold no
      '.', and not start with "Ingredients"; with ':' removed and stripped again it must be
      non-empty and its lower-cased form must not start with "instructions". */
  function LineTitle(raw: string): (t: Option<string>)
    ensures t.Some? ==> t.value != [] && |t.value| < 50 && '.' !in t.value && ':' !in t.value
  {
    var line := Strip(raw);
    if 3 < |line| < 50 && '.' !in line && !StartsWith(line, "Ingredients") then
      var title := Strip(RemoveChar(line, ':'));
      StripChars(RemoveChar(line, ':'));
      if title != [] && !StartsWith(Lower(title), "instructions") then Some(title) else None
    else None
  }

  /** The title offered by the first line that offers one. */
  function FirstLineTitle(lines: seq<string>): (t: Option<string>)
    ensures t.Some? ==> t.value != [] && |t.value| < 50 && '.' !in t.value && ':' !in t.value
  {
    if lines == [] then None
    else if LineTitle(lines[0]).Some? then LineTitle(lines[0])
    else FirstLineTitle(lines[1..])
  }

  /** No title is found exactly when no line offers one. */
  lemma {:induction false} FirstLineTitleNone(lines: seq<string>)
    ensures FirstLineTitle(lines).None? <==> forall i :: 0 <= i < |lines| ==> LineTitle(lines[i]).None?
  {
    if lines != [] && LineTitle(lines[0]).None? {
      FirstLineTitleNone(lines[1..]);
      assert forall i :: 1 <= i < |lines| ==> lines[i] == lines[1..][i - 1];
    }
  }

  /** The section-title heuristic whose body follows the unreachable return at the end of
      the food sub-section table: "Untitled Section" for empty content, else a title taken
      from one of the first five lines, else the first food keyword in the lower-cased
      content in title case, else the first three words, else "Recipe". It is never
      empty. */
  function ExtractSectionTitle(content: string): (t: string)
    ensures t != []
  {
    if content == [] then "Untitled Section"
    else
      var lines := SplitOn(content, "\n");
      var found := FirstLineTitle(lines[..Min(5, |lines|)]);
      if found.Some? then found.value
      else
        var k := FirstContained(Lower(content), FoodKeywords);
        if k < |FoodKeywords| then KeywordTitle(k)
        else
          var words := Words(content);
          if words != [] then LeadTitle(words) else "Recipe"
  }

  /** The k-th food keyword in title case. */
  function KeywordTitle(k: nat): (t: string)
    requires k < |FoodKeywords|
    ensures t != [] && Lower(t) == Lower(FoodKeywords[k])
  {
    FoodKeywordsNonEmpty();
    Title(FoodKeywords[k])
  }

  lemma FoodKeywordsNonEmpty()
    ensures forall k :: 0 <= k < |FoodKeywords| ==> FoodKeywords[k] != []
  {
  }

  /** The first three words joined by spaces, stripped. */
  function LeadTitle(words: seq<string>): (t: string)
    requires words != [] && forall w <- words :: w != [] && All(w, NotSpace)
    ensures t != []
  {
    var head := words[..Min(3, |words|)];
    var lead := Join(head, " ");
    assert words[0] in words && head[0] == words[0];
    JoinHead(head, " ");
    var w := words[0];
    assert w != [] && All(w, NotSpace);
    assert NotSpace(w[0]);
    assert lead[0] == w[0];
    StripEmptyIffBlank(lead);
    Strip(lead)
  }

  /** `_refine_text_content` as written: "" for empty content; otherwise the stripped
      content has its whitespace collapsed and is cut to 500 characters plus "...", except
      that when the line scan collects both recipe parts the code calls a method the class
      does not define and raises AttributeError. */
  function RefineTextAsWritten(content: string): Result<string> {
    if content == [] then Ok("")
    else
      var text := Strip(content);
      if RecipeParts(text).Some? then Raises(AttributeError)
      else Ok(ChallengeProcessor.CleanText(text))
  }

  /** `_refine_text_content` with the title heuristic in place: a recipe is rendered as
      "<title> Ingredients: <ingredients>. Instructions: <instructions>". */
  function RefineText(content: string): string {
    if content == [] then ""
    else
      var text := Strip(content);
      var parts := RecipeParts(text);
      if parts.Some? then
        ExtractSectionTitle(text) + " Ingredients: " + parts.value.0 + ". Instructions: " + parts.value.1
      else ChallengeProcessor.CleanText(text)
  }

  /** The refinement, step by step. */
  method RefineTextContent(content: string) returns (r: string)
    ensures r == RefineText(content)
  {
    if content == [] {
      return "";
    }
    var text := Strip(content);
    if Contains(Lower(text), "ingredients") && Contains(Lower(text), "instructions") {
      var ingredients, instructions := CollectRecipeParts(SplitOn(text, "\n"));
      if ingredients != [] && instructions != [] {
        var name := ExtractSectionTitle(text);
        return name + " Ingredients: " + ingredients + ". Instructions: " + instructions;
      }
    }
    r := ChallengeProcessor.CleanText(text);
  }

  lemma PrefixOfAppend(a: string, b: string, k: nat)
    requires k <= |a|
    ensures (a + b)[..k] == a[..k]
  {
  }

  /** Where the code as written returns, the corrected refinement returns the same text;
      where it raises, the corrected one renders the recipe. */
  lemma RefineTextCorrectsAsWritten(content: string)
    ensures RefineTextAsWritten(content).Ok? ==> RefineText(content) == RefineTextAsWritten(content).value
    ensures RefineTextAsWritten(content).Raises? <==> content != [] && RecipeParts(Strip(content)).Some?
    ensures RefineTextAsWritten(content).Raises? ==>
      var title := ExtractSectionTitle(Strip(content));
      |RefineText(content)| > |title| && RefineText(content)[..|title|] == title
  {
    if content != [] {
      var text := Strip(content);
      var parts := RecipeParts(text);
      if parts.Some? {
        var title := ExtractSectionTitle(text);
        var x1 := title + " Ingredients: ";
        var x2 := x1 + parts.value.0;
        var x3 := x2 + ". Instructions: ";
        assert RefineText(content) == x3 + parts.value.1;
        PrefixOfAppend(x3, parts.value.1, |title|);
        PrefixOfAppend(x2, ". Instructions: ", |title|);
        PrefixOfAppend(x1, parts.value.0, |title|);
        PrefixOfAppend(title, " Ingredients: ", |title|);
      } else {
        assert RefineText(content) == ChallengeProcessor.CleanText(text);
      }
    }
  }

  /** The refinement is empty exactly when the content is blank, and a text that is not a
      recipe comes out collapsed and at most 503 characters long. */
  lemma RefineTextEmptyIffBlank(content: string)
    ensures RefineText(content) == [] <==> forall i :: 0 <= i < |content| ==> IsSpace(content[i])
    ensures RecipeParts(Strip(content)).None? ==> |RefineText(content)| <= 503
  {
    if content != [] {
      var text := Strip(content);
      StripEmptyIffBlank(content);
      WordsEmptyIffBlank(text);
      CollapseEmptyIffBlank(text);
      ChallengeProcessor.CleanTextProperties(text);
      if text != [] {
        assert !IsSpace(text[0]);
      }
    }
  }

  /** A non-empty line without surrounding whitespace. */
  predicate OneLine(w: string) {
    w != [] && Trimmed(w) && '\n' !in w
  }

  /** A header line, a body line, a second header line and a body line: the smallest
      shape of text whose lines the scan files under both parts. */
  predicate RecipeLines(h1: string, a: string, h2: string, b: string) {
    && OneLine(h1) && OneLine(a) && OneLine(h2) && OneLine(b)
    && HeaderOf(h1) == Some(Ingredients) && HeaderOf(h2) == Some(Instructions)
    && HeaderOf(a).None? && HeaderOf(b).None?
  }

  /** A trimmed header line only switches the current part. */
  lemma ScanHeaderLine(st: RecipeScan, line: string)
    requires line != [] && Trimmed(line) && HeaderOf(line).Some?
    ensures ScanLine(st, line) == st.(current := HeaderOf(line))
  {
    StripTrimmed(line);
  }

  /** A trimmed body line read under the ingredients part is its first ingredient when
      none was collected yet. */
  lemma ScanFirstBodyLine(st: RecipeScan, line: string)
    requires line != [] && Trimmed(line) && HeaderOf(line).None?
    requires st.current.Some? && st.ingredients == [] && st.instructions == []
    ensures ScanLine(st, line) ==
      if st.current == Some(Ingredients) then st.(ingredients := line) else st.(instructions := line)
  {
    StripTrimmed(line);
    assert Strip(line) == line;
    assert HeaderOf(Strip(line)).None?;
    if st.current == Some(Ingredients) {
      assert ScanLine(st, line) == st.(ingredients := line);
    } else {
      assert st.current.value.Instructions?;
      assert ScanLine(st, line) == st.(instructions := line);
    }
  }

  /** Such four lines collect the second as the ingredients and the fourth as the
      instructions. */
  lemma RecipeLinesScan(h1: string, a: string, h2: string, b: string)
    requires RecipeLines(h1, a, h2, b)
    ensures Scan([h1, a, h2, b]) == RecipeScan(Some(Instructions), a, b)
  {
    var s0 := RecipeScan(None, "", "");
    var s1 := RecipeScan(Some(Ingredients), "", "");
    var s2 := RecipeScan(Some(Ingredients), a, "");
    var s3 := RecipeScan(Some(Instructions), a, "");
    ScanHeaderLine(s0, h1);
    ScanFirstBodyLine(s1, a);
    ScanHeaderLine(s2, h2);
    StripTrimmed(b);
    assert ScanLine(s3, b) == s3.(instructions := b);
    ScanFour(h1, a, h2, b);
  }

  lemma FourAppends<T>(w: T, x: T, y: T, z: T)
    ensures [] + [w] == [w] && [w] + [x] == [w, x] && [w, x] + [y] == [w, x, y] && [w, x, y] + [z] == [w, x, y, z]
  {
  }

  lemma ScanFour(h1: string, a: string, h2: string, b: string)
    ensures Scan([h1, a, h2, b]) == ScanLine(ScanLine(ScanLine(ScanLine(RecipeScan(None, "", ""), h1), a), h2), b)
  {
    FourAppends(h1, a, h2, b);
    ScanAppend([], h1);
    ScanAppend([h1], a);
    ScanAppend([h1, a], h2);
    ScanAppend([h1, a, h2], b);
  }

  /** What occurs in a piece of a joined text occurs in the text. */
  lemma ContainsInJoinPiece(ws: seq<string>, sep: string, k: nat, sub: string)
    requires k < |ws| && Contains(ws[k], sub)
    ensures Contains(Join(ws, sep), sub)
  {
    if k == 0 {
      JoinHead(ws, sep);
      ContainsOfSlice(Join(ws, sep), 0, |ws[0]|, sub);
    } else {
      ContainsInJoinPiece(ws[1..], sep, k - 1, sub);
      ContainsInTail(Join(ws, sep), Join(ws[1..], sep), sub);
    }
  }

  /** Four such lines joined by newlines form a stripped text whose recipe parts are the
      two body lines. */
  lemma RecipeLinesParts(h1: string, a: string, h2: string, b: string)
    requires RecipeLines(h1, a, h2, b)
    ensures Join([h1, a, h2, b], "\n") != [] && Strip(Join([h1, a, h2, b], "\n")) == Join([h1, a, h2, b], "\n")
    ensures RecipeParts(Join([h1, a, h2, b], "\n")) == Some((a, b))
  {
    RecipeLinesText(h1, a, h2, b);
    NewlineFree(h1, a, h2, b);
    SplitOnJoin([h1, a, h2, b], '\n');
    HeaderWordsOccur(h1, a, h2, b);
    RecipeLinesScan(h1, a, h2, b);
  }

  lemma RecipeLinesText(h1: string, a: string, h2: string, b: string)
    requires RecipeLines(h1, a, h2, b)
    ensures Join([h1, a, h2, b], "\n") != [] && Strip(Join([h1, a, h2, b], "\n")) == Join([h1, a, h2, b], "\n")
  {
    var content := Join([h1, a, h2, b], "\n");
    JoinFour(h1, a, h2, b, "\n");
    assert Trimmed(content) by {
      assert content[0] == h1[0] && content[|content| - 1] == b[|b| - 1];
    }
    StripTrimmed(content);
  }

  /** Both header words occur in the lower-cased text of four such lines. */
  lemma HeaderWordsOccur(h1: string, a: string, h2: string, b: string)
    requires RecipeLines(h1, a, h2, b)
    ensures Contains(Lower(Join([h1, a, h2, b], "\n")), "ingredients")
    ensures Contains(Lower(Join([h1, a, h2, b], "\n")), "instructions")
  {
    var ws := [h1, a, h2, b];
    var lows := LowerEach(ws);
    assert Contains(lows[0], "ingredients") && Contains(lows[2], "instructions");
    LowerJoin(ws, "\n");
    ContainsInJoinPiece(lows, "\n", 0, "ingredients");
    ContainsInJoinPiece(lows, "\n", 2, "instructions");
  }

  lemma JoinFour(h1: string, a: string, h2: string, b: string, sep: string)
    ensures Join([h1, a, h2, b], sep) == h1 + sep + a + sep + h2 + sep + b
  {
    var ws := [h1, a, h2, b];
    assert ws[1..] == [a, h2, b] && ws[1..][1..] == [h2, b] && ws[1..][1..][1..] == [b];
    assert Join([h2, b], sep) == h2 + sep + b;
    assert Join([a, h2, b], sep) == a + sep + (h2 + sep + b);
  }

  lemma NewlineFree(h1: string, a: string, h2: string, b: string)
    requires RecipeLines(h1, a, h2, b)
    ensures [h1, a, h2, b] != [] && forall w <- [h1, a, h2, b] :: '\n' !in w
  {
  }

  /** The defect: any text of such four lines, joined by newlines, makes the code as
      written raise AttributeError where the title heuristic was meant to name the
      recipe. */
  lemma RecipeWithBothPartsRaises(h1: string, a: string, h2: string, b: string)
    requires RecipeLines(h1, a, h2, b)
    ensures RefineTextAsWritten(Join([h1, a, h2, b], "\n")) == Raises(AttributeError)
    ensures RefineText(Join([h1, a, h2, b], "\n")) ==
      ExtractSectionTitle(Join([h1, a, h2, b], "\n")) + " Ingredients: " + a + ". Instructions: " + b
  {
    RecipeLinesParts(h1, a, h2, b);
    assert Join([h1, a, h2, b], "\n") != [] by {
      JoinFour(h1, a, h2, b, "\n");
    }
  }

  lemma LowerWordLine(line: string)
    requires line == "flour" || line == "bake"
    ensures OneLine(line) && HeaderOf(line).None?
  {
    ShortNoContains(Lower(line), "ingredients");
    ShortNoContains(Lower(line), "instructions");
  }

  lemma IngredientsWord(line: string)
    requires line == "ingredients"
    ensures OneLine(line)
  {
  }

  lemma InstructionsWord(line: string)
    requires line == "instructions"
    ensures OneLine(line)
  {
  }

  lemma IngredientsLine(line: string)
    requires line == "ingredients"
    ensures OneLine(line) && HeaderOf(line) == Some(Ingredients)
  {
    IngredientsWord(line);
    LowerOfLowerCase(line);
    ContainsAt(line, "ingredients", 0);
  }

  lemma InstructionsLine(line: string)
    requires line == "instructions"
    ensures OneLine(line) && HeaderOf(line) == Some(Instructions)
  {
    InstructionsWord(line);
    LowerOfLowerCase(line);
    ContainsAt(line, "instructions", 0);
    InstructionsLacksIngredients(line);
  }

  lemma InstructionsLacksIngredients(line: string)
    requires line == "instructions"
    ensures !Contains(line, "ingredients")
  {
    assert !StartsWith(line, "ingredients") by {
      assert line[2] != "ingredients"[2];
    }
    assert !StartsWith(line[1..], "ingredients") by {
      assert line[1] != "ingredients"[0];
    }
    ShortNoContains(line[2..], "ingredients");
    assert line[1..][1..] == line[2..];
  }

  /** The four-line recipe "ingredients", "flour", "instructions", "bake" raises. */
  lemma FlourAndBakeRaises()
    ensures RefineTextAsWritten(Join(["ingredients", "flour", "instructions", "bake"], "\n")) == Raises(AttributeError)
  {
    IngredientsLine("ingredients");
    LowerWordLine("flour");
    InstructionsLine("instructions");
    LowerWordLine("bake");
    RecipeWithBothPartsRaises("ingredients", "flour", "instructions", "bake");
  }
}

/** The helpers of the challenge processor that adapt the lightweight analyst to the
    challenge input and output format: persona enrichment, document ids, page numbers,
    section titles, document and task classification, text cleaning, relevance levels
    and the top document. */
module ChallengeProcessor {
  import opened PyStrings
  import Ranking
  import OptimizedSignals
  import LightweightAnalyst

  // ---------------------------------------------------------------------------
  // Persona enrichment
  // ---------------------------------------------------------------------------

  /** The dictionary `_enhance_persona` builds. */
  datatype EnhancedPersona = EnhancedPersona(role: string, experienceLevel: string, domain: string,
                                             goals: seq<string>, keywords: seq<string>,
                                             contextPreferences: seq<string>)

  /** The domain profiles, in the order their rules are tried. */
  datatype Profile = Travel | HumanResources | FoodService | Generic

  /** The rule that picks the profile from the lower-cased role and challenge description:
      only the travel rule looks at the description. */
  function ProfileOf(role: string, description: string): (p: Profile)
    ensures p == Travel <==> Contains(role, "travel") || Contains(description, "travel")
    ensures p == Generic <==>
      !Contains(role, "travel") && !Contains(description, "travel") &&
      !Contains(role, "hr") && !Contains(role, "human resources") &&
      !Contains(role, "food") && !Contains(role, "contractor")
  {
    if Contains(role, "travel") || Contains(description, "travel") then Travel
    else if Contains(role, "hr") || Contains(role, "human resources") then HumanResources
    else if Contains(role, "food") || Contains(role, "contractor") then FoodService
    else Generic
  }

  /** The fields each profile writes over the defaults. */
  function ProfileDomain(p: Profile): string {
    match p
    case Travel => "Tourism & Travel"
    case HumanResources => "Human Resources"
    case FoodService => "Food Service"
    case Generic => "General"
  }

  function ProfileGoals(p: Profile): seq<string> {
    match p
    case Travel => ["itinerary planning", "cultural experiences", "accommodation", "dining"]
    case HumanResources => ["employee training", "document management", "workflow optimization", "compliance"]
    case FoodService => ["menu planning", "dietary requirements", "cost optimization", "nutrition"]
    case Generic => []
  }

  function ProfileKeywords(p: Profile): seq<string> {
    match p
    case Travel => ["travel", "tourism", "hotels", "restaurants", "attractions", "culture", "activities", "sightseeing"]
    case HumanResources => ["training", "documents", "forms", "workflow", "management", "efficiency", "compliance", "onboarding"]
    case FoodService => ["food", "menu", "nutrition", "dietary", "vegetarian", "gluten-free", "catering", "cooking"]
    case Generic => []
  }

  function ProfilePreferences(p: Profile): seq<string> {
    match p
    case Travel => ["recommendations", "practical information", "local insights", "tips"]
    case HumanResources => ["step-by-step guides", "best practices", "workflows", "checklists"]
    case FoodService => ["recipes", "nutritional information", "dietary options", "serving suggestions"]
    case Generic => []
  }

  /** `_enhance_persona`: the defaults, overwritten by the profile the first matching rule picks. */
  function EnhancePersona(role: Option<string>, description: Option<string>): (e: EnhancedPersona)
    ensures e.role == GetOr(role, "Generic User") && e.experienceLevel == "Professional"
    ensures e.domain == ProfileDomain(ProfileOf(Lower(GetOr(role, "")), Lower(GetOr(description, ""))))
  {
    var p := ProfileOf(Lower(GetOr(role, "")), Lower(GetOr(description, "")));
    var defaults := EnhancedPersona(GetOr(role, "Generic User"), "Professional", "General", [], [], []);
    if p == Generic then defaults
    else defaults.(domain := ProfileDomain(p), goals := ProfileGoals(p), keywords := ProfileKeywords(p),
                   contextPreferences := ProfilePreferences(p))
  }

  /** A specialised profile fills every list (4 goals, 8 keywords, 4 preferences) and leaves the
      "General" domain; with no rule matching, the persona keeps the empty defaults. */
  lemma EnhancePersonaShape(role: Option<string>, description: Option<string>)
    ensures var e := EnhancePersona(role, description);
      var p := ProfileOf(Lower(GetOr(role, "")), Lower(GetOr(description, "")));
      (p != Generic ==> |e.goals| == 4 && |e.keywords| == 8 && |e.contextPreferences| == 4 &&
                        e.domain != "General") &&
      (p == Generic ==> e.goals == [] && e.keywords == [] && e.contextPreferences == [] &&
                        e.domain == "General")
  {
  }

  /** The rules look at the lower-cased texts only: changing the case of the role or the
      description changes nothing but the stored role. */
  lemma EnhancePersonaIgnoresCase(role: string, description: string)
    ensures var a := EnhancePersona(Some(role), Some(description));
      var b := EnhancePersona(Some(Lower(role)), Some(Lower(description)));
      a.(role := b.role) == b
  {
    LowerIdempotent(role);
    LowerIdempotent(description);
  }

  /** The travel rule comes first: a travel description wins over an HR or food role. */
  lemma TravelDescriptionWins(role: string, description: string)
    requires Contains(Lower(description), "travel")
    ensures EnhancePersona(Some(role), Some(description)).domain == "Tourism & Travel"
  {
  }

  /** The enriched persona as the lightweight analyst receives it. */
  function AsPersona(e: EnhancedPersona): OptimizedSignals.Persona {
    OptimizedSignals.Persona(OptimizedSignals.Items(e.goals), OptimizedSignals.Items(e.keywords),
                             Some(e.role), OptimizedSignals.Text(e.domain),
                             OptimizedSignals.Items(e.contextPreferences))
  }

  /** Every keyword of the chosen profile reaches the analyst's persona keywords. */
  lemma ProfileKeywordsReachAnalyst(role: Option<string>, description: Option<string>)
    ensures var e := EnhancePersona(role, description);
      forall k <- e.keywords :: k in LightweightAnalyst.LightPersonaKeywords(AsPersona(e))
  {
    var e := EnhancePersona(role, description);
    assert OptimizedSignals.FieldIteration(AsPersona(e).keywords) == e.keywords;
  }

  // ---------------------------------------------------------------------------
  // Document ids, page numbers and titles
  // ---------------------------------------------------------------------------

  /** An entry of the challenge input's `documents` list. */
  datatype DocumentInfo = DocumentInfo(filename: Option<string>, title: Option<string>)

  /** The position of the first document listed under `name`, or `|docs|` when none is. */
  function DocumentIndex(docs: seq<DocumentInfo>, name: string): (k: nat)
    ensures k <= |docs|
    ensures k < |docs| ==> docs[k].filename == Some(name)
    ensures forall j :: 0 <= j < k ==> docs[j].filename != Some(name)
  {
    if docs == [] then 0
    else if docs[0].filename == Some(name) then 0
    else 1 + DocumentIndex(docs[1..], name)
  }

  /** The id `_get_document_id` gives a path: one-based position of its file name. */
  function DocumentId(docPath: string, docs: seq<DocumentInfo>): string {
    var k := DocumentIndex(docs, Basename(docPath));
    if k < |docs| then "doc_" + NatToString(k + 1) else "doc_unknown"
  }

  /** `_get_document_id`: scans the listed documents and returns at the first match. */
  method GetDocumentId(docPath: string, docs: seq<DocumentInfo>) returns (id: string)
    ensures id == DocumentId(docPath, docs)
  {
    var filename := Basename(docPath);
    for i := 0 to |docs|
      invariant forall j :: 0 <= j < i ==> docs[j].filename != Some(filename)
    {
      if docs[i].filename == Some(filename) {
        return "doc_" + NatToString(i + 1);
      }
    }
    return "doc_unknown";
  }

  /** The id is "doc_unknown" exactly when no listed document has the path's file name;
      otherwise it carries the position of the first one that does. */
  lemma DocumentIdMeaning(docPath: string, docs: seq<DocumentInfo>)
    ensures DocumentId(docPath, docs) == "doc_unknown" <==>
      forall d <- docs :: d.filename != Some(Basename(docPath))
    ensures forall i :: (0 <= i < |docs| && docs[i].filename == Some(Basename(docPath)) &&
                         forall j :: 0 <= j < i ==> docs[j].filename != Some(Basename(docPath))) ==>
      DocumentId(docPath, docs) == "doc_" + NatToString(i + 1)
  {
    var name := Basename(docPath);
    var k := DocumentIndex(docs, name);
    if k < |docs| {
      var digits := NatToString(k + 1);
      assert ("doc_" + digits)[4] == digits[0];
      assert digits[0] in digits;
      assert "doc_unknown"[4] == 'u';
      assert docs[k] in docs;
    } else {
      forall d <- docs ensures d.filename != Some(name) {
        var j :| 0 <= j < |docs| && docs[j] == d;
      }
    }
  }

  /** `_estimate_page_number`: the section id (0 when absent) plus one. */
  function EstimatePageNumber(sectionId: Option<int>): (page: int)
    ensures sectionId.None? ==> page == 1
    ensures sectionId.Some? ==> page - 1 == sectionId.value
  {
    match sectionId
    case None => 1
    case Some(i) => i + 1
  }

  /** For the sections the analyst splits a document into, the page estimate is the
      section's one-based position. */
  lemma SplitSectionPages(stop: set<string>, content: string, path: string, i: nat)
    requires i < |LightweightAnalyst.SplitSections(stop, content, path)|
    ensures EstimatePageNumber(Some(LightweightAnalyst.SplitSections(stop, content, path)[i].sectionId)) == i + 1
  {
    LightweightAnalyst.SplitSectionsProperties(stop, content, path);
  }

  /** The stripped first line of the content, kept as title when 10 < length < 100. */
  function FirstLine(content: string): string {
    Strip(SplitOn(content, "\n")[0])
  }

  /** `_generate_section_title`. */
  function GenerateSectionTitle(content: Option<string>, sectionId: Option<int>): string {
    var c := GetOr(content, "");
    if c != [] && 10 < |FirstLine(c)| < 100 then FirstLine(c)
    else "Section " + IntToString(match sectionId case None => 1 case Some(i) => i + 1)
  }

  /** The first line holds no line break. */
  lemma FirstLineSingle(content: string)
    ensures !Contains(FirstLine(content), "\n")
  {
    var line := SplitOn(content, "\n")[0];
    SplitOnPiecesFree(content, "\n");
    assert line in SplitOn(content, "\n");
    var a := StripIsSlice(line);
    if Contains(FirstLine(content), "\n") {
      ContainsOfSlice(line, a, a + |Strip(line)|, "\n");
    }
  }

  /** A title is either a single line of 11 to 99 characters taken, stripped, from the start
      of the content, or the fallback naming the estimated page. */
  lemma SectionTitleProperties(content: Option<string>, sectionId: Option<int>)
    ensures var t := GenerateSectionTitle(content, sectionId);
      (content.Some? && t == FirstLine(content.value) && 10 < |t| < 100 && !Contains(t, "\n")) ||
      t == "Section " + IntToString(EstimatePageNumber(sectionId))
  {
    if content.Some? {
      FirstLineSingle(content.value);
    }
  }

  // ---------------------------------------------------------------------------
  // Classification
  // ---------------------------------------------------------------------------

  /** `_classify_document_type`, on the lower-cased file name. */
  function ClassifyDocumentType(docPath: string): string {
    var filename := Lower(Basename(docPath));
    if Contains(filename, "travel") || Contains(filename, "tourism") then "Travel Guide"
    else if Contains(filename, "acrobat") || Contains(filename, "pdf") then "Technical Documentation"
    else if Contains(filename, "food") || Contains(filename, "menu") || Contains(filename, "recipe") then "Food & Recipe Guide"
    else "General Document"
  }

  /** The document-type rules as a table: the label of the first rule whose words occur. */
  const DocumentRules: seq<seq<string>> :=
    [["travel", "tourism"], ["acrobat", "pdf"], ["food", "menu", "recipe"]]
  const DocumentLabels: seq<string> :=
    ["Travel Guide", "Technical Documentation", "Food & Recipe Guide", "General Document"]

  lemma ClassifyDocumentTypeIsFirstRule(docPath: string)
    ensures ClassifyDocumentType(docPath) ==
      DocumentLabels[FirstRule(Lower(Basename(docPath)), DocumentRules)]
  {
    var f := Lower(Basename(docPath));
    FirstRuleOfThree(f, ["travel", "tourism"], ["acrobat", "pdf"], ["food", "menu", "recipe"]);
    ContainsAnyTwo(f, "travel", "tourism");
    ContainsAnyTwo(f, "acrobat", "pdf");
    ContainsAnyThree(f, "food", "menu", "recipe");
  }

  /** Every file name with a ".pdf" extension contains "pdf", so unless it names travel or
      tourism it is classified as technical documentation, whatever else it names. */
  lemma PdfFilesAreTechnical(docPath: string)
    requires var f := Lower(Basename(docPath)); |f| >= 4 && f[|f| - 4..] == ".pdf"
    requires !Contains(Lower(Basename(docPath)), "travel") && !Contains(Lower(Basename(docPath)), "tourism")
    ensures ClassifyDocumentType(docPath) == "Technical Documentation"
  {
    var f := Lower(Basename(docPath));
    ContainsAt(".pdf", "pdf", 1);
    ContainsInTail(f, ".pdf", "pdf");
  }

  /** `_classify_task`, on the lower-cased task description. */
  function ClassifyTask(task: string): string {
    var t := Lower(task);
    if Contains(t, "travel") || Contains(t, "trip") then "Travel Planning"
    else if Contains(t, "training") || Contains(t, "onboarding") then "Training & Development"
    else if Contains(t, "menu") || Contains(t, "food") then "Food Service Planning"
    else "General Task"
  }

  const TaskRules: seq<seq<string>> :=
    [["travel", "trip"], ["training", "onboarding"], ["menu", "food"]]
  const TaskLabels: seq<string> :=
    ["Travel Planning", "Training & Development", "Food Service Planning", "General Task"]

  lemma ClassifyTaskIsFirstRule(task: string)
    ensures ClassifyTask(task) == TaskLabels[FirstRule(Lower(task), TaskRules)]
  {
    var t := Lower(task);
    FirstRuleOfThree(t, ["travel", "trip"], ["training", "onboarding"], ["menu", "food"]);
    ContainsAnyTwo(t, "travel", "trip");
    ContainsAnyTwo(t, "training", "onboarding");
    ContainsAnyTwo(t, "menu", "food");
  }

  // ---------------------------------------------------------------------------
  // Text cleaning, relevance level, top document
  // ---------------------------------------------------------------------------

  /** `_clean_text`: whitespace collapsed to single spaces, cut to 500 characters plus "..."
      when longer. */
  function CleanText(text: string): string {
    var cleaned := Collapse(text);
    if |cleaned| > 500 then cleaned[..500] + "..." else cleaned
  }

  /** The cleaned text is at most 503 characters and never longer than the input plus the
      ellipsis; a text that collapses to at most 500 characters is returned collapsed and
      cleaning it again changes nothing; a longer one keeps its first 500 collapsed
      characters and ends in "...". */
  lemma CleanTextProperties(text: string)
    ensures |CleanText(text)| <= 503 && |CleanText(text)| <= |text| + 3
    ensures |Collapse(text)| <= 500 ==> CleanText(text) == Collapse(text) && CleanText(CleanText(text)) == CleanText(text)
    ensures |Collapse(text)| > 500 ==>
      CleanText(text) == Collapse(text)[..500] + "..." && |CleanText(text)| == 503
    ensures forall c <- CleanText(text) :: c == ' ' || c == '.' || c in text
  {
    CollapseLength(text);
    CollapseChars(text);
    if |Collapse(text)| <= 500 {
      CollapseIdempotent(text);
    } else {
      var r := CleanText(text);
      forall c <- r ensures c == ' ' || c == '.' || c in text {
        var i :| 0 <= i < |r| && r[i] == c;
        if i < 500 {
          assert c == Collapse(text)[i];
          assert Collapse(text)[i] in Collapse(text);
        }
      }
    }
  }

  /** The relevance levels of `_assess_relevance`, lowest first. */
  datatype Level = Low | Medium | High {
    /** The label written to the output. */
    function Name(): string {
      match this
      case Low => "Low"
      case Medium => "Medium"
      case High => "High"
    }

    function Rank(): nat {
      match this
      case Low => 0
      case Medium => 1
      case High => 2
    }
  }

  /** `_assess_relevance`: High from 0.7, Medium from 0.4, Low below. */
  function AssessRelevance(score: real): (l: Level)
    ensures l == High <==> score >= 0.7
    ensures l == Low <==> score < 0.4
  {
    if score >= 0.7 then High else if score >= 0.4 then Medium else Low
  }

  /** A higher score never gets a lower level. */
  lemma AssessRelevanceMonotone(a: real, b: real)
    requires a <= b
    ensures AssessRelevance(a).Rank() <= AssessRelevance(b).Rank()
  {
  }

  /** What `_get_top_document` reads of a ranked section. */
  datatype SectionView = SectionView(documentPath: Option<string>, score: Option<real>)

  /** `x.get('score', 0)`. */
  function ScoreOrZero(s: SectionView): real {
    match s.score
    case Some(v) => v
    case None => 0.0
  }

  /** `_get_top_document`: "None" without sections, else the file name of the first section
      with the highest score ("Unknown" when it has no path). */
  function GetTopDocument(sections: seq<SectionView>): (r: string)
    ensures sections == [] ==> r == "None"
    ensures sections != [] ==>
      exists i :: 0 <= i < |sections| &&
        r == Basename(GetOr(sections[i].documentPath, "Unknown")) &&
        (forall j :: 0 <= j < |sections| ==> ScoreOrZero(sections[j]) <= ScoreOrZero(sections[i])) &&
        (forall j :: 0 <= j < i ==> ScoreOrZero(sections[j]) < ScoreOrZero(sections[i]))
  {
    if sections == [] then "None"
    else
      var i := Ranking.FirstMaxIndex(sections, ScoreOrZero);
      Basename(GetOr(sections[i].documentPath, "Unknown"))
  }
}

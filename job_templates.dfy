/** Job-to-be-done templates: six tables of three templates each, a case-insensitive
    lookup by domain (with aliases) and a suggestion by persona role through ordered
    substring rules. */
module JobTemplates {
  import opened PyStrings

  /** One template: its description (with a `{...}` placeholder), keywords and focus areas. */
  datatype JobTemplate = JobTemplate(description: string, keywords: seq<string>, focusAreas: seq<string>)

  /** The six template tables of `JobTemplates`. */
  datatype JobDomain = Academic | Educational | Business | Journalism | Legal | Medical

  const AcademicJobs: seq<(string, JobTemplate)> := [
    ("literature_review", JobTemplate(
      "Conduct a comprehensive literature review on {topic} from available research papers",
      ["literature", "review", "research", "papers", "studies", "findings", "methodology"],
      ["methodology", "findings", "conclusions", "future work", "related work"])),
    ("research_gap_analysis", JobTemplate(
      "Identify research gaps and opportunities in {topic} based on current literature",
      ["gap", "opportunity", "future research", "limitations", "unexplored"],
      ["limitations", "future work", "discussion", "conclusions"])),
    ("methodology_comparison", JobTemplate(
      "Compare different methodologies and approaches used in {topic} research",
      ["methodology", "approach", "comparison", "evaluation", "techniques"],
      ["methodology", "experimental design", "evaluation", "results"]))]

  const EducationalJobs: seq<(string, JobTemplate)> := [
    ("exam_preparation", JobTemplate(
      "Prepare for {exam_type} exam on {subject} using available study materials",
      ["exam", "study", "preparation", "review", "practice", "concepts"],
      ["key concepts", "examples", "exercises", "summaries", "definitions"])),
    ("concept_understanding", JobTemplate(
      "Understand key concepts and principles in {subject} for academic coursework",
      ["concept", "principle", "theory", "explanation", "understanding"],
      ["definitions", "examples", "applications", "explanations"])),
    ("assignment_research", JobTemplate(
      "Research information for assignment on {topic} using course materials",
      ["assignment", "research", "information", "sources", "evidence"],
      ["relevant information", "examples", "case studies", "data"]))]

  const BusinessJobs: seq<(string, JobTemplate)> := [
    ("financial_analysis", JobTemplate(
      "Analyze financial performance and health of {company} from financial reports",
      ["financial", "analysis", "performance", "revenue", "profit", "metrics"],
      ["financial statements", "key metrics", "trends", "risk factors"])),
    ("market_research", JobTemplate(
      "Research market trends and opportunities in {industry} sector",
      ["market", "trends", "opportunities", "competition", "growth"],
      ["market analysis", "competitive landscape", "trends", "forecasts"])),
    ("competitive_analysis", JobTemplate(
      "Analyze competitors and competitive landscape in {industry}",
      ["competitive", "analysis", "competitors", "market share", "strategy"],
      ["competitive overview", "market position", "strengths", "weaknesses"]))]

  const JournalismJobs: seq<(string, JobTemplate)> := [
    ("story_research", JobTemplate(
      "Research background information for story on {topic}",
      ["story", "research", "background", "facts", "sources", "context"],
      ["key facts", "timeline", "stakeholders", "impact"])),
    ("fact_checking", JobTemplate(
      "Verify facts and claims related to {topic} using reliable sources",
      ["fact", "verification", "claims", "sources", "accuracy"],
      ["factual information", "sources", "verification", "evidence"])),
    ("trend_analysis", JobTemplate(
      "Analyze trends and patterns in {domain} for news coverage",
      ["trends", "patterns", "analysis", "developments", "changes"],
      ["trend data", "analysis", "implications", "expert opinions"]))]

  const LegalJobs: seq<(string, JobTemplate)> := [
    ("case_research", JobTemplate(
      "Research legal precedents and case law related to {legal_issue}",
      ["case", "precedent", "law", "legal", "court", "ruling"],
      ["legal precedents", "court decisions", "legal analysis", "implications"])),
    ("contract_analysis", JobTemplate(
      "Analyze contract terms and legal implications for {contract_type}",
      ["contract", "terms", "legal", "obligations", "liability"],
      ["contract terms", "legal obligations", "risk assessment", "compliance"])),
    ("regulatory_compliance", JobTemplate(
      "Ensure compliance with regulations in {industry} sector",
      ["regulatory", "compliance", "regulations", "requirements", "standards"],
      ["regulatory requirements", "compliance standards", "penalties", "procedures"]))]

  const MedicalJobs: seq<(string, JobTemplate)> := [
    ("clinical_guidelines", JobTemplate(
      "Find clinical guidelines and best practices for treating {condition}",
      ["clinical", "guidelines", "treatment", "best practices", "protocols"],
      ["treatment protocols", "clinical guidelines", "best practices", "outcomes"])),
    ("treatment_research", JobTemplate(
      "Research latest treatment options and efficacy for {medical_condition}",
      ["treatment", "therapy", "efficacy", "outcomes", "clinical trials"],
      ["treatment options", "clinical trials", "efficacy data", "side effects"])),
    ("diagnostic_criteria", JobTemplate(
      "Understand diagnostic criteria and procedures for {condition}",
      ["diagnostic", "criteria", "symptoms", "tests", "procedures"],
      ["diagnostic criteria", "symptoms", "test procedures", "differential diagnosis"]))]

  /** The table of a domain, as its (name, template) pairs in dict order. */
  function Jobs(d: JobDomain): seq<(string, JobTemplate)> {
    match d
    case Academic => AcademicJobs
    case Educational => EducationalJobs
    case Business => BusinessJobs
    case Journalism => JournalismJobs
    case Legal => LegalJobs
    case Medical => MedicalJobs
  }

  /** A table as the class builds them: three templates under distinct names, each with
      some keywords and some focus areas. */
  predicate WellFormedTable(t: seq<(string, JobTemplate)>) {
    && |t| == 3
    && (forall a, b :: 0 <= a < b < |t| ==> t[a].0 != t[b].0)
    && forall i :: 0 <= i < |t| ==> t[i].1.keywords != [] && t[i].1.focusAreas != []
  }

  /** Three entries whose names differ pairwise, each with keywords and focus areas. */
  lemma WellFormedOfThree(t: seq<(string, JobTemplate)>)
    requires |t| == 3
    requires t[0].0 != t[1].0 && t[0].0 != t[2].0 && t[1].0 != t[2].0
    requires forall i :: 0 <= i < 3 ==> |t[i].1.keywords| > 0 && |t[i].1.focusAreas| > 0
    ensures WellFormedTable(t)
  {
  }

  lemma TablesWellFormed(d: JobDomain)
    ensures WellFormedTable(Jobs(d))
  {
    var t := Jobs(d);
    WellFormedOfThree(t);
  }

  /** The names `get_jobs_for_domain` accepts, with the table each selects. */
  const DomainMapping: seq<(string, JobDomain)> := [
    ("academic", Academic), ("education", Educational), ("business", Business),
    ("finance", Business), ("journalism", Journalism), ("media", Journalism),
    ("legal", Legal), ("medical", Medical), ("healthcare", Medical)]

  /** `get_jobs_for_domain`: the table named by the lower-cased domain, or the empty dict. */
  function JobsForDomain(domain: string): seq<(string, JobTemplate)> {
    match Lookup(DomainMapping, Lower(domain))
    case Some(d) => Jobs(d)
    case None => []
  }

  /** The lookup ignores letter case. */
  lemma JobsForDomainIgnoresCase(domain: string)
    ensures JobsForDomain(domain) == JobsForDomain(Lower(domain))
  {
    LowerIdempotent(domain);
  }

  /** Every accepted name gives a well-formed table and any other name the empty dict. */
  lemma JobsForDomainIff(domain: string)
    ensures JobsForDomain(domain) != [] <==> Lower(domain) in KeysOf(DomainMapping)
    ensures JobsForDomain(domain) != [] ==> WellFormedTable(JobsForDomain(domain))
  {
    match Lookup(DomainMapping, Lower(domain))
    case Some(d) => AcceptedDomain(domain, d);
    case None => UnknownDomain(domain);
  }

  lemma AcceptedDomain(domain: string, d: JobDomain)
    requires Lookup(DomainMapping, Lower(domain)) == Some(d)
    ensures JobsForDomain(domain) == Jobs(d) && WellFormedTable(Jobs(d))
    ensures Lower(domain) in KeysOf(DomainMapping)
  {
    TablesWellFormed(d);
    var keys := KeysOf(DomainMapping);
    var i :| 0 <= i < |DomainMapping| && DomainMapping[i] == (Lower(domain), d);
    assert keys[i] == Lower(domain);
  }

  lemma UnknownDomain(domain: string)
    requires Lookup(DomainMapping, Lower(domain)).None?
    ensures JobsForDomain(domain) == []
    ensures Lower(domain) !in KeysOf(DomainMapping)
  {
    var keys := KeysOf(DomainMapping);
    assert forall i :: 0 <= i < |keys| ==> keys[i] != Lower(domain);
  }

  /** The aliases: "finance" selects the business table, "media" the journalism table and
      "healthcare" the medical table, in any letter case. */
  lemma DomainAliases(domain: string)
    ensures Lower(domain) == "finance" ==> JobsForDomain(domain) == Jobs(Business)
    ensures Lower(domain) == "media" ==> JobsForDomain(domain) == Jobs(Journalism)
    ensures Lower(domain) == "healthcare" ==> JobsForDomain(domain) == Jobs(Medical)
  {
    if Lower(domain) == "finance" {
      AliasLookup(domain, 3);
    } else if Lower(domain) == "media" {
      AliasLookup(domain, 5);
    } else if Lower(domain) == "healthcare" {
      AliasLookup(domain, 8);
    }
  }

  lemma AliasLookup(domain: string, i: nat)
    requires i < |DomainMapping| && Lower(domain) == DomainMapping[i].0
    ensures JobsForDomain(domain) == Jobs(DomainMapping[i].1)
  {
    DomainKeysDistinct();
    LookupAt(DomainMapping, i);
  }

  /** The accepted names differ pairwise: no two share both first letter and length. */
  lemma DomainKeysDistinct()
    ensures forall a, b :: 0 <= a < b < |DomainMapping| ==> DomainMapping[a].0 != DomainMapping[b].0
  {
    var tags := [('a', 8), ('e', 9), ('b', 8), ('f', 7), ('j', 10), ('m', 5), ('l', 5), ('m', 7), ('h', 10)];
    forall i | 0 <= i < |DomainMapping|
      ensures |DomainMapping[i].0| > 0 && (DomainMapping[i].0[0], |DomainMapping[i].0|) == tags[i]
    {
    }
    forall a, b | 0 <= a < b < |DomainMapping|
      ensures DomainMapping[a].0 != DomainMapping[b].0
    {
      assert tags[a] != tags[b];
    }
  }

  /** The role rules of `suggest_job_for_persona`, in the order they are tried. */
  const RoleRules: seq<seq<string>> := [
    ["researcher", "academic"], ["student"],
    ["analyst", "business", "financial", "sales", "entrepreneur"],
    ["journalist", "reporter"], ["legal", "lawyer"],
    ["medical", "doctor", "physician", "nurse"]]
  const RoleTables: seq<JobDomain> := [Academic, Educational, Business, Journalism, Legal, Medical, Business]

  /** `suggest_job_for_persona` on the lower-cased role; the domain argument is unused. */
  function SuggestJobForPersona(personaRole: string): JobDomain {
    var role := Lower(personaRole);
    if Contains(role, "researcher") || Contains(role, "academic") then Academic
    else if Contains(role, "student") then Educational
    else if ContainsAny(role, ["analyst", "business", "financial", "sales", "entrepreneur"]) then Business
    else if Contains(role, "journalist") || Contains(role, "reporter") then Journalism
    else if Contains(role, "legal") || Contains(role, "lawyer") then Legal
    else if ContainsAny(role, ["medical", "doctor", "physician", "nurse"]) then Medical
    else Business
  }

  /** The suggestion is the table of the first rule with a word in the lower-cased role,
      and the business table when none has. */
  lemma {:induction false} SuggestIsFirstRule(personaRole: string)
    ensures SuggestJobForPersona(personaRole) == RoleTables[FirstRule(Lower(personaRole), RoleRules)]
  {
    var role := Lower(personaRole);
    var rules := RoleRules;
    assert FirstRule(role, rules) == if ContainsAny(role, rules[0]) then 0 else 1 + FirstRule(role, rules[1..]);
    assert FirstRule(role, rules[1..]) == if ContainsAny(role, rules[1]) then 0 else 1 + FirstRule(role, rules[2..]);
    assert rules[1..][1..] == rules[2..];
    assert FirstRule(role, rules[2..]) == if ContainsAny(role, rules[2]) then 0 else 1 + FirstRule(role, rules[3..]);
    assert rules[2..][1..] == rules[3..] == [rules[3], rules[4], rules[5]];
    FirstRuleOfThree(role, rules[3], rules[4], rules[5]);
    ContainsAnyTwo(role, "researcher", "academic");
    ContainsAnyOne(role, "student");
    ContainsAnyTwo(role, "journalist", "reporter");
    ContainsAnyTwo(role, "legal", "lawyer");
  }

  /** A role naming both a researcher and an analyst matches the business rule too, yet
      gets the academic table: the researcher rule is tried first. */
  lemma ResearcherBeforeAnalyst(personaRole: string)
    requires Contains(Lower(personaRole), "researcher") && Contains(Lower(personaRole), "analyst")
    ensures ContainsAny(Lower(personaRole), RoleRules[2])
    ensures SuggestJobForPersona(personaRole) == Academic
  {
    assert RoleRules[2][0] == "analyst";
  }

  /** A role that matches none of the words gets the business table. */
  lemma UnknownRoleGetsBusiness(personaRole: string)
    requires forall rule <- RoleRules :: !ContainsAny(Lower(personaRole), rule)
    ensures SuggestJobForPersona(personaRole) == Business
  {
    SuggestIsFirstRule(personaRole);
  }

  /** None of the words of the role rules occurs in `role`. */
  predicate NoRuleWord(role: string) {
    && !Contains(role, "researcher") && !Contains(role, "academic") && !Contains(role, "student")
    && !Contains(role, "analyst") && !Contains(role, "business") && !Contains(role, "financial")
    && !Contains(role, "sales") && !Contains(role, "entrepreneur")
    && !Contains(role, "journalist") && !Contains(role, "reporter")
    && !Contains(role, "legal") && !Contains(role, "lawyer")
    && !Contains(role, "medical") && !Contains(role, "doctor") && !Contains(role, "physician")
    && !Contains(role, "nurse")
  }

  /** A role in which no rule word occurs matches no rule and gets the business table by
      default. */
  lemma NoRuleWordGetsBusiness(personaRole: string)
    requires NoRuleWord(Lower(personaRole))
    ensures forall rule <- RoleRules :: !ContainsAny(Lower(personaRole), rule)
    ensures SuggestJobForPersona(personaRole) == Business
  {
    forall rule <- RoleRules, w <- rule
      ensures !Contains(Lower(personaRole), w)
    {
    }
  }
}

/** Persona templates: ten predefined personas, looked up case-insensitively by a short
    name, and the list of those names. */
module PersonaTemplates {
  import opened PyStrings
  import JobTemplates

  /** One template: the persona fields and the keywords and context preferences it brings. */
  datatype PersonaTemplate = PersonaTemplate(
    role: string, experienceLevel: string, domain: string,
    goals: seq<string>, keywords: seq<string>, contextPreferences: seq<string>)

  const AcademicResearcher := PersonaTemplate(
    "Academic Researcher", "PhD", "Research",
    ["literature review", "research methodology", "citation analysis", "theoretical frameworks"],
    ["study", "analysis", "methodology", "findings", "hypothesis", "experiment", "theory"],
    ["abstract", "introduction", "methodology", "results", "conclusion", "references"])

  const Student := PersonaTemplate(
    "Student", "Undergraduate", "Education",
    ["exam preparation", "concept understanding", "assignment completion", "study materials"],
    ["definition", "example", "explanation", "formula", "concept", "principle", "theory"],
    ["examples", "exercises", "summaries", "key concepts", "definitions"])

  const FinancialAnalyst := PersonaTemplate(
    "Financial Analyst", "Senior", "Finance",
    ["financial analysis", "risk assessment", "investment decisions", "market trends"],
    ["revenue", "profit", "loss", "assets", "liabilities", "cash flow", "ROI", "valuation"],
    ["financial statements", "executive summary", "market analysis", "risk factors"])

  const SalesProfessional := PersonaTemplate(
    "Sales Professional", "Senior", "Sales & Marketing",
    ["lead generation", "client presentations", "competitive analysis", "market insights"],
    ["customer", "market", "competition", "price", "value proposition", "benefits"],
    ["executive summary", "market overview", "competitive landscape", "recommendations"])

  const Journalist := PersonaTemplate(
    "Journalist", "Senior", "Media & Communications",
    ["story development", "fact checking", "source verification", "trend analysis"],
    ["news", "events", "people", "timeline", "impact", "quotes", "sources"],
    ["headlines", "key facts", "quotes", "timeline", "impact analysis"])

  const Entrepreneur := PersonaTemplate(
    "Entrepreneur", "Experienced", "Business",
    ["market opportunity", "business strategy", "competitive analysis", "investment planning"],
    ["market", "opportunity", "strategy", "innovation", "growth", "scalability", "funding"],
    ["market analysis", "business model", "financial projections", "risk assessment"])

  const PolicyMaker := PersonaTemplate(
    "Policy Maker", "Senior", "Government & Policy",
    ["policy analysis", "impact assessment", "stakeholder analysis", "regulatory compliance"],
    ["regulation", "policy", "compliance", "impact", "stakeholders", "governance"],
    ["executive summary", "policy implications", "stakeholder impact", "recommendations"])

  const MedicalProfessional := PersonaTemplate(
    "Medical Professional", "Attending Physician", "Healthcare",
    ["clinical guidelines", "treatment protocols", "patient care", "medical research"],
    ["patient", "treatment", "diagnosis", "clinical", "therapy", "outcomes", "safety"],
    ["clinical findings", "treatment recommendations", "patient outcomes", "safety data"])

  const LegalProfessional := PersonaTemplate(
    "Legal Professional", "Senior Associate", "Legal",
    ["case research", "legal precedents", "contract analysis", "compliance review"],
    ["law", "regulation", "contract", "liability", "compliance", "precedent", "jurisdiction"],
    ["legal analysis", "precedents", "regulatory requirements", "risk assessment"])

  const TechnicalWriter := PersonaTemplate(
    "Technical Writer", "Senior", "Documentation",
    ["documentation creation", "technical accuracy", "user guidance", "process documentation"],
    ["procedure", "instruction", "specification", "guidelines", "standards", "process"],
    ["procedures", "specifications", "examples", "best practices", "troubleshooting"])

  /** The dict `get_template` looks names up in, in its order. */
  const Templates: seq<(string, PersonaTemplate)> := [
    ("researcher", AcademicResearcher), ("student", Student),
    ("financial_analyst", FinancialAnalyst), ("sales", SalesProfessional),
    ("journalist", Journalist), ("entrepreneur", Entrepreneur),
    ("policy_maker", PolicyMaker), ("medical", MedicalProfessional),
    ("legal", LegalProfessional), ("technical_writer", TechnicalWriter)]

  /** `get_template`: the template under the lower-cased name, or None. */
  function GetTemplate(roleType: string): Option<PersonaTemplate> {
    Lookup(Templates, Lower(roleType))
  }

  /** `list_available_templates`. */
  function ListAvailableTemplates(): seq<string> {
    ["researcher", "student", "financial_analyst", "sales",
     "journalist", "entrepreneur", "policy_maker", "medical",
     "legal", "technical_writer"]
  }

  /** The listed names are exactly the lookup keys, in dict order, and pairwise distinct. */
  lemma ListIsKeys()
    ensures ListAvailableTemplates() == KeysOf(Templates)
    ensures forall a, b :: 0 <= a < b < |Templates| ==> Templates[a].0 != Templates[b].0
  {
    var keys := ListAvailableTemplates();
    assert KeysOf(Templates) == keys;
  }

  /** A template is found exactly for a name whose lower-case form is listed, whatever
      its letter case. */
  lemma GetTemplateIff(roleType: string)
    ensures GetTemplate(roleType).Some? <==> Lower(roleType) in ListAvailableTemplates()
    ensures GetTemplate(roleType) == GetTemplate(Lower(roleType))
  {
    LowerIdempotent(roleType);
    ListIsKeys();
    var keys := KeysOf(Templates);
    if GetTemplate(roleType).Some? {
      var i :| 0 <= i < |Templates| && Templates[i].0 == Lower(roleType);
      assert keys[i] == Lower(roleType);
    }
  }

  /** Every listed name resolves, to the template stored under it. */
  lemma ListedTemplatesResolve(i: nat)
    requires i < |ListAvailableTemplates()|
    ensures GetTemplate(ListAvailableTemplates()[i]) == Some(Templates[i].1)
  {
    ListIsKeys();
    var name := ListAvailableTemplates()[i];
    LowerOfLowerCase(name);
    LookupAt(Templates, i);
  }

  /** The ten templates describe ten different roles, each with some goals, keywords and
      context preferences. */
  lemma TemplatesDistinctRoles()
    ensures forall a, b :: 0 <= a < b < |Templates| ==> Templates[a].1.role != Templates[b].1.role
    ensures forall i :: 0 <= i < |Templates| ==>
      Templates[i].1.goals != [] && Templates[i].1.keywords != [] && Templates[i].1.contextPreferences != []
  {
  }

  /** The letters "Policy Maker" and "Technical Writer" are spelled with. */
  const PolicyMakerLetterSet: set<char> := {' ', 'M', 'P', 'a', 'c', 'e', 'i', 'k', 'l', 'o', 'r', 'y'}
  const TechnicalWriterLetterSet: set<char> := {' ', 'T', 'W', 'a', 'c', 'e', 'h', 'i', 'l', 'n', 'r', 't'}

  /** A letter outside the alphabet a role is spelled with does not occur in the role. */
  lemma NotInAlphabet(role: string, alphabet: set<char>, c: char)
    requires forall i | 0 <= i < |role| :: role[i] in alphabet
    requires c !in alphabet
    ensures c !in role
  {
  }

  /** A role lacking these letters, in either case, holds no rule word once lower-cased. */
  lemma NoRuleWordInPolicyMaker(role: string)
    requires 's' !in role && 'S' !in role && 'd' !in role && 'D' !in role && 'n' !in role && 'N' !in role && 'b' !in role && 'B' !in role
    requires 'f' !in role && 'F' !in role && 'j' !in role && 'J' !in role && 't' !in role && 'T' !in role && 'g' !in role && 'G' !in role
    requires 'w' !in role && 'W' !in role && 'h' !in role && 'H' !in role
    ensures JobTemplates.NoRuleWord(Lower(role))
  {
    MissingCharNoContainsLower(role, "researcher", 's');
    MissingCharNoContainsLower(role, "academic", 'd');
    MissingCharNoContainsLower(role, "student", 's');
    MissingCharNoContainsLower(role, "analyst", 'n');
    MissingCharNoContainsLower(role, "business", 'b');
    MissingCharNoContainsLower(role, "financial", 'f');
    MissingCharNoContainsLower(role, "sales", 's');
    MissingCharNoContainsLower(role, "entrepreneur", 'n');
    MissingCharNoContainsLower(role, "journalist", 'j');
    MissingCharNoContainsLower(role, "reporter", 't');
    MissingCharNoContainsLower(role, "legal", 'g');
    MissingCharNoContainsLower(role, "lawyer", 'w');
    MissingCharNoContainsLower(role, "medical", 'd');
    MissingCharNoContainsLower(role, "doctor", 'd');
    MissingCharNoContainsLower(role, "physician", 'h');
    MissingCharNoContainsLower(role, "nurse", 'n');
  }

  /** The letters of the Policy Maker role. */
  lemma PolicyMakerLetters(role: string)
    requires role == "Policy Maker"
    ensures forall i | 0 <= i < |role| :: role[i] in PolicyMakerLetterSet
  {
  }

  /** A role spelled with those letters lacks every letter the rule words need. */
  lemma PolicyMakerLacks(role: string)
    requires forall i | 0 <= i < |role| :: role[i] in PolicyMakerLetterSet
    ensures 's' !in role && 'S' !in role && 'd' !in role && 'D' !in role && 'n' !in role && 'N' !in role && 'b' !in role && 'B' !in role
    ensures 'f' !in role && 'F' !in role && 'j' !in role && 'J' !in role && 't' !in role && 'T' !in role && 'g' !in role && 'G' !in role
    ensures 'w' !in role && 'W' !in role && 'h' !in role && 'H' !in role
  {
    NotInAlphabet(role, PolicyMakerLetterSet, 's');
    NotInAlphabet(role, PolicyMakerLetterSet, 'S');
    NotInAlphabet(role, PolicyMakerLetterSet, 'd');
    NotInAlphabet(role, PolicyMakerLetterSet, 'D');
    NotInAlphabet(role, PolicyMakerLetterSet, 'n');
    NotInAlphabet(role, PolicyMakerLetterSet, 'N');
    NotInAlphabet(role, PolicyMakerLetterSet, 'b');
    NotInAlphabet(role, PolicyMakerLetterSet, 'B');
    NotInAlphabet(role, PolicyMakerLetterSet, 'f');
    NotInAlphabet(role, PolicyMakerLetterSet, 'F');
    NotInAlphabet(role, PolicyMakerLetterSet, 'j');
    NotInAlphabet(role, PolicyMakerLetterSet, 'J');
    NotInAlphabet(role, PolicyMakerLetterSet, 't');
    NotInAlphabet(role, PolicyMakerLetterSet, 'T');
    NotInAlphabet(role, PolicyMakerLetterSet, 'g');
    NotInAlphabet(role, PolicyMakerLetterSet, 'G');
    NotInAlphabet(role, PolicyMakerLetterSet, 'w');
    NotInAlphabet(role, PolicyMakerLetterSet, 'W');
    NotInAlphabet(role, PolicyMakerLetterSet, 'h');
    NotInAlphabet(role, PolicyMakerLetterSet, 'H');
  }

  /** No rule word occurs in the role of the policy-maker template, so `suggest_jobs` gives it
      the business table through the default branch, not through the business rule. */
  lemma PolicyMakerGetsBusiness()
    ensures forall rule <- JobTemplates.RoleRules :: !ContainsAny(Lower(PolicyMaker.role), rule)
    ensures JobTemplates.SuggestJobForPersona(PolicyMaker.role) == JobTemplates.Business
  {
    PolicyMakerLetters(PolicyMaker.role);
    PolicyMakerLacks(PolicyMaker.role);
    NoRuleWordInPolicyMaker(PolicyMaker.role);
    JobTemplates.NoRuleWordGetsBusiness(PolicyMaker.role);
  }

  /** A role lacking these letters, in either case, holds no rule word once lower-cased. */
  lemma NoRuleWordInTechnicalWriter(role: string)
    requires 's' !in role && 'S' !in role && 'd' !in role && 'D' !in role && 'y' !in role && 'Y' !in role && 'b' !in role && 'B' !in role
    requires 'f' !in role && 'F' !in role && 'p' !in role && 'P' !in role && 'j' !in role && 'J' !in role && 'g' !in role && 'G' !in role
    requires 'm' !in role && 'M' !in role && 'u' !in role && 'U' !in role
    ensures JobTemplates.NoRuleWord(Lower(role))
  {
    MissingCharNoContainsLower(role, "researcher", 's');
    MissingCharNoContainsLower(role, "academic", 'd');
    MissingCharNoContainsLower(role, "student", 's');
    MissingCharNoContainsLower(role, "analyst", 'y');
    MissingCharNoContainsLower(role, "business", 'b');
    MissingCharNoContainsLower(role, "financial", 'f');
    MissingCharNoContainsLower(role, "sales", 's');
    MissingCharNoContainsLower(role, "entrepreneur", 'p');
    MissingCharNoContainsLower(role, "journalist", 'j');
    MissingCharNoContainsLower(role, "reporter", 'p');
    MissingCharNoContainsLower(role, "legal", 'g');
    MissingCharNoContainsLower(role, "lawyer", 'y');
    MissingCharNoContainsLower(role, "medical", 'm');
    MissingCharNoContainsLower(role, "doctor", 'd');
    MissingCharNoContainsLower(role, "physician", 'p');
    MissingCharNoContainsLower(role, "nurse", 'u');
  }

  /** The letters of the Technical Writer role. */
  lemma TechnicalWriterLetters(role: string)
    requires role == "Technical Writer"
    ensures forall i | 0 <= i < |role| :: role[i] in TechnicalWriterLetterSet
  {
  }

  /** A role spelled with those letters lacks every letter the rule words need. */
  lemma TechnicalWriterLacks(role: string)
    requires forall i | 0 <= i < |role| :: role[i] in TechnicalWriterLetterSet
    ensures 's' !in role && 'S' !in role && 'd' !in role && 'D' !in role && 'y' !in role && 'Y' !in role && 'b' !in role && 'B' !in role
    ensures 'f' !in role && 'F' !in role && 'p' !in role && 'P' !in role && 'j' !in role && 'J' !in role && 'g' !in role && 'G' !in role
    ensures 'm' !in role && 'M' !in role && 'u' !in role && 'U' !in role
  {
    NotInAlphabet(role, TechnicalWriterLetterSet, 's');
    NotInAlphabet(role, TechnicalWriterLetterSet, 'S');
    NotInAlphabet(role, TechnicalWriterLetterSet, 'd');
    NotInAlphabet(role, TechnicalWriterLetterSet, 'D');
    NotInAlphabet(role, TechnicalWriterLetterSet, 'y');
    NotInAlphabet(role, TechnicalWriterLetterSet, 'Y');
    NotInAlphabet(role, TechnicalWriterLetterSet, 'b');
    NotInAlphabet(role, TechnicalWriterLetterSet, 'B');
    NotInAlphabet(role, TechnicalWriterLetterSet, 'f');
    NotInAlphabet(role, TechnicalWriterLetterSet, 'F');
    NotInAlphabet(role, TechnicalWriterLetterSet, 'p');
    NotInAlphabet(role, TechnicalWriterLetterSet, 'P');
    NotInAlphabet(role, TechnicalWriterLetterSet, 'j');
    NotInAlphabet(role, TechnicalWriterLetterSet, 'J');
    NotInAlphabet(role, TechnicalWriterLetterSet, 'g');
    NotInAlphabet(role, TechnicalWriterLetterSet, 'G');
    NotInAlphabet(role, TechnicalWriterLetterSet, 'm');
    NotInAlphabet(role, TechnicalWriterLetterSet, 'M');
    NotInAlphabet(role, TechnicalWriterLetterSet, 'u');
    NotInAlphabet(role, TechnicalWriterLetterSet, 'U');
  }

  /** No rule word occurs in the role of the technical-writer template, so `suggest_jobs` gives it
      the business table through the default branch, not through the business rule. */
  lemma TechnicalWriterGetsBusiness()
    ensures forall rule <- JobTemplates.RoleRules :: !ContainsAny(Lower(TechnicalWriter.role), rule)
    ensures JobTemplates.SuggestJobForPersona(TechnicalWriter.role) == JobTemplates.Business
  {
    TechnicalWriterLetters(TechnicalWriter.role);
    TechnicalWriterLacks(TechnicalWriter.role);
    NoRuleWordInTechnicalWriter(TechnicalWriter.role);
    JobTemplates.NoRuleWordGetsBusiness(TechnicalWriter.role);
  }
}

/** `PersonaAnalyzer`: turns a persona and a job description into a relevance profile,
    a list of keywords and a keyword-to-weight map. */
module PersonaAnalyzer {
  import opened PyStrings

  /** The persona fields the analyzer reads; absent keys are the empty string or list. */
  datatype Persona = Persona(role: string, experienceLevel: string, domain: string, goals: seq<string>)

  datatype Profile = Profile(
    persona: Persona, jobToBeDone: string, keywords: seq<string>,
    weights: map<string, real>, domainContext: seq<string>)

  const RoleTable: map<string, seq<string>> := map[
    "data_scientist" := ["machine learning", "statistics", "python", "r", "analytics", "modeling", "algorithms"],
    "software_engineer" := ["programming", "development", "coding", "architecture", "frameworks", "apis"],
    "product_manager" := ["strategy", "roadmap", "requirements", "stakeholder", "market", "user experience"],
    "researcher" := ["methodology", "analysis", "findings", "literature", "study", "experimental"],
    "business_analyst" := ["requirements", "process", "workflow", "optimization", "metrics", "kpi"],
    "healthcare_professional" := ["clinical", "patient", "treatment", "diagnosis", "medical", "therapeutic"]
  ]

  const ExperienceTable: map<string, seq<string>> := map[
    "junior" := ["introduction", "basics", "fundamentals", "getting started", "tutorial"],
    "senior" := ["advanced", "expert", "best practices", "optimization", "scalability", "architecture"],
    "lead" := ["strategy", "management", "team", "leadership", "governance", "standards"]
  ]

  /** The domain table in its declaration order, which decides the first match. */
  const DomainKeys: seq<string> := ["healthcare", "finance", "technology", "manufacturing", "retail", "education"]
  const DomainLists: seq<seq<string>> := [
    ["medical", "clinical", "patient", "treatment", "diagnosis", "therapeutic"],
    ["financial", "investment", "risk", "trading", "portfolio", "banking"],
    ["software", "system", "platform", "digital", "innovation", "automation"],
    ["production", "quality", "supply chain", "operations", "efficiency"],
    ["customer", "sales", "inventory", "marketing", "ecommerce", "consumer"],
    ["learning", "curriculum", "assessment", "student", "pedagogy", "academic"]
  ]

  const StopWords: set<string> := {
    "the", "a", "an", "and", "or", "but", "in", "on", "at", "to", "for", "of", "with",
    "by", "from", "up", "about", "into", "through", "during", "before", "after",
    "above", "below", "between", "among", "is", "are", "was", "were", "be", "been",
    "being", "have", "has", "had", "do", "does", "did", "will", "would", "could",
    "should", "may", "might", "must", "shall", "can", "i", "you", "he", "she", "it",
    "we", "they", "them", "their", "this", "that", "these", "those"
  }

  function ReplaceChar(s: string, a: char, b: char): (r: string)
    ensures |r| == |s|
    ensures forall i :: 0 <= i < |s| ==> r[i] == if s[i] == a then b else s[i]
  {
    seq(|s|, i requires 0 <= i < |s| => if s[i] == a then b else s[i])
  }

  /** The role-table key a persona's role maps to: lower-cased, spaces to underscores. */
  function RoleKey(p: Persona): string {
    ReplaceChar(Lower(p.role), ' ', '_')
  }

  function RoleKeywords(p: Persona): seq<string> {
    var key := RoleKey(p);
    if key in RoleTable then RoleTable[key] else []
  }

  function ExperienceKeywords(p: Persona): seq<string> {
    var key := Lower(p.experienceLevel);
    if key in ExperienceTable then ExperienceTable[key] else []
  }

  /** `_extract_domain_keywords`: the list of the first table key contained in the
      lower-cased domain, or the lower-cased domain itself. */
  function DomainKeywords(domain: string): (r: seq<string>)
    ensures ContainsAny(Lower(domain), DomainKeys) ==>
      exists i :: 0 <= i < |DomainKeys| && Contains(Lower(domain), DomainKeys[i]) && r == DomainLists[i]
        && forall j :: 0 <= j < i ==> !Contains(Lower(domain), DomainKeys[j])
    ensures !ContainsAny(Lower(domain), DomainKeys) ==> r == [Lower(domain)]
  {
    var k := FirstContained(Lower(domain), DomainKeys);
    FirstContainedIffAny(Lower(domain), DomainKeys);
    if k < |DomainKeys| then DomainLists[k] else [Lower(domain)]
  }

  function PersonaDomainKeywords(p: Persona): seq<string> {
    if p.domain != [] then DomainKeywords(p.domain) else []
  }

  // ---------------------------------------------------------------------------
  // _extract_job_keywords

  /** `re.sub(r'[^\w\s]', ' ', job.lower())`. */
  function JobClean(job: string): (r: string)
    ensures |r| == |job|
  {
    var low := Lower(job);
    seq(|low|, i requires 0 <= i < |low| => if IsWordChar(low[i]) || IsSpace(low[i]) then low[i] else ' ')
  }

  function JobWords(job: string): seq<string> {
    Words(JobClean(job))
  }

  predicate Unigram(w: string) {
    |w| > 2 && w !in StopWords
  }

  function Unigrams(words: seq<string>): (r: seq<string>)
    ensures forall w <- r :: w in words && Unigram(w)
  {
    if words == [] then []
    else (if Unigram(words[0]) then [words[0]] else []) + Unigrams(words[1..])
  }

  /** Adjacent non-stop-word pairs, joined by one space, starting at index `i`. */
  function BigramsFrom(words: seq<string>, i: nat): seq<string>
    decreases |words| - i
  {
    if i + 1 >= |words| then []
    else
      (if words[i] !in StopWords && words[i + 1] !in StopWords then [words[i] + " " + words[i + 1]] else [])
      + BigramsFrom(words, i + 1)
  }

  function TrigramsFrom(words: seq<string>, i: nat): seq<string>
    decreases |words| - i
  {
    if i + 2 >= |words| then []
    else
      (if words[i] !in StopWords && words[i + 1] !in StopWords && words[i + 2] !in StopWords
       then [words[i] + " " + words[i + 1] + " " + words[i + 2]] else [])
      + TrigramsFrom(words, i + 1)
  }

  /** `_extract_job_keywords` as a value. */
  function JobKeywords(job: string): seq<string> {
    var ws := JobWords(job);
    Unigrams(ws) + BigramsFrom(ws, 0) + TrigramsFrom(ws, 0)
  }

  /** Every bigram is two adjacent non-stop-words. */
  lemma {:induction false} BigramsAdjacent(words: seq<string>, i: nat, g: string)
    requires g in BigramsFrom(words, i)
    ensures exists j :: i <= j && j + 1 < |words| && words[j] !in StopWords && words[j + 1] !in StopWords
                        && g == words[j] + " " + words[j + 1]
    decreases |words| - i
  {
    if i + 1 < |words| {
      var head := if words[i] !in StopWords && words[i + 1] !in StopWords then [words[i] + " " + words[i + 1]] else [];
      if g !in head {
        BigramsAdjacent(words, i + 1, g);
      }
    }
  }

  /** Every trigram is three adjacent non-stop-words. */
  lemma {:induction false} TrigramsAdjacent(words: seq<string>, i: nat, g: string)
    requires g in TrigramsFrom(words, i)
    ensures exists j :: i <= j && j + 2 < |words| && words[j] !in StopWords && words[j + 1] !in StopWords
                        && words[j + 2] !in StopWords && g == words[j] + " " + words[j + 1] + " " + words[j + 2]
    decreases |words| - i
  {
    if i + 2 < |words| {
      var head := if words[i] !in StopWords && words[i + 1] !in StopWords && words[i + 2] !in StopWords
                  then [words[i] + " " + words[i + 1] + " " + words[i + 2]] else [];
      if g !in head {
        TrigramsAdjacent(words, i + 1, g);
      }
    }
  }

  /** Every adjacent pair of non-stop-words yields its bigram. */
  lemma {:induction false} BigramsComplete(words: seq<string>, i: nat, j: nat)
    requires i <= j && j + 1 < |words| && words[j] !in StopWords && words[j + 1] !in StopWords
    ensures words[j] + " " + words[j + 1] in BigramsFrom(words, i)
    decreases j - i
  {
    if i < j {
      BigramsComplete(words, i + 1, j);
    }
  }

  method ExtractJobKeywords(job: string) returns (r: seq<string>)
    ensures r == JobKeywords(job)
  {
    var words := Words(JobClean(job));
    var keywords := CollectUnigrams(words);
    var phrases := AppendBigrams(words, []);
    phrases := AppendTrigrams(words, phrases);
    r := keywords + phrases;
    assert r == Unigrams(words) + BigramsFrom(words, 0) + TrigramsFrom(words, 0);
  }

  /** The single-word loop: words longer than two letters that are not stop words. */
  method CollectUnigrams(words: seq<string>) returns (keywords: seq<string>)
    ensures keywords == Unigrams(words)
  {
    keywords := [];
    for i := 0 to |words|
      invariant keywords == Unigrams(words[..i])
    {
      UnigramsAppend(words[..i], words[i]);
      assert words[..i + 1] == words[..i] + [words[i]];
      if |words[i]| > 2 && words[i] !in StopWords {
        keywords := keywords + [words[i]];
      }
    }
    assert words[..|words|] == words;
  }

  /** The two-word phrase loop, appending to `phrases`. */
  method AppendBigrams(words: seq<string>, phrases: seq<string>) returns (r: seq<string>)
    ensures r == phrases + BigramsFrom(words, 0)
  {
    r := phrases;
    var i := 0;
    while i + 1 < |words|
      invariant 0 <= i
      invariant r + BigramsFrom(words, i) == phrases + BigramsFrom(words, 0)
    {
      var head := if words[i] !in StopWords && words[i + 1] !in StopWords then [words[i] + " " + words[i + 1]] else [];
      assert BigramsFrom(words, i) == head + BigramsFrom(words, i + 1);
      r := r + head;
      i := i + 1;
    }
    assert BigramsFrom(words, i) == [];
  }

  /** The three-word phrase loop, appending to `phrases`. */
  method AppendTrigrams(words: seq<string>, phrases: seq<string>) returns (r: seq<string>)
    ensures r == phrases + TrigramsFrom(words, 0)
  {
    r := phrases;
    var i := 0;
    while i + 2 < |words|
      invariant 0 <= i
      invariant r + TrigramsFrom(words, i) == phrases + TrigramsFrom(words, 0)
    {
      var head := if words[i] !in StopWords && words[i + 1] !in StopWords && words[i + 2] !in StopWords
                  then [words[i] + " " + words[i + 1] + " " + words[i + 2]] else [];
      assert TrigramsFrom(words, i) == head + TrigramsFrom(words, i + 1);
      r := r + head;
      i := i + 1;
    }
    assert TrigramsFrom(words, i) == [];
  }

  lemma UnigramsAppend(ws: seq<string>, w: string)
    ensures Unigrams(ws + [w]) == Unigrams(ws) + (if Unigram(w) then [w] else [])
  {
    if ws != [] {
      assert (ws + [w])[1..] == ws[1..] + [w];
      UnigramsAppend(ws[1..], w);
    }
  }

  lemma {:induction false} LowerJoin(ws: seq<string>)
    ensures Lower(Join(ws, " ")) == Join(LowerEach(ws), " ")
  {
    if |ws| > 1 {
      LowerJoin(ws[1..]);
      assert LowerEach(ws[1..]) == LowerEach(ws)[1..];
      LowerConcat(ws[0] + " ", Join(ws[1..], " "));
      LowerConcat(ws[0], " ");
    }
  }

  /** Text made only of word characters and whitespace is only lower-cased by the cleanup. */
  lemma JobCleanOfPlainText(s: string)
    requires forall c <- s :: IsWordChar(c) || IsSpace(c)
    ensures JobClean(s) == Lower(s)
  {
    forall i | 0 <= i < |s|
      ensures JobClean(s)[i] == Lower(s)[i]
    {
      assert s[i] in s;
    }
  }

  /** A job description written as plain words separated by single spaces yields exactly
      those words, lower-cased. */
  lemma JobWordsOfPlainWords(ws: seq<string>)
    requires forall w <- ws :: w != [] && All(w, IsWordChar)
    ensures JobWords(Join(ws, " ")) == LowerEach(ws)
  {
    var s := Join(ws, " ");
    JoinChars(ws, " ");
    forall c <- s
      ensures IsWordChar(c) || IsSpace(c)
    {
      if c !in " " {
        var w :| w in ws && c in w;
        var i :| 0 <= i < |w| && w[i] == c;
      }
    }
    JobCleanOfPlainText(s);
    LowerJoin(ws);
    var lw := LowerEach(ws);
    forall w <- lw
      ensures w != [] && All(w, NotSpace)
    {
      var k :| 0 <= k < |lw| && lw[k] == w;
      assert ws[k] in ws;
      forall i | 0 <= i < |w|
        ensures NotSpace(w[i])
      {
        assert IsWordChar(ws[k][i]);
      }
    }
    RunsOfRunJoin(lw, NotSpace, ' ');
  }

  /** For a job description written as plain words, every word longer than two characters
      that is not a stop word comes out as a keyword, lower-cased. */
  lemma JobKeywordsComplete(ws: seq<string>, w: string)
    requires forall v <- ws :: v != [] && All(v, IsWordChar)
    requires w in LowerEach(ws) && Unigram(w)
    ensures w in JobKeywords(Join(ws, " "))
  {
    JobWordsOfPlainWords(ws);
    UnigramsComplete(LowerEach(ws), w);
  }

  /** Every word longer than two characters that is not a stop word is a unigram. */
  lemma {:induction false} UnigramsComplete(words: seq<string>, w: string)
    requires w in words && Unigram(w)
    ensures w in Unigrams(words)
  {
    if words[0] != w {
      UnigramsComplete(words[1..], w);
    }
  }

  // ---------------------------------------------------------------------------
  // analyze_persona

  /** Every keyword the profile collects, in collection order. */
  function CollectedKeywords(p: Persona, job: string): seq<string> {
    RoleKeywords(p) + ExperienceKeywords(p) + PersonaDomainKeywords(p) + p.goals + JobKeywords(job)
  }

  /** The weight band of a keyword: the last source to mention it wins, in the order
      role (2.0), experience (1.5), domain (2.5), goals (3.0), job (3.5). */
  function BandWeight(p: Persona, job: string, k: string): real {
    if k in JobKeywords(job) then 3.5
    else if k in p.goals then 3.0
    else if k in PersonaDomainKeywords(p) then 2.5
    else if k in ExperienceKeywords(p) then 1.5
    else 2.0
  }

  /** `weights[k] = w` for every `k` of `ks`, applied to `m`. */
  function Assigned(m: map<string, real>, ks: seq<string>, w: real): map<string, real> {
    map k | k in m.Keys + (set x | x in ks) :: if k in ks then w else m[k]
  }

  /** The weight map `analyze_persona` builds, as five successive assignments. */
  function ProfileWeights(p: Persona, job: string): map<string, real> {
    var role := Assigned(map[], RoleKeywords(p), 2.0);
    var experience := Assigned(role, ExperienceKeywords(p), 1.5);
    var domain := Assigned(experience, PersonaDomainKeywords(p), 2.5);
    var goals := Assigned(domain, p.goals, 3.0);
    Assigned(goals, JobKeywords(job), 3.5)
  }

  /** A keyword has a weight exactly when some source mentions it, and its weight is the
      band of the highest-priority source that does. */
  lemma ProfileWeightsBand(p: Persona, job: string)
    ensures forall k :: k in ProfileWeights(p, job) <==> k in CollectedKeywords(p, job)
    ensures forall k <- ProfileWeights(p, job).Keys :: ProfileWeights(p, job)[k] == BandWeight(p, job, k)
  {
    ProfileWeightsKeys(p, job);
    ProfileWeightsValues(p, job);
  }

  lemma AssignedFacts(m: map<string, real>, ks: seq<string>, w: real)
    ensures forall k :: k in Assigned(m, ks, w) <==> k in m || k in ks
    ensures forall k <- Assigned(m, ks, w).Keys :: Assigned(m, ks, w)[k] == if k in ks then w else m[k]
  {
  }

  lemma ProfileWeightsKeys(p: Persona, job: string)
    ensures forall k :: k in ProfileWeights(p, job) <==> k in CollectedKeywords(p, job)
  {
    var role := Assigned(map[], RoleKeywords(p), 2.0);
    var experience := Assigned(role, ExperienceKeywords(p), 1.5);
    var domain := Assigned(experience, PersonaDomainKeywords(p), 2.5);
    var goals := Assigned(domain, p.goals, 3.0);
    AssignedFacts(map[], RoleKeywords(p), 2.0);
    AssignedFacts(role, ExperienceKeywords(p), 1.5);
    AssignedFacts(experience, PersonaDomainKeywords(p), 2.5);
    AssignedFacts(domain, p.goals, 3.0);
    AssignedFacts(goals, JobKeywords(job), 3.5);
    var all := CollectedKeywords(p, job);
    forall k
      ensures k in ProfileWeights(p, job) <==> k in all
    {
      assert k in all <==> k in RoleKeywords(p) || k in ExperienceKeywords(p) || k in PersonaDomainKeywords(p)
                           || k in p.goals || k in JobKeywords(job);
    }
  }

  lemma ProfileWeightsValues(p: Persona, job: string)
    ensures forall k <- ProfileWeights(p, job).Keys :: ProfileWeights(p, job)[k] == BandWeight(p, job, k)
  {
    var role := Assigned(map[], RoleKeywords(p), 2.0);
    var experience := Assigned(role, ExperienceKeywords(p), 1.5);
    var domain := Assigned(experience, PersonaDomainKeywords(p), 2.5);
    var goals := Assigned(domain, p.goals, 3.0);
    AssignedFacts(map[], RoleKeywords(p), 2.0);
    AssignedFacts(role, ExperienceKeywords(p), 1.5);
    AssignedFacts(experience, PersonaDomainKeywords(p), 2.5);
    AssignedFacts(domain, p.goals, 3.0);
    AssignedFacts(goals, JobKeywords(job), 3.5);
  }

  /** Sets the weight of every keyword in `ks` to `w`. */
  method AssignWeights(weights: map<string, real>, ks: seq<string>, w: real) returns (m: map<string, real>)
    ensures m == Assigned(weights, ks, w)
  {
    m := weights;
    for i := 0 to |ks|
      invariant m == Assigned(weights, ks[..i], w)
    {
      assert ks[..i + 1] == ks[..i] + [ks[i]];
      m := m[ks[i] := w];
    }
    assert ks[..|ks|] == ks;
  }

  /** Extends the keyword list by `ks` and gives each of them weight `w`. */
  method AddKeywords(keywords: seq<string>, weights: map<string, real>, ks: seq<string>, w: real)
    returns (keywords': seq<string>, weights': map<string, real>)
    ensures keywords' == keywords + ks && weights' == Assigned(weights, ks, w)
  {
    keywords' := keywords + ks;
    weights' := AssignWeights(weights, ks, w);
  }

  /** The role and experience steps: table lookups on the normalised persona fields. */
  method AddRoleAndExperience(persona: Persona) returns (keywords: seq<string>, weights: map<string, real>)
    ensures keywords == RoleKeywords(persona) + ExperienceKeywords(persona)
    ensures weights == Assigned(Assigned(map[], RoleKeywords(persona), 2.0), ExperienceKeywords(persona), 1.5)
  {
    keywords, weights := AddRole(persona);
    keywords, weights := AddExperience(persona, keywords, weights);
  }

  method AddRole(persona: Persona) returns (keywords: seq<string>, weights: map<string, real>)
    ensures keywords == RoleKeywords(persona)
    ensures weights == Assigned(map[], RoleKeywords(persona), 2.0)
  {
    keywords, weights := [], map[];
    var role := ReplaceChar(Lower(persona.role), ' ', '_');
    if role in RoleTable {
      keywords, weights := AddKeywords(keywords, weights, RoleTable[role], 2.0);
    } else {
      assert weights == Assigned(map[], [], 2.0);
    }
  }

  method AddExperience(persona: Persona, keywords: seq<string>, weights: map<string, real>)
    returns (keywords': seq<string>, weights': map<string, real>)
    ensures keywords' == keywords + ExperienceKeywords(persona)
    ensures weights' == Assigned(weights, ExperienceKeywords(persona), 1.5)
  {
    keywords', weights' := keywords, weights;
    var experience := Lower(persona.experienceLevel);
    if experience in ExperienceTable {
      keywords', weights' := AddKeywords(keywords', weights', ExperienceTable[experience], 1.5);
    } else {
      assert keywords' == keywords + [];
      assert weights' == Assigned(weights, [], 1.5);
    }
  }

  /** The domain step: the domain's keywords at 2.5, and the domain itself as context. */
  method AddDomain(persona: Persona, keywords: seq<string>, weights: map<string, real>)
    returns (keywords': seq<string>, weights': map<string, real>, domainContext: seq<string>)
    ensures keywords' == keywords + PersonaDomainKeywords(persona)
    ensures weights' == Assigned(weights, PersonaDomainKeywords(persona), 2.5)
    ensures domainContext == if persona.domain != [] then [persona.domain] else []
  {
    keywords', weights', domainContext := keywords, weights, [];
    if persona.domain != [] {
      var domainKeywords := DomainKeywords(persona.domain);
      keywords', weights' := AddKeywords(keywords', weights', domainKeywords, 2.5);
      domainContext := domainContext + [persona.domain];
    } else {
      assert weights' == Assigned(weights, [], 2.5);
    }
  }

  /** The goals step: every goal at 3.0. */
  method AddGoals(persona: Persona, keywords: seq<string>, weights: map<string, real>)
    returns (keywords': seq<string>, weights': map<string, real>)
    ensures keywords' == keywords + persona.goals
    ensures weights' == Assigned(weights, persona.goals, 3.0)
  {
    keywords', weights' := keywords, weights;
    if persona.goals != [] {
      keywords', weights' := AddKeywords(keywords', weights', persona.goals, 3.0);
    } else {
      assert weights' == Assigned(weights, [], 3.0);
    }
  }

  method AnalyzePersona(persona: Persona, job: string) returns (profile: Profile)
    ensures profile.persona == persona && profile.jobToBeDone == job
    ensures profile.domainContext == if persona.domain != [] then [persona.domain] else []
    ensures profile.keywords == Distinct(CollectedKeywords(persona, job))
    ensures profile.weights == ProfileWeights(persona, job)
  {
    var keywords, weights := AddRoleAndExperience(persona);
    var domainContext;
    keywords, weights, domainContext := AddDomain(persona, keywords, weights);
    keywords, weights := AddGoals(persona, keywords, weights);
    var jobKeywords := ExtractJobKeywords(job);
    keywords, weights := AddKeywords(keywords, weights, jobKeywords, 3.5);
    profile := Profile(persona, job, Distinct(keywords), weights, domainContext);
  }

  /** The profile's keyword list holds each collected keyword once, and exactly the
      keywords the weight map covers. */
  lemma ProfileKeywordsMatchWeights(p: Persona, job: string)
    ensures forall k :: k in Distinct(CollectedKeywords(p, job)) <==> k in ProfileWeights(p, job)
  {
    ProfileWeightsBand(p, job);
  }
}

/** The persona and job keyword extractors and the `_calculate_*` relevance signals of
    `OptimizedRelevanceScorer`. Every text is lower-cased first; regex searches with
    `re.IGNORECASE` are stated over the lower-cased text, which is the same for ASCII. */
module OptimizedSignals {
  import opened PyStrings

  /** A dictionary entry that may be absent, a string or a list of strings. */
  datatype Field = Missing | Text(text: string) | Items(items: seq<string>)

  datatype Persona = Persona(goals: Field, keywords: Field, role: Option<string>, domain: Field,
                             contextPreferences: Field)

  datatype Job = Job(description: Option<string>, keywords: Field, focusAreas: Field, requirements: Field)

  /** What `keywords.extend(v)` (a list) or `keywords.append(v)` (a string) adds. */
  function FieldValues(f: Field): seq<string> {
    match f
    case Missing => []
    case Text(s) => [s]
    case Items(xs) => xs
  }

  /** What `for x in d.get(field, [])` visits: a string yields its characters. */
  function FieldIteration(f: Field): seq<string> {
    match f
    case Missing => []
    case Text(s) => seq(|s|, i requires 0 <= i < |s| => [s[i]])
    case Items(xs) => xs
  }

  // ---------------------------------------------------------------------------
  // Keyword extraction

  /** `[k.lower() for k in keywords if k]`. */
  function LowerNonEmpty(ks: seq<string>): seq<string> {
    if ks == [] then []
    else (if ks[0] != [] then [Lower(ks[0])] else []) + LowerNonEmpty(ks[1..])
  }

  /** The result holds exactly the lower-cased non-empty inputs, and each is non-empty and
      already lower-case. */
  lemma {:induction false} LowerNonEmptyMembers(ks: seq<string>)
    ensures forall x :: x in LowerNonEmpty(ks) <==> exists k :: k in ks && k != [] && x == Lower(k)
    ensures forall x <- LowerNonEmpty(ks) :: x != [] && Lower(x) == x
  {
    if ks != [] {
      LowerNonEmptyMembers(ks[1..]);
      LowerIdempotent(ks[0]);
      assert forall k :: k in ks <==> k == ks[0] || k in ks[1..];
    }
  }

  lemma LowerOfLowercase(w: string)
    requires All(w, IsLower)
    ensures Lower(w) == w
  {
  }

  /** The keywords `role.lower()` adds, checked in `if`/`elif` order. */
  function RoleExtras(role: string): seq<string> {
    if Contains(role, "travel") then ["destination", "itinerary", "accommodation", "activities"]
    else if Contains(role, "hr") then ["forms", "onboarding", "compliance", "documentation"]
    else if Contains(role, "food") || Contains(role, "contractor") then ["menu", "ingredients", "recipes", "dietary"]
    else []
  }

  /** The role entry as a field: absent, or a string. */
  function RoleField(role: Option<string>): Field {
    if role.Some? then Text(role.value) else Missing
  }

  /** `persona.get('role', '').lower()`. */
  function RoleText(p: Persona): string {
    if p.role.Some? then Lower(p.role.value) else ""
  }

  /** The values of `fields`, in order, as the `for field in [...]` loops collect them. */
  function FieldsValues(fields: seq<Field>): seq<string> {
    if fields == [] then [] else FieldsValues(fields[..|fields| - 1]) + FieldValues(fields[|fields| - 1])
  }

  method CollectFields(fields: seq<Field>) returns (keywords: seq<string>)
    ensures keywords == FieldsValues(fields)
  {
    keywords := [];
    for i := 0 to |fields|
      invariant keywords == FieldsValues(fields[..i])
    {
      assert fields[..i + 1][..i] == fields[..i];
      keywords := keywords + FieldValues(fields[i]);
    }
    assert fields[..|fields|] == fields;
  }

  /** 'goals', 'keywords', 'role', 'domain', 'context_preferences'. */
  function PersonaFields(p: Persona): seq<Field> {
    [p.goals, p.keywords, RoleField(p.role), p.domain, p.contextPreferences]
  }

  /** The values `_extract_persona_keywords` collects, before lower-casing. */
  function PersonaKeywordSources(p: Persona): seq<string> {
    FieldsValues(PersonaFields(p)) + RoleExtras(RoleText(p))
  }

  function PersonaKeywords(p: Persona): seq<string> {
    LowerNonEmpty(PersonaKeywordSources(p))
  }

  method ExtractPersonaKeywords(p: Persona) returns (keywords: seq<string>)
    ensures keywords == PersonaKeywords(p)
  {
    keywords := CollectFields(PersonaFields(p));
    keywords := keywords + RoleExtras(RoleText(p));
    keywords := LowerNonEmpty(keywords);
  }

  /** A persona keyword is exactly a non-empty goal, keyword, role, domain, context
      preference or role extra, lower-cased. */
  lemma PersonaKeywordsMembers(p: Persona)
    ensures forall x :: x in PersonaKeywords(p) <==>
      exists k :: k in PersonaKeywordSources(p) && k != [] && x == Lower(k)
    ensures forall x <- PersonaKeywords(p) :: x != [] && Lower(x) == x
  {
    LowerNonEmptyMembers(PersonaKeywordSources(p));
  }

  /** A lower-case word of at least three letters, as `[a-z]{3,}` needs. */
  predicate DescriptionWord(w: string) {
    |w| >= 3 && All(w, IsLower)
  }

  function FilterDescriptionWords(ws: seq<string>): (r: seq<string>)
    ensures forall w <- r :: w in ws && DescriptionWord(w)
    ensures forall w <- ws :: DescriptionWord(w) ==> w in r
  {
    if ws == [] then []
    else (if DescriptionWord(ws[0]) then [ws[0]] else []) + FilterDescriptionWords(ws[1..])
  }

  /** `re.findall(r'\b[a-z]{3,}\b', description.lower())`: the maximal runs of word
      characters that consist of three or more lower-case letters. */
  function DescriptionWords(description: string): seq<string> {
    FilterDescriptionWords(WordRuns(Lower(description)))
  }

  /** 'keywords', 'focus_areas', 'requirements'. */
  function JobFields(j: Job): seq<Field> {
    [j.keywords, j.focusAreas, j.requirements]
  }

  function JobKeywordSources(j: Job): seq<string> {
    (if j.description.Some? then DescriptionWords(j.description.value) else []) + FieldsValues(JobFields(j))
  }

  function JobKeywords(j: Job): seq<string> {
    LowerNonEmpty(JobKeywordSources(j))
  }

  method ExtractJobKeywords(j: Job) returns (keywords: seq<string>)
    ensures keywords == JobKeywords(j)
  {
    keywords := [];
    if j.description.Some? {
      keywords := DescriptionWords(j.description.value);
    }
    var values := CollectFields(JobFields(j));
    keywords := LowerNonEmpty(keywords + values);
  }

  /** The field values in order: everything in each field, nothing else. */
  lemma {:induction false} FieldsValuesMembers(fields: seq<Field>)
    ensures forall x :: x in FieldsValues(fields) <==> exists f :: f in fields && x in FieldValues(f)
  {
    if fields != [] {
      var init, last := fields[..|fields| - 1], fields[|fields| - 1];
      FieldsValuesMembers(init);
      assert fields == init + [last];
    }
  }

  /** Every word of three or more letters in the description, and every non-empty keyword,
      focus area and requirement (lower-cased), is a job keyword; nothing else is. */
  lemma JobKeywordsMembers(j: Job)
    ensures j.description.Some? ==> forall w <- DescriptionWords(j.description.value) :: w in JobKeywords(j)
    ensures forall f <- JobFields(j), k <- FieldValues(f) :: k != [] ==> Lower(k) in JobKeywords(j)
    ensures forall x :: x in JobKeywords(j) <==> exists k :: k in JobKeywordSources(j) && k != [] && x == Lower(k)
  {
    LowerNonEmptyMembers(JobKeywordSources(j));
    if j.description.Some? {
      forall w <- DescriptionWords(j.description.value)
        ensures w in JobKeywords(j)
      {
        LowerOfLowercase(w);
        assert w in JobKeywordSources(j);
      }
    }
    FieldsValuesMembers(JobFields(j));
    forall f <- JobFields(j), k <- FieldValues(f) | k != []
      ensures Lower(k) in JobKeywords(j)
    {
      assert k in JobKeywordSources(j);
    }
  }

  // ---------------------------------------------------------------------------
  // _calculate_keyword_match

  /** How many of `ks` occur in `t` as substrings. */
  function MatchCount(t: string, ks: seq<string>): (n: nat)
    ensures n <= |ks|
  {
    if ks == [] then 0 else MatchCount(t, ks[..|ks| - 1]) + (if Contains(t, ks[|ks| - 1]) then 1 else 0)
  }

  /** No keyword is counted exactly when none occurs, all are counted exactly when all occur. */
  lemma MatchCountExtremes(t: string, ks: seq<string>)
    ensures MatchCount(t, ks) == 0 <==> forall k <- ks :: !Contains(t, k)
    ensures MatchCount(t, ks) == |ks| <==> forall k <- ks :: Contains(t, k)
  {
    MatchCountZero(t, ks);
    MatchCountAll(t, ks);
  }

  lemma {:induction false} MatchCountZero(t: string, ks: seq<string>)
    ensures MatchCount(t, ks) == 0 <==> forall k <- ks :: !Contains(t, k)
  {
    if ks != [] {
      var init, last := ks[..|ks| - 1], ks[|ks| - 1];
      MatchCountZero(t, init);
      assert MatchCount(t, ks) == MatchCount(t, init) + (if Contains(t, last) then 1 else 0);
      assert forall k :: k in ks <==> k in init || k == last;
      if forall k <- ks :: !Contains(t, k) {
        assert !Contains(t, last);
      }
    }
  }

  lemma {:induction false} MatchCountAll(t: string, ks: seq<string>)
    ensures MatchCount(t, ks) == |ks| <==> forall k <- ks :: Contains(t, k)
  {
    if ks != [] {
      var init, last := ks[..|ks| - 1], ks[|ks| - 1];
      MatchCountAll(t, init);
      assert MatchCount(t, ks) == MatchCount(t, init) + (if Contains(t, last) then 1 else 0);
      assert forall k :: k in ks <==> k in init || k == last;
    }
  }

  function KeywordMatch(content: string, keywords: seq<string>): real {
    MinReal((MatchCount(Lower(content), keywords) as real) / (Max(|keywords|, 1) as real), 1.0)
  }

  /** keyword_match is the fraction of keywords found (the cap at 1 never binds); it is 0
      exactly when no keyword occurs (in particular for no keywords), and 1 exactly when
      there are keywords and all of them occur. */
  lemma KeywordMatchProperties(content: string, keywords: seq<string>)
    ensures var r := KeywordMatch(content, keywords);
      0.0 <= r <= 1.0
      && r == (MatchCount(Lower(content), keywords) as real) / (Max(|keywords|, 1) as real)
      && (r == 0.0 <==> forall k <- keywords :: !Contains(Lower(content), k))
      && (r == 1.0 <==> keywords != [] && forall k <- keywords :: Contains(Lower(content), k))
  {
    var t := Lower(content);
    MatchCountExtremes(t, keywords);
    var m := MatchCount(t, keywords) as real;
    var d := Max(|keywords|, 1) as real;
    assert m <= d;
    RatioAtMostOne(m, d);
    RatioIsOne(m, d);
  }

  lemma RatioAtMostOne(m: real, d: real)
    requires 0.0 <= m <= d && d > 0.0
    ensures 0.0 <= m / d <= 1.0
  {
  }

  lemma RatioIsOne(m: real, d: real)
    requires 0.0 <= m && d > 0.0
    ensures m / d == 1.0 <==> m == d
    ensures m / d == 0.0 <==> m == 0.0
  {
  }

  // ---------------------------------------------------------------------------
  // _calculate_keyword_density

  /** How many of `words` are in `keywords` (`sum(1 for word in words if word in keywords)`). */
  function CountIn(words: seq<string>, keywords: seq<string>): (n: nat)
    ensures n <= |words|
  {
    if words == [] then 0 else (if words[0] in keywords then 1 else 0) + CountIn(words[1..], keywords)
  }

  lemma {:induction false} CountInZero(words: seq<string>, keywords: seq<string>)
    ensures CountIn(words, keywords) == 0 <==> forall w <- words :: w !in keywords
  {
    if words != [] {
      CountInZero(words[1..], keywords);
      assert forall w :: w in words <==> w == words[0] || w in words[1..];
    }
  }

  function KeywordDensity(content: string, keywords: seq<string>): real {
    var words := WordRuns(Lower(content));
    if words == [] then 0.0 else MinReal((CountIn(words, keywords) as real) / (|words| as real), 0.3)
  }

  /** keyword_density lies in [0, 0.3] and is 0 exactly when no word of the content is a
      keyword (in particular when the content has no words). */
  lemma KeywordDensityProperties(content: string, keywords: seq<string>)
    ensures 0.0 <= KeywordDensity(content, keywords) <= 0.3
    ensures KeywordDensity(content, keywords) == 0.0 <==> forall w <- WordRuns(Lower(content)) :: w !in keywords
  {
    var words := WordRuns(Lower(content));
    CountInZero(words, keywords);
    if words != [] {
      RatioAtMostOne(CountIn(words, keywords) as real, |words| as real);
      RatioIsOne(CountIn(words, keywords) as real, |words| as real);
    }
  }

  // ---------------------------------------------------------------------------
  // _calculate_context_relevance

  function ContextRelevance(content: string, persona: Persona, job: Job): real {
    var t := Lower(content);
    var prefs := MatchCount(t, LowerEach(FieldIteration(persona.contextPreferences)));
    var areas := MatchCount(t, LowerEach(FieldIteration(job.focusAreas)));
    MinReal(0.1 * prefs as real + 0.15 * areas as real, 1.0)
  }

  /** `for pref in context_prefs: if pref.lower() in content_lower: score += 0.1` and the
      same for focus areas with 0.15, capped at 1. */
  method CalculateContextRelevance(content: string, persona: Persona, job: Job) returns (score: real)
    ensures score == ContextRelevance(content, persona, job)
  {
    score := 0.0;
    var contentLower := Lower(content);
    var prefs := FieldIteration(persona.contextPreferences);
    var n := CountMatches(contentLower, prefs);
    score := score + 0.1 * n as real;
    var areas := FieldIteration(job.focusAreas);
    var m := CountMatches(contentLower, areas);
    score := score + 0.15 * m as real;
    score := MinReal(score, 1.0);
  }

  /** One of the two loops: how many of `xs`, lower-cased, occur in `t`. */
  method CountMatches(t: string, xs: seq<string>) returns (n: nat)
    ensures n == MatchCount(t, LowerEach(xs))
  {
    n := 0;
    ghost var lowered := LowerEach(xs);
    for i := 0 to |xs|
      invariant n == MatchCount(t, lowered[..i])
    {
      assert lowered[..i + 1][..i] == lowered[..i];
      if Contains(t, Lower(xs[i])) {
        n := n + 1;
      }
    }
    assert lowered[..|xs|] == lowered;
  }

  /** Context relevance lies in [0, 1] and is 0 exactly when no preference and no focus
      area occurs in the content. */
  lemma ContextRelevanceProperties(content: string, persona: Persona, job: Job)
    ensures 0.0 <= ContextRelevance(content, persona, job) <= 1.0
    ensures ContextRelevance(content, persona, job) == 0.0 <==>
      (forall k <- LowerEach(FieldIteration(persona.contextPreferences)) :: !Contains(Lower(content), k))
      && (forall k <- LowerEach(FieldIteration(job.focusAreas)) :: !Contains(Lower(content), k))
  {
    var t := Lower(content);
    MatchCountExtremes(t, LowerEach(FieldIteration(persona.contextPreferences)));
    MatchCountExtremes(t, LowerEach(FieldIteration(job.focusAreas)));
  }

  // ---------------------------------------------------------------------------
  // _calculate_specificity_score: five regex searches over the lower-cased text

  /** Index just past the whitespace run that starts at `j`. */
  function SkipSpaces(t: string, j: nat): (k: nat)
    requires j <= |t|
    ensures j <= k <= |t|
  {
    j + RunLen(t[j..], IsSpace)
  }

  /** Index just past the digit run that starts at `j`. */
  function SkipDigits(t: string, j: nat): (k: nat)
    requires j <= |t|
    ensures j <= k <= |t|
  {
    j + RunLen(t[j..], IsDigit)
  }

  /** `\b` in front of a word character at `i`. */
  predicate BoundaryBefore(t: string, i: nat)
    requires i <= |t|
  {
    i == 0 || !IsWordChar(t[i - 1])
  }

  /** `\b` after a word character ending at `j`. */
  predicate BoundaryAfter(t: string, j: nat)
    requires j <= |t|
  {
    j == |t| || !IsWordChar(t[j])
  }

  /** One of `ws` occurs at `i` (`w1|w2|...`). */
  predicate AnyAt(t: string, i: nat, ws: seq<string>) {
    exists w :: w in ws && MatchAt(t, w, i)
  }

  /** One of `ws` occurs at `i` as a whole word (`\b(w1|w2|...)\b`). */
  predicate AnyWordAt(t: string, i: nat, ws: seq<string>) {
    i <= |t| && BoundaryBefore(t, i) && exists w :: w in ws && MatchAt(t, w, i) && BoundaryAfter(t, i + |w|)
  }

  /** `\d+\s*(days?|hours?|minutes?)`: a digit, optional whitespace, then the unit. */
  predicate TimePattern(t: string) {
    exists j :: 0 < j <= |t| && IsDigit(t[j - 1]) && AnyAt(t, SkipSpaces(t, j), ["day", "hour", "minute"])
  }

  /** `\$\d+|\d+\s*%`: a dollar sign before a digit, or a digit, optional whitespace, '%'. */
  predicate MoneyPattern(t: string) {
    (exists i :: 0 <= i < |t| - 1 && t[i] == '$' && IsDigit(t[i + 1]))
    || (exists j :: 0 < j <= |t| && IsDigit(t[j - 1]) && SkipSpaces(t, j) < |t| && t[SkipSpaces(t, j)] == '%')
  }

  /** `\b\d+\s*(people|person|guests?)\b`: a whole number, optional whitespace, then the
      noun as a whole word. */
  predicate GroupPattern(t: string) {
    exists i :: 0 <= i < |t| && IsDigit(t[i]) && BoundaryBefore(t, i)
      && AnyWordEndAt(t, SkipSpaces(t, SkipDigits(t, i)), ["people", "person", "guest", "guests"])
  }

  /** One of `ws` occurs at `i` and ends on a word boundary. */
  predicate AnyWordEndAt(t: string, i: nat, ws: seq<string>) {
    exists w :: w in ws && MatchAt(t, w, i) && BoundaryAfter(t, i + |w|)
  }

  /** `\b(step\s*\d+|instruction|procedure|method)\b`. */
  predicate InstructionPattern(t: string) {
    exists i :: 0 <= i <= |t| && (StepAt(t, i) || AnyWordAt(t, i, ["instruction", "procedure", "method"]))
  }

  /** `\bstep\s*\d+\b` at `i`. */
  predicate StepAt(t: string, i: nat) {
    i <= |t| && BoundaryBefore(t, i) && MatchAt(t, "step", i)
    && var j := SkipSpaces(t, i + 4);
       j < |t| && IsDigit(t[j]) && BoundaryAfter(t, SkipDigits(t, j))
  }

  /** `\b(gluten-free|vegetarian|vegan|dietary)\b`. */
  predicate DietaryPattern(t: string) {
    exists i :: 0 <= i <= |t| && AnyWordAt(t, i, DietaryWords)
  }

  const DietaryWords: seq<string> := ["gluten-free", "vegetarian", "vegan", "dietary"]

  /** Whether the `p`-th specific pattern (0-based, source order) occurs in `t`. */
  predicate PatternMatches(p: nat, t: string) {
    if p == 0 then TimePattern(t)
    else if p == 1 then MoneyPattern(t)
    else if p == 2 then GroupPattern(t)
    else if p == 3 then InstructionPattern(t)
    else p == 4 && DietaryPattern(t)
  }

  /** How many of the first `n` patterns occur. */
  function PatternCount(t: string, n: nat): (c: nat)
    ensures c <= n
  {
    if n == 0 then 0 else PatternCount(t, n - 1) + (if PatternMatches(n - 1, t) then 1 else 0)
  }

  function Specificity(content: string): real {
    MinReal(0.2 * PatternCount(Lower(content), 5) as real, 1.0)
  }

  method CalculateSpecificity(content: string) returns (score: real)
    ensures score == Specificity(content)
  {
    score := 0.0;
    var t := Lower(content);
    for p := 0 to 5
      invariant score == 0.2 * PatternCount(t, p) as real
    {
      if PatternMatches(p, t) {
        score := score + 0.2;
      }
    }
    score := MinReal(score, 1.0);
  }

  /** The score is 0.2 per pattern found (the cap never binds), so it lies in [0, 1]; a
      whole dietary word such as "vegan" alone earns 0.2. */
  lemma SpecificityProperties(content: string)
    ensures Specificity(content) == 0.2 * PatternCount(Lower(content), 5) as real
    ensures 0.0 <= Specificity(content) <= 1.0
    ensures DietaryPattern(Lower(content)) ==> Specificity(content) >= 0.2
  {
    var t := Lower(content);
    if DietaryPattern(t) {
      assert PatternMatches(4, t);
      assert PatternCount(t, 5) >= 1;
    }
  }

  // ---------------------------------------------------------------------------
  // _calculate_actionability_score

  const ActionWords: seq<string> := ["plan", "create", "prepare", "organize", "implement", "design",
                                     "choose", "select", "include", "consider", "recommend", "suggest"]

  function Actionability(content: string): real {
    MinReal(MatchCount(Lower(content), ActionWords) as real * 0.1, 1.0)
  }

  /** 0.1 per action word found, capped at 1: so it lies in [0, 1], is 0 exactly when no
      action word occurs and reaches 1 exactly when ten or more do. */
  lemma ActionabilityProperties(content: string)
    ensures 0.0 <= Actionability(content) <= 1.0
    ensures Actionability(content) == 0.0 <==> forall k <- ActionWords :: !Contains(Lower(content), k)
    ensures Actionability(content) == 1.0 <==> MatchCount(Lower(content), ActionWords) >= 10
  {
    MatchCountExtremes(Lower(content), ActionWords);
  }

  // ---------------------------------------------------------------------------
  // _calculate_content_quality

  /** len/1000 below 1000 characters, max(1000/len, 0.5) from there on. */
  function LengthScore(n: nat): real {
    if n < 1000 then MinReal(n as real / 1000.0, 1.0) else MaxReal(1000.0 / n as real, 0.5)
  }

  /** The length term lies in [0, 1], is at least 0.5 exactly from 500 characters on, and
      is 1 exactly at 1000 characters. */
  lemma LengthScoreProperties(n: nat)
    ensures 0.0 <= LengthScore(n) <= 1.0
    ensures LengthScore(n) >= 0.5 <==> n >= 500
    ensures LengthScore(n) == 1.0 <==> n == 1000
  {
    if n > 1000 {
      assert 1000.0 / n as real < 1.0 by { RatioBelowOne(1000.0, n as real); }
    }
  }

  lemma RatioBelowOne(m: real, d: real)
    requires 0.0 <= m < d
    ensures m / d < 1.0
  {
  }

  /** `len(set(words)) / max(len(words), 1) if words else 0`. */
  function Diversity(words: seq<string>): real {
    if words == [] then 0.0 else (|(set w | w in words)| as real) / (|words| as real)
  }

  lemma {:induction false} SetCardAtMost(words: seq<string>)
    ensures |(set w | w in words)| <= |words|
  {
    if words != [] {
      SetCardAtMost(words[1..]);
      assert (set w | w in words) == (set w | w in words[1..]) + {words[0]};
    }
  }

  function ContentQuality(content: string): real {
    (LengthScore(|content|) + Diversity(WordRuns(Lower(content)))) / 2.0
  }

  /** content_quality is the mean of two terms in [0, 1], so it lies in [0, 1]; empty
      content scores 0. */
  lemma ContentQualityProperties(content: string)
    ensures 0.0 <= ContentQuality(content) <= 1.0
    ensures content == [] ==> ContentQuality(content) == 0.0
  {
    var words := WordRuns(Lower(content));
    LengthScoreProperties(|content|);
    if words != [] {
      SetCardAtMost(words);
      RatioAtMostOne(|(set w | w in words)| as real, |words| as real);
    }
  }
}

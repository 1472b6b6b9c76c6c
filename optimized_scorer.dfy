/** `OptimizedRelevanceScorer`: section and sub-section scoring, the stack ranking and the
    weighted total of `calculate_enhanced_relevance_score`. */
module OptimizedScorer {
  import opened PyStrings
  import opened OptimizedSections
  import opened OptimizedSignals
  import Ranking

  datatype SectionScore = SectionScore(title: string, content: string, relevance: real, keywordMatch: real,
                                       contextRelevance: real, contentQuality: real, subsectionCount: nat)

  datatype SubsectionScore = SubsectionScore(parentSection: string, title: string, content: string, relevance: real,
                                             keywordDensity: real, specificity: real, actionability: real,
                                             sentenceCount: nat)

  /** `section_weight` and `subsection_weight`. */
  const SectionWeight: real := 0.6
  const SubsectionWeight: real := 0.4

  // ---------------------------------------------------------------------------
  // _calculate_section_relevance

  /** `content[:200] + '...' if len(content) > 200 else content`. */
  function Preview(content: string): string {
    if |content| > 200 then content[..200] + "..." else content
  }

  function ScoreSection(section: DocSection, keywords: seq<string>, persona: Persona, job: Job): SectionScore {
    var km := KeywordMatch(section.content, keywords);
    var cr := ContextRelevance(section.content, persona, job);
    var cq := ContentQuality(section.content);
    SectionScore(section.title, Preview(section.content), km * 0.4 + cr * 0.4 + cq * 0.2, km, cr, cq,
                 |section.subsections|)
  }

  /** The section scores in extraction order, before sorting. */
  function UnsortedSectionScores(sections: seq<DocSection>, keywords: seq<string>, persona: Persona, job: Job)
    : (r: seq<SectionScore>)
    ensures |r| == |sections|
    ensures forall i :: 0 <= i < |r| ==> r[i] == ScoreSection(sections[i], keywords, persona, job)
  {
    if sections == [] then []
    else UnsortedSectionScores(sections[..|sections| - 1], keywords, persona, job)
         + [ScoreSection(sections[|sections| - 1], keywords, persona, job)]
  }

  function SectionKey(s: SectionScore): real { s.relevance }

  /** The section scores sorted by relevance, highest first. */
  function SectionScores(sections: seq<DocSection>, persona: Persona, job: Job): seq<SectionScore> {
    Ranking.SortDesc(UnsortedSectionScores(sections, PersonaKeywords(persona) + JobKeywords(job), persona, job),
                     SectionKey)
  }

  method ScoreSectionStep(section: DocSection, keywords: seq<string>, persona: Persona, job: Job)
    returns (s: SectionScore)
    ensures s == ScoreSection(section, keywords, persona, job)
  {
    var km := KeywordMatch(section.content, keywords);
    var cr := CalculateContextRelevance(section.content, persona, job);
    var cq := ContentQuality(section.content);
    s := SectionScore(section.title, Preview(section.content), km * 0.4 + cr * 0.4 + cq * 0.2, km, cr, cq,
                      |section.subsections|);
  }

  method CalculateSectionRelevance(sections: seq<DocSection>, persona: Persona, job: Job)
    returns (r: seq<Ranking.Ranked<SectionScore>>)
    ensures |r| == |sections|
    ensures forall i :: 0 <= i < |r| ==>
      r[i].entry == SectionScores(sections, persona, job)[i] && r[i].rank == i + 1
  {
    var personaKeywords := ExtractPersonaKeywords(persona);
    var jobKeywords := ExtractJobKeywords(job);
    var keywords := personaKeywords + jobKeywords;
    var scores := ScoreAllSections(sections, keywords, persona, job);
    var sorted := Ranking.SortDesc(scores, SectionKey);
    r := Ranking.AssignRanks(sorted);
  }

  /** The scoring loop of `_calculate_section_relevance`, in document order. */
  method ScoreAllSections(sections: seq<DocSection>, keywords: seq<string>, persona: Persona, job: Job)
    returns (scores: seq<SectionScore>)
    ensures scores == UnsortedSectionScores(sections, keywords, persona, job)
  {
    scores := [];
    for i := 0 to |sections|
      invariant scores == UnsortedSectionScores(sections[..i], keywords, persona, job)
    {
      assert sections[..i + 1][..i] == sections[..i];
      var s := ScoreSectionStep(sections[i], keywords, persona, job);
      scores := scores + [s];
    }
    assert sections[..|sections|] == sections;
  }

  /** A section's score keeps its title and sub-section count, stores at most 203
      characters of content (the first 200 and "..." when longer), and its relevance
      0.4·keyword_match + 0.4·context + 0.2·quality lies in [0, 1]. */
  lemma ScoreSectionProperties(section: DocSection, keywords: seq<string>, persona: Persona, job: Job)
    ensures var s := ScoreSection(section, keywords, persona, job);
      s.title == section.title && s.subsectionCount == |section.subsections|
      && (|section.content| <= 200 ==> s.content == section.content)
      && (|section.content| > 200 ==> |s.content| == 203 && s.content[..200] == section.content[..200]
                                      && s.content[200..] == "...")
      && 0.0 <= s.relevance <= 1.0
  {
    ScoreSectionUnit(section, keywords, persona, job);
  }

  /** The section list is sorted by relevance, highest first; it is a permutation of the
      scored sections; sections of equal relevance keep their document order; and every
      relevance lies in [0, 1]. */
  lemma SectionScoresRanked(sections: seq<DocSection>, persona: Persona, job: Job)
    ensures var keywords := PersonaKeywords(persona) + JobKeywords(job);
      var unsorted := UnsortedSectionScores(sections, keywords, persona, job);
      var sorted := SectionScores(sections, persona, job);
      Ranking.SortedDesc(sorted, SectionKey)
      && multiset(sorted) == multiset(unsorted)
      && (forall v :: Ranking.KeyFilter(sorted, SectionKey, v) == Ranking.KeyFilter(unsorted, SectionKey, v))
      && forall s <- sorted :: 0.0 <= s.relevance <= 1.0
  {
    var keywords := PersonaKeywords(persona) + JobKeywords(job);
    var unsorted := UnsortedSectionScores(sections, keywords, persona, job);
    var sorted := SectionScores(sections, persona, job);
    Ranking.SortDescSorted(unsorted, SectionKey);
    Ranking.SortDescPermutation(unsorted, SectionKey);
    forall v {
      Ranking.SortDescStable(unsorted, SectionKey, v);
    }
    SectionScoresUnit(sections, persona, job);
  }

  lemma SectionScoresUnit(sections: seq<DocSection>, persona: Persona, job: Job)
    ensures forall s <- SectionScores(sections, persona, job) :: 0.0 <= s.relevance <= 1.0
  {
    var keywords := PersonaKeywords(persona) + JobKeywords(job);
    var unsorted := UnsortedSectionScores(sections, keywords, persona, job);
    Ranking.SortDescMembers(unsorted, SectionKey);
    UnsortedSectionScoresUnit(sections, keywords, persona, job);
  }

  /** Every section score before sorting lies in [0, 1]. */
  lemma UnsortedSectionScoresUnit(sections: seq<DocSection>, keywords: seq<string>, persona: Persona, job: Job)
    ensures forall s <- UnsortedSectionScores(sections, keywords, persona, job) :: 0.0 <= s.relevance <= 1.0
  {
    var unsorted := UnsortedSectionScores(sections, keywords, persona, job);
    forall s <- unsorted
      ensures 0.0 <= s.relevance <= 1.0
    {
      var i :| 0 <= i < |unsorted| && unsorted[i] == s;
      ScoreSectionUnit(sections[i], keywords, persona, job);
    }
  }

  lemma ScoreSectionUnit(section: DocSection, keywords: seq<string>, persona: Persona, job: Job)
    ensures 0.0 <= ScoreSection(section, keywords, persona, job).relevance <= 1.0
  {
    KeywordMatchProperties(section.content, keywords);
    ContextRelevanceProperties(section.content, persona, job);
    ContentQualityProperties(section.content);
  }

  // ---------------------------------------------------------------------------
  // _calculate_subsection_relevance

  function ScoreSubsection(parent: string, sub: Subsection, keywords: seq<string>): SubsectionScore {
    var kd := KeywordDensity(sub.content, keywords);
    var sp := Specificity(sub.content);
    var ac := Actionability(sub.content);
    SubsectionScore(parent, sub.title, sub.content, kd * 0.35 + sp * 0.35 + ac * 0.3, kd, sp, ac, sub.sentenceCount)
  }

  /** The scores of one section's sub-sections, in order. */
  function ScoreSubsections(parent: string, subs: seq<Subsection>, keywords: seq<string>): seq<SubsectionScore> {
    if subs == [] then []
    else ScoreSubsections(parent, subs[..|subs| - 1], keywords) + [ScoreSubsection(parent, subs[|subs| - 1], keywords)]
  }

  /** The sub-sections of all sections pooled in document order, before sorting. */
  function PooledScores(sections: seq<DocSection>, keywords: seq<string>): seq<SubsectionScore> {
    if sections == [] then []
    else
      var last := sections[|sections| - 1];
      PooledScores(sections[..|sections| - 1], keywords) + ScoreSubsections(last.title, last.subsections, keywords)
  }

  function SubsectionKey(s: SubsectionScore): real { s.relevance }

  /** All sub-sections sorted by relevance, highest first. */
  function SubsectionScores(sections: seq<DocSection>, persona: Persona, job: Job): seq<SubsectionScore> {
    Ranking.SortDesc(PooledScores(sections, PersonaKeywords(persona) + JobKeywords(job)), SubsectionKey)
  }

  method ScoreSubsectionStep(parent: string, sub: Subsection, keywords: seq<string>) returns (s: SubsectionScore)
    ensures s == ScoreSubsection(parent, sub, keywords)
  {
    var kd := KeywordDensity(sub.content, keywords);
    var sp := CalculateSpecificity(sub.content);
    var ac := Actionability(sub.content);
    s := SubsectionScore(parent, sub.title, sub.content, kd * 0.35 + sp * 0.35 + ac * 0.3, kd, sp, ac, sub.sentenceCount);
  }

  /** The inner loop over one section's sub-sections. */
  method ScoreSectionSubsections(parent: string, subs: seq<Subsection>, keywords: seq<string>)
    returns (r: seq<SubsectionScore>)
    ensures r == ScoreSubsections(parent, subs, keywords)
  {
    r := [];
    for k := 0 to |subs|
      invariant r == ScoreSubsections(parent, subs[..k], keywords)
    {
      assert subs[..k + 1][..k] == subs[..k];
      var s := ScoreSubsectionStep(parent, subs[k], keywords);
      r := r + [s];
    }
    assert subs[..|subs|] == subs;
  }

  method CalculateSubsectionRelevance(sections: seq<DocSection>, persona: Persona, job: Job)
    returns (r: seq<Ranking.Ranked<SubsectionScore>>)
    ensures |r| == |SubsectionScores(sections, persona, job)|
    ensures forall i :: 0 <= i < |r| ==>
      r[i].entry == SubsectionScores(sections, persona, job)[i] && r[i].rank == i + 1
  {
    var personaKeywords := ExtractPersonaKeywords(persona);
    var jobKeywords := ExtractJobKeywords(job);
    var keywords := personaKeywords + jobKeywords;
    var all: seq<SubsectionScore> := [];
    for i := 0 to |sections|
      invariant all == PooledScores(sections[..i], keywords)
    {
      assert sections[..i + 1][..i] == sections[..i];
      var scored := ScoreSectionSubsections(sections[i].title, sections[i].subsections, keywords);
      all := all + scored;
    }
    assert sections[..|sections|] == sections;
    var sorted := Ranking.SortDesc(all, SubsectionKey);
    r := Ranking.AssignRanks(sorted);
  }

  /** 0.35·density + 0.35·specificity + 0.3·actionability, with density at most 0.3,
      lies in [0, 0.755]. */
  lemma ScoreSubsectionProperties(parent: string, sub: Subsection, keywords: seq<string>)
    ensures var s := ScoreSubsection(parent, sub, keywords);
      s.parentSection == parent && s.title == sub.title && s.content == sub.content
      && s.sentenceCount == sub.sentenceCount && 0.0 <= s.relevance <= 0.755
  {
    KeywordDensityProperties(sub.content, keywords);
    SpecificityProperties(sub.content);
    ActionabilityProperties(sub.content);
  }

  lemma {:induction false} ScoreSubsectionsMembers(parent: string, subs: seq<Subsection>, keywords: seq<string>)
    ensures |ScoreSubsections(parent, subs, keywords)| == |subs|
    ensures forall k :: 0 <= k < |subs| ==>
      ScoreSubsections(parent, subs, keywords)[k] == ScoreSubsection(parent, subs[k], keywords)
  {
    if subs != [] {
      var init := subs[..|subs| - 1];
      var last := |subs| - 1;
      var r := ScoreSubsections(parent, subs, keywords);
      ScoreSubsectionsMembers(parent, init, keywords);
      assert r == ScoreSubsections(parent, init, keywords) + [ScoreSubsection(parent, subs[last], keywords)];
      forall k | 0 <= k < |subs|
        ensures r[k] == ScoreSubsection(parent, subs[k], keywords)
      {
        if k < last {
          assert subs[k] == init[k];
        }
      }
    }
  }

  /** Number of sub-sections over all sections. */
  function SubsectionTotal(sections: seq<DocSection>): nat {
    if sections == [] then 0 else SubsectionTotal(sections[..|sections| - 1]) + |sections[|sections| - 1].subsections|
  }

  /** Pooling loses nothing and adds nothing: there is one entry per sub-section of every
      section, and each entry is some section's sub-section scored under that section's
      title, and vice versa. */
  lemma {:induction false} PooledScoresMembers(sections: seq<DocSection>, keywords: seq<string>)
    ensures |PooledScores(sections, keywords)| == SubsectionTotal(sections)
    ensures forall e :: e in PooledScores(sections, keywords) <==>
      exists i, k :: 0 <= i < |sections| && 0 <= k < |sections[i].subsections|
        && e == ScoreSubsection(sections[i].title, sections[i].subsections[k], keywords)
  {
    if sections != [] {
      var init, last := sections[..|sections| - 1], sections[|sections| - 1];
      PooledScoresMembers(init, keywords);
      ScoreSubsectionsMembers(last.title, last.subsections, keywords);
      var tail := ScoreSubsections(last.title, last.subsections, keywords);
      assert PooledScores(sections, keywords) == PooledScores(init, keywords) + tail;
      forall e | e in PooledScores(sections, keywords)
        ensures (exists i, k :: 0 <= i < |sections| && 0 <= k < |sections[i].subsections|
                   && e == ScoreSubsection(sections[i].title, sections[i].subsections[k], keywords))
      {
        if e in PooledScores(init, keywords) {
          var i, k :| 0 <= i < |init| && 0 <= k < |init[i].subsections|
            && e == ScoreSubsection(init[i].title, init[i].subsections[k], keywords);
          assert sections[i] == init[i];
        } else {
          var k :| 0 <= k < |tail| && tail[k] == e;
          assert sections[|sections| - 1] == last;
        }
      }
      forall e, i, k | 0 <= i < |sections| && 0 <= k < |sections[i].subsections|
          && e == ScoreSubsection(sections[i].title, sections[i].subsections[k], keywords)
        ensures e in PooledScores(sections, keywords)
      {
        if i < |init| {
          assert sections[i] == init[i];
        } else {
          assert tail[k] == e;
        }
      }
    }
  }

  /** Every pooled sub-section's relevance lies in [0, 0.755]. */
  lemma PooledScoresRange(sections: seq<DocSection>, keywords: seq<string>)
    ensures forall s <- PooledScores(sections, keywords) :: 0.0 <= s.relevance <= 0.755
  {
    PooledScoresMembers(sections, keywords);
    forall s <- PooledScores(sections, keywords)
      ensures 0.0 <= s.relevance <= 0.755
    {
      var i, k :| 0 <= i < |sections| && 0 <= k < |sections[i].subsections|
        && s == ScoreSubsection(sections[i].title, sections[i].subsections[k], keywords);
      ScoreSubsectionProperties(sections[i].title, sections[i].subsections[k], keywords);
    }
  }

  /** Both scored lists come out in non-increasing relevance order. */
  lemma ScoresSorted(sections: seq<DocSection>, persona: Persona, job: Job)
    ensures Ranking.SortedDesc(SectionScores(sections, persona, job), SectionKey)
    ensures Ranking.SortedDesc(SubsectionScores(sections, persona, job), SubsectionKey)
  {
    SectionScoresRanked(sections, persona, job);
    SubsectionScoresRanked(sections, persona, job);
  }

  /** The sub-section list is sorted by relevance, highest first; it is a permutation of the
      pooled sub-sections; equal relevances keep document order; every relevance lies in
      [0, 0.755]. */
  lemma SubsectionScoresRanked(sections: seq<DocSection>, persona: Persona, job: Job)
    ensures var keywords := PersonaKeywords(persona) + JobKeywords(job);
      var pooled := PooledScores(sections, keywords);
      var sorted := SubsectionScores(sections, persona, job);
      Ranking.SortedDesc(sorted, SubsectionKey)
      && multiset(sorted) == multiset(pooled)
      && (forall v :: Ranking.KeyFilter(sorted, SubsectionKey, v) == Ranking.KeyFilter(pooled, SubsectionKey, v))
      && forall s <- sorted :: 0.0 <= s.relevance <= 0.755
  {
    var keywords := PersonaKeywords(persona) + JobKeywords(job);
    var pooled := PooledScores(sections, keywords);
    var sorted := SubsectionScores(sections, persona, job);
    Ranking.SortDescSorted(pooled, SubsectionKey);
    Ranking.SortDescPermutation(pooled, SubsectionKey);
    forall v {
      Ranking.SortDescStable(pooled, SubsectionKey, v);
    }
    PooledScoresRange(sections, keywords);
    forall s <- sorted
      ensures 0.0 <= s.relevance <= 0.755
    {
      assert s in multiset(pooled);
    }
  }

  // ---------------------------------------------------------------------------
  // _create_stack_ranking

  datatype StackRanking = StackRanking(topSections: seq<Ranking.Ranked<SectionScore>>,
                                       topSubsections: seq<Ranking.Ranked<SubsectionScore>>,
                                       sectionCriteria: seq<string>, subsectionCriteria: seq<string>)

  function CreateStackRanking(sections: seq<Ranking.Ranked<SectionScore>>,
                              subsections: seq<Ranking.Ranked<SubsectionScore>>): StackRanking {
    StackRanking(sections[..Min(10, |sections|)], subsections[..Min(20, |subsections|)],
                 ["keyword_match (40%)", "context_relevance (40%)", "content_quality (20%)"],
                 ["keyword_density (35%)", "specificity_score (35%)", "actionability_score (30%)"])
  }

  /** The stack ranking keeps min(10, n) sections and min(20, m) sub-sections, and none
      left out scores above one kept. */
  lemma StackRankingKeepsBest(sections: seq<DocSection>, persona: Persona, job: Job)
    ensures var s := SectionScores(sections, persona, job);
      forall i, k :: 0 <= i < Min(10, |s|) <= k < |s| ==> s[i].relevance >= s[k].relevance
    ensures var s := SubsectionScores(sections, persona, job);
      forall i, k :: 0 <= i < Min(20, |s|) <= k < |s| ==> s[i].relevance >= s[k].relevance
  {
    var keywords := PersonaKeywords(persona) + JobKeywords(job);
    Ranking.TopKOfSorted(UnsortedSectionScores(sections, keywords, persona, job), SectionKey, 10);
    Ranking.TopKOfSorted(PooledScores(sections, keywords), SubsectionKey, 20);
  }

  // ---------------------------------------------------------------------------
  // _calculate_weighted_score

  function SectionRelevances(xs: seq<SectionScore>): seq<real> {
    seq(|xs|, i requires 0 <= i < |xs| => xs[i].relevance)
  }

  function SubsectionRelevances(xs: seq<SubsectionScore>): seq<real> {
    seq(|xs|, i requires 0 <= i < |xs| => xs[i].relevance)
  }

  /** The weighted total as written: the averages divide by min(5, #sections) and
      min(10, #sub-sections), so an empty list raises ZeroDivisionError. */
  function WeightedScoreAsWritten(sectionRelevances: seq<real>, subsectionRelevances: seq<real>): Result<real> {
    var n5 := Min(5, |sectionRelevances|);
    if n5 == 0 then Raises(ZeroDivisionError)
    else
      var avgSection := SumReal(sectionRelevances[..n5]) / n5 as real;
      var n10 := Min(10, |subsectionRelevances|);
      if n10 == 0 then Raises(ZeroDivisionError)
      else
        var avgSubsection := SumReal(subsectionRelevances[..n10]) / n10 as real;
        Ok(avgSection * SectionWeight + avgSubsection * SubsectionWeight)
  }

  /** The mean, and 0 for an empty list. */
  function Average(xs: seq<real>): real {
    if xs == [] then 0.0 else SumReal(xs) / |xs| as real
  }

  /** The weighted total with an empty list contributing 0. */
  function WeightedScore(sectionRelevances: seq<real>, subsectionRelevances: seq<real>): real {
    Average(sectionRelevances[..Min(5, |sectionRelevances|)]) * SectionWeight
    + Average(subsectionRelevances[..Min(10, |subsectionRelevances|)]) * SubsectionWeight
  }

  /** The code as written fails exactly when one of the lists is empty, and agrees with the
      corrected total otherwise. */
  lemma WeightedScoreAgrees(sectionRelevances: seq<real>, subsectionRelevances: seq<real>)
    ensures WeightedScoreAsWritten(sectionRelevances, subsectionRelevances).Raises?
      <==> sectionRelevances == [] || subsectionRelevances == []
    ensures WeightedScoreAsWritten(sectionRelevances, subsectionRelevances).Raises? ==>
      WeightedScoreAsWritten(sectionRelevances, subsectionRelevances).error == ZeroDivisionError
    ensures WeightedScoreAsWritten(sectionRelevances, subsectionRelevances).Ok? ==>
      WeightedScoreAsWritten(sectionRelevances, subsectionRelevances).value
        == WeightedScore(sectionRelevances, subsectionRelevances)
  {
  }

  lemma {:induction false} SumRealUnit(xs: seq<real>)
    requires forall x <- xs :: 0.0 <= x <= 1.0
    ensures 0.0 <= SumReal(xs) <= |xs| as real
  {
    if xs != [] {
      assert xs[0] in xs;
      assert forall x <- xs[1..] :: x in xs;
      SumRealUnit(xs[1..]);
    }
  }

  lemma AverageUnit(xs: seq<real>)
    requires forall x <- xs :: 0.0 <= x <= 1.0
    ensures 0.0 <= Average(xs) <= 1.0
  {
    if xs != [] {
      SumRealUnit(xs);
      RatioAtMostOne(SumReal(xs), |xs| as real);
    }
  }

  /** With relevances in [0, 1] the corrected total lies in [0, 1]. */
  lemma WeightedScoreRange(sectionRelevances: seq<real>, subsectionRelevances: seq<real>)
    requires forall x <- sectionRelevances :: 0.0 <= x <= 1.0
    requires forall x <- subsectionRelevances :: 0.0 <= x <= 1.0
    ensures 0.0 <= WeightedScore(sectionRelevances, subsectionRelevances) <= 1.0
  {
    var a := sectionRelevances[..Min(5, |sectionRelevances|)];
    var b := subsectionRelevances[..Min(10, |subsectionRelevances|)];
    assert forall x <- a :: x in sectionRelevances;
    assert forall x <- b :: x in subsectionRelevances;
    AverageUnit(a);
    AverageUnit(b);
  }

  /** A one-line document of at most 19 non-blank characters, "Hello world." for one, has no
      sentence fragment over 20 characters and so no sub-section: the weighted total as
      written divides by zero. */
  lemma ShortDocumentRaises(doc: string, persona: Persona, job: Job)
    requires '\n' !in doc && Strip(doc) != [] && |Strip(doc)| <= 19
    ensures WeightedScoreAsWritten(SectionRelevances(SectionScores(Sections(doc), persona, job)),
                                   SubsectionRelevances(SubsectionScores(Sections(doc), persona, job)))
            == Raises(ZeroDivisionError)
  {
    ShortLineDocument(doc);
    var sections := Sections(doc);
    SingleSectionWithoutSubsections(sections, persona, job);
    WeightedScoreAgrees(SectionRelevances(SectionScores(sections, persona, job)), []);
  }

  lemma SingleSectionWithoutSubsections(sections: seq<DocSection>, persona: Persona, job: Job)
    requires |sections| == 1 && sections[0].subsections == []
    ensures SubsectionRelevances(SubsectionScores(sections, persona, job)) == []
  {
    var keywords := PersonaKeywords(persona) + JobKeywords(job);
    assert sections[..0] == [];
    assert PooledScores(sections, keywords) == [];
  }

  /** The document "Hello world." makes the weighted total as written raise. */
  lemma HelloWorldRaises(doc: string, persona: Persona, job: Job)
    requires doc == "Hello world."
    ensures WeightedScoreAsWritten(SectionRelevances(SectionScores(Sections(doc), persona, job)),
                                   SubsectionRelevances(SubsectionScores(Sections(doc), persona, job)))
            == Raises(ZeroDivisionError)
  {
    HelloWorldIsShort();
    ShortDocumentRaises(doc, persona, job);
  }

  /** "Hello world." is one line of twelve non-blank-edged characters. */
  lemma HelloWorldIsShort()
    ensures '\n' !in "Hello world." && Strip("Hello world.") != [] && |Strip("Hello world.")| <= 19
  {
    StripTrimmed("Hello world.");
  }

  // ---------------------------------------------------------------------------
  // calculate_enhanced_relevance_score

  datatype Report = Report(sectionScores: seq<Ranking.Ranked<SectionScore>>,
                           subsectionScores: seq<Ranking.Ranked<SubsectionScore>>,
                           overallRanking: StackRanking, totalScore: real,
                           sectionContribution: real, subsectionContribution: real)

  /** With every section relevance in [0, 1] and every sub-section relevance in
      [0, 0.755], the total lies in [0, 1]. */
  lemma TotalScoreRange(sections: seq<DocSection>, persona: Persona, job: Job)
    ensures var total := WeightedScore(SectionRelevances(SectionScores(sections, persona, job)),
                                       SubsectionRelevances(SubsectionScores(sections, persona, job)));
      0.0 <= total <= 1.0
  {
    SectionRelevancesUnit(sections, persona, job);
    SubsectionRelevancesUnit(sections, persona, job);
    WeightedScoreRange(SectionRelevances(SectionScores(sections, persona, job)),
                       SubsectionRelevances(SubsectionScores(sections, persona, job)));
  }

  lemma SectionRelevancesUnit(sections: seq<DocSection>, persona: Persona, job: Job)
    ensures forall x <- SectionRelevances(SectionScores(sections, persona, job)) :: 0.0 <= x <= 1.0
  {
    var secs := SectionScores(sections, persona, job);
    SectionScoresUnit(sections, persona, job);
    forall x <- SectionRelevances(secs) ensures 0.0 <= x <= 1.0 {
      var i :| 0 <= i < |secs| && SectionRelevances(secs)[i] == x;
      assert secs[i] in secs;
    }
  }

  lemma SubsectionRelevancesUnit(sections: seq<DocSection>, persona: Persona, job: Job)
    ensures forall x <- SubsectionRelevances(SubsectionScores(sections, persona, job)) :: 0.0 <= x <= 1.0
  {
    var subs := SubsectionScores(sections, persona, job);
    SubsectionScoresRanked(sections, persona, job);
    forall x <- SubsectionRelevances(subs) ensures 0.0 <= x <= 1.0 {
      var i :| 0 <= i < |subs| && SubsectionRelevances(subs)[i] == x;
      assert subs[i] in subs;
    }
  }

  /** The weighted total over the ranked lists, which carry the sorted lists' relevances. */
  method RankedTotal(secRanked: seq<Ranking.Ranked<SectionScore>>, subRanked: seq<Ranking.Ranked<SubsectionScore>>,
                     ghost secs: seq<SectionScore>, ghost subs: seq<SubsectionScore>)
    returns (total: real)
    requires |secRanked| == |secs| && forall i :: 0 <= i < |secs| ==> secRanked[i].entry == secs[i]
    requires |subRanked| == |subs| && forall i :: 0 <= i < |subs| ==> subRanked[i].entry == subs[i]
    ensures total == WeightedScore(SectionRelevances(secs), SubsectionRelevances(subs))
  {
    var secRel := seq(|secRanked|, i requires 0 <= i < |secRanked| => secRanked[i].entry.relevance);
    var subRel := seq(|subRanked|, i requires 0 <= i < |subRanked| => subRanked[i].entry.relevance);
    assert secRel == SectionRelevances(secs);
    assert subRel == SubsectionRelevances(subs);
    total := WeightedScore(secRel, subRel);
  }

  /** Scores and ranks the sections and their sub-sections, and totals the result with the
      corrected weighted score, which lies in [0, 1]; where either list is empty the code as
      written raises ZeroDivisionError instead (see `WeightedScoreAgrees`). */
  method ScoreSections(sections: seq<DocSection>, persona: Persona, job: Job) returns (r: Report)
    ensures var secs := SectionScores(sections, persona, job);
      var subs := SubsectionScores(sections, persona, job);
      r.sectionScores == Ranking.RankedList(secs)
      && r.subsectionScores == Ranking.RankedList(subs)
      && r.overallRanking == CreateStackRanking(r.sectionScores, r.subsectionScores)
      && r.totalScore == WeightedScore(SectionRelevances(secs), SubsectionRelevances(subs))
      && 0.0 <= r.totalScore <= 1.0
  {
    ghost var secs := SectionScores(sections, persona, job);
    ghost var subs := SubsectionScores(sections, persona, job);
    var sectionScores := CalculateSectionRelevance(sections, persona, job);
    var subsectionScores := CalculateSubsectionRelevance(sections, persona, job);
    var ranking := CreateStackRanking(sectionScores, subsectionScores);
    var total := RankedTotal(sectionScores, subsectionScores, secs, subs);
    TotalScoreRange(sections, persona, job);
    Ranking.RankedListOf(sectionScores, secs);
    Ranking.RankedListOf(subsectionScores, subs);
    r := Report(sectionScores, subsectionScores, ranking, total, SectionWeight, SubsectionWeight);
  }

  /** `calculate_enhanced_relevance_score`: the sections of the document, scored and ranked,
      with the corrected total; the code as written raises ZeroDivisionError when the document
      has no section or no sub-section (see `WeightedScoreAgrees`). */
  method CalculateEnhancedRelevanceScore(doc: string, persona: Persona, job: Job) returns (r: Report)
    ensures var secs := SectionScores(Sections(doc), persona, job);
      var subs := SubsectionScores(Sections(doc), persona, job);
      r.sectionScores == Ranking.RankedList(secs)
      && r.subsectionScores == Ranking.RankedList(subs)
      && r.overallRanking == CreateStackRanking(r.sectionScores, r.subsectionScores)
      && r.totalScore == WeightedScore(SectionRelevances(secs), SubsectionRelevances(subs))
      && 0.0 <= r.totalScore <= 1.0
  {
    var sections := ExtractSections(doc);
    r := ScoreSections(sections, persona, job);
  }
}

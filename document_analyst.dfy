/** `DocumentAnalyst.analyze_documents`: collect the sections of every document, tag each
    with its document's path, score them against the persona, sort by score (highest first,
    stable) and keep the first `top_k`. Parsing is left abstract: each document's sections
    are an input. */
module DocumentAnalyst {
  import opened PyStrings
  import Ranking
  import PersonaAnalyzer
  import RelevanceScorer

  /** A section dict after `section['document'] = doc_path`. */
  datatype DocSection = DocSection(section: RelevanceScorer.Section, document: string)

  /** A scored section dict; the scorer copies the `document` tag along. */
  datatype AnalyzedSection = AnalyzedSection(scored: RelevanceScorer.ScoredSection, document: string)

  function ScoreOf(a: AnalyzedSection): real { a.scored.score }

  /** The sections of one document, each tagged with its path. */
  function Tag(path: string, sections: seq<RelevanceScorer.Section>): (r: seq<DocSection>)
    ensures |r| == |sections|
    ensures forall j :: 0 <= j < |r| ==> r[j] == DocSection(sections[j], path)
  {
    seq(|sections|, j requires 0 <= j < |sections| => DocSection(sections[j], path))
  }

  /** `all_sections` after the collection loop: document by document, each document's
      sections in their own order. */
  function Collected(paths: seq<string>, processed: seq<seq<RelevanceScorer.Section>>): (r: seq<DocSection>)
    requires |processed| == |paths|
    decreases |paths|
  {
    if paths == [] then []
    else
      var n := |paths| - 1;
      Collected(paths[..n], processed[..n]) + Tag(paths[n], processed[n])
  }

  /** The total number of sections the documents hold. */
  function TotalSections(processed: seq<seq<RelevanceScorer.Section>>): nat
    decreases |processed|
  {
    if processed == [] then 0
    else TotalSections(processed[..|processed| - 1]) + |processed[|processed| - 1]|
  }

  /** Every collected section carries the path of the document it came from, every section
      of every document is collected with its path, and nothing else is. */
  lemma {:induction false} CollectedProvenance(paths: seq<string>, processed: seq<seq<RelevanceScorer.Section>>)
    requires |processed| == |paths|
    ensures |Collected(paths, processed)| == TotalSections(processed)
    ensures forall d <- Collected(paths, processed) ::
      exists i :: 0 <= i < |paths| && d.document == paths[i] && d.section in processed[i]
    ensures forall i, s :: 0 <= i < |paths| && s in processed[i] ==> DocSection(s, paths[i]) in Collected(paths, processed)
    decreases |paths|
  {
    if paths != [] {
      var n := |paths| - 1;
      CollectedProvenance(paths[..n], processed[..n]);
      var prev := Collected(paths[..n], processed[..n]);
      var tail := Tag(paths[n], processed[n]);
      assert Collected(paths, processed) == prev + tail;
      forall d: DocSection | d in prev + tail
        ensures exists i :: 0 <= i < |paths| && d.document == paths[i] && d.section in processed[i]
      {
        if d in prev {
          var i :| 0 <= i < n && d.document == paths[..n][i] && d.section in processed[..n][i];
          assert paths[i] == paths[..n][i] && processed[i] == processed[..n][i];
        } else {
          var j :| 0 <= j < |tail| && tail[j] == d;
          assert d.section == processed[n][j];
        }
      }
      forall i, s | 0 <= i < |paths| && s in processed[i]
        ensures DocSection(s, paths[i]) in prev + tail
      {
        if i < n {
          assert paths[..n][i] == paths[i] && processed[..n][i] == processed[i];
        } else {
          var j :| 0 <= j < |processed[n]| && processed[n][j] == s;
          assert tail[j] == DocSection(s, paths[i]);
        }
      }
    }
  }

  /** The nested collection loop. */
  method CollectSections(paths: seq<string>, processed: seq<seq<RelevanceScorer.Section>>)
    returns (all: seq<DocSection>)
    requires |processed| == |paths|
    ensures all == Collected(paths, processed)
  {
    all := [];
    for i := 0 to |paths|
      invariant all == Collected(paths[..i], processed[..i])
    {
      assert paths[..i + 1][..i] == paths[..i] && processed[..i + 1][..i] == processed[..i];
      ghost var before := all;
      var sections := processed[i];
      for j := 0 to |sections|
        invariant all == before + Tag(paths[i], sections[..j])
      {
        assert Tag(paths[i], sections[..j + 1]) == Tag(paths[i], sections[..j]) + [DocSection(sections[j], paths[i])];
        all := all + [DocSection(sections[j], paths[i])];
      }
      assert sections[..|sections|] == sections;
    }
    assert paths[..|paths|] == paths && processed[..|processed|] == processed;
  }

  function SectionsOf(all: seq<DocSection>): (r: seq<RelevanceScorer.Section>)
    ensures |r| == |all| && forall i :: 0 <= i < |r| ==> r[i] == all[i].section
  {
    seq(|all|, i requires 0 <= i < |all| => all[i].section)
  }

  /** The persona profile `analyze_persona` builds. */
  function ProfileOf(persona: PersonaAnalyzer.Persona, job: string): PersonaAnalyzer.Profile {
    PersonaAnalyzer.Profile(
      persona, job,
      Distinct(PersonaAnalyzer.CollectedKeywords(persona, job)),
      PersonaAnalyzer.ProfileWeights(persona, job),
      if persona.domain != [] then [persona.domain] else [])
  }

  /** Each scored copy paired with the document tag of the dict it was copied from. */
  function Attach(all: seq<DocSection>, scored: seq<RelevanceScorer.ScoredSection>): (r: seq<AnalyzedSection>)
    requires |scored| == |all|
    ensures |r| == |all|
    ensures forall i :: 0 <= i < |r| ==> r[i] == AnalyzedSection(scored[i], all[i].document)
  {
    seq(|all|, i requires 0 <= i < |all| => AnalyzedSection(scored[i], all[i].document))
  }

  /** `score_sections` over the collected dicts: each keeps its section and document tag. */
  function Scored(all: seq<DocSection>, profile: PersonaAnalyzer.Profile, tfidf: Option<seq<real>>,
                  w: RelevanceScorer.BlendWeights): (r: seq<AnalyzedSection>)
    requires tfidf.Some? ==> |tfidf.value| == |all|
    ensures |r| == |all|
    ensures forall i :: 0 <= i < |r| ==> r[i].document == all[i].document && r[i].scored.section == all[i].section
  {
    Attach(all, RelevanceScorer.ScoredSections(SectionsOf(all), profile, tfidf, w))
  }

  /** Where Python's `xs[:k]` ends on a list of length `n`; a negative `k` counts from the end. */
  function SliceEnd(n: nat, k: int): (e: nat)
    ensures e <= n
    ensures k >= 0 ==> e == Min(k, n)
    ensures k < 0 ==> e + Min(-k, n) == n
  {
    if k >= 0 then Min(k, n) else if n + k >= 0 then n + k else 0
  }

  /** The result of `analyze_documents` without enhanced output. */
  function Analysis(paths: seq<string>, processed: seq<seq<RelevanceScorer.Section>>,
                    persona: PersonaAnalyzer.Persona, job: string, tfidf: Option<seq<real>>,
                    w: RelevanceScorer.BlendWeights, topK: int): seq<AnalyzedSection>
    requires |processed| == |paths|
    requires tfidf.Some? ==> |tfidf.value| == |Collected(paths, processed)|
  {
    var ranked := Ranking.SortDesc(Scored(Collected(paths, processed), ProfileOf(persona, job), tfidf, w), ScoreOf);
    ranked[..SliceEnd(|ranked|, topK)]
  }

  /** `analyze_documents(..., enhanced_output=False)`. */
  method AnalyzeDocuments(paths: seq<string>, processed: seq<seq<RelevanceScorer.Section>>,
                          persona: PersonaAnalyzer.Persona, job: string, tfidf: Option<seq<real>>,
                          w: RelevanceScorer.BlendWeights, topK: int)
    returns (top: seq<AnalyzedSection>)
    requires |processed| == |paths|
    requires tfidf.Some? ==> |tfidf.value| == |Collected(paths, processed)|
    ensures top == Analysis(paths, processed, persona, job, tfidf, w, topK)
    ensures paths == [] ==> top == []
  {
    var all := CollectSections(paths, processed);
    var profile := PersonaAnalyzer.AnalyzePersona(persona, job);
    assert profile == ProfileOf(persona, job);
    var scored := RelevanceScorer.ScoreSections(SectionsOf(all), profile, tfidf, w);
    var ranked := Ranking.SortDesc(Attach(all, scored), ScoreOf);
    top := ranked[..SliceEnd(|ranked|, topK)];
  }

  /** In a non-increasing list cut at `e`, everything kept scores at least as high as
      everything cut. */
  lemma CutBelow(ranked: seq<AnalyzedSection>, e: nat, a: AnalyzedSection, b: AnalyzedSection)
    requires e <= |ranked| && Ranking.SortedDesc(ranked, ScoreOf)
    requires a in ranked[..e] && b in multiset(ranked) && b !in multiset(ranked[..e])
    ensures ScoreOf(a) >= ScoreOf(b)
  {
    var i :| 0 <= i < e && ranked[..e][i] == a;
    forall k | 0 <= k < e
      ensures ranked[k] != b
    {
      assert ranked[k] == ranked[..e][k];
      assert ranked[..e][k] in multiset(ranked[..e]);
    }
    var j :| 0 <= j < |ranked| && ranked[j] == b;
  }

  /** A non-increasing list cut at `e`: the kept part is non-increasing, drawn from the
      list, and scores at least as high as everything cut. */
  lemma CutPrefix(ranked: seq<AnalyzedSection>, e: nat)
    requires e <= |ranked| && Ranking.SortedDesc(ranked, ScoreOf)
    ensures Ranking.SortedDesc(ranked[..e], ScoreOf)
    ensures multiset(ranked[..e]) <= multiset(ranked)
    ensures forall a <- ranked[..e], b <- ranked :: b !in multiset(ranked[..e]) ==> ScoreOf(a) >= ScoreOf(b)
  {
    assert ranked == ranked[..e] + ranked[e..];
    assert multiset(ranked) == multiset(ranked[..e]) + multiset(ranked[e..]);
    forall a <- ranked[..e], b <- ranked | b !in multiset(ranked[..e])
      ensures ScoreOf(a) >= ScoreOf(b)
    {
      CutBelow(ranked, e, a, b);
    }
  }

  /** A descending sort cut at Python's `[:top_k]`: non-increasing, drawn from the input,
      and no element left out has a higher score than one kept. */
  lemma TopCut(scored: seq<AnalyzedSection>, topK: int)
    ensures var ranked := Ranking.SortDesc(scored, ScoreOf);
      var top := ranked[..SliceEnd(|ranked|, topK)];
      && |top| == SliceEnd(|scored|, topK)
      && Ranking.SortedDesc(top, ScoreOf)
      && multiset(top) <= multiset(scored)
      && forall a <- top, b <- scored :: b !in multiset(top) ==> ScoreOf(a) >= ScoreOf(b)
  {
    var ranked := Ranking.SortDesc(scored, ScoreOf);
    Ranking.SortDescSorted(scored, ScoreOf);
    Ranking.SortDescPermutation(scored, ScoreOf);
    assert |ranked| == |multiset(ranked)| == |scored|;
    CutPrefix(ranked, SliceEnd(|ranked|, topK));
    forall b <- scored
      ensures b in ranked
    {
      assert b in multiset(ranked);
    }
  }

  /** A scored copy of a collected section carries a document path and a section of it. */
  lemma FromCollected(paths: seq<string>, processed: seq<seq<RelevanceScorer.Section>>,
                      scored: seq<AnalyzedSection>, a: AnalyzedSection)
    requires |processed| == |paths|
    requires |scored| == |Collected(paths, processed)|
    requires forall i :: 0 <= i < |scored| ==>
      scored[i].document == Collected(paths, processed)[i].document &&
      scored[i].scored.section == Collected(paths, processed)[i].section
    requires a in multiset(scored)
    ensures exists i :: 0 <= i < |paths| && a.document == paths[i] && a.scored.section in processed[i]
  {
    var all := Collected(paths, processed);
    CollectedProvenance(paths, processed);
    var j :| 0 <= j < |scored| && scored[j] == a;
    assert all[j] in all;
  }

  /** The result holds the first min(top_k, #sections) of the scored sections for a
      non-negative `top_k`, in non-increasing score order, each a scored copy of a collected
      section with its document path; no section left out scores above one kept. */
  lemma AnalysisRanked(paths: seq<string>, processed: seq<seq<RelevanceScorer.Section>>,
                       persona: PersonaAnalyzer.Persona, job: string, tfidf: Option<seq<real>>,
                       w: RelevanceScorer.BlendWeights, topK: int)
    requires |processed| == |paths|
    requires tfidf.Some? ==> |tfidf.value| == |Collected(paths, processed)|
    ensures var top := Analysis(paths, processed, persona, job, tfidf, w, topK);
      var scored := Scored(Collected(paths, processed), ProfileOf(persona, job), tfidf, w);
      && |top| == SliceEnd(TotalSections(processed), topK)
      && Ranking.SortedDesc(top, ScoreOf)
      && multiset(top) <= multiset(scored)
      && (forall a <- top :: exists i :: 0 <= i < |paths| && a.document == paths[i] && a.scored.section in processed[i])
      && forall a <- top, b <- scored :: b !in multiset(top) ==> ScoreOf(a) >= ScoreOf(b)
  {
    CollectedProvenance(paths, processed);
    var scored := Scored(Collected(paths, processed), ProfileOf(persona, job), tfidf, w);
    TopCut(scored, topK);
    var top := Analysis(paths, processed, persona, job, tfidf, w, topK);
    forall a <- top
      ensures exists i :: 0 <= i < |paths| && a.document == paths[i] && a.scored.section in processed[i]
    {
      assert a in multiset(top);
      FromCollected(paths, processed, scored, a);
    }
  }

  /** Stability: among sections with equal scores the result keeps collection order, that
      is document order, then section order within a document. */
  lemma AnalysisStable(paths: seq<string>, processed: seq<seq<RelevanceScorer.Section>>,
                       persona: PersonaAnalyzer.Persona, job: string, tfidf: Option<seq<real>>,
                       w: RelevanceScorer.BlendWeights, v: real)
    requires |processed| == |paths|
    requires tfidf.Some? ==> |tfidf.value| == |Collected(paths, processed)|
    ensures var scored := Scored(Collected(paths, processed), ProfileOf(persona, job), tfidf, w);
      Ranking.KeyFilter(Analysis(paths, processed, persona, job, tfidf, w, |scored|), ScoreOf, v)
        == Ranking.KeyFilter(scored, ScoreOf, v)
  {
    var scored := Scored(Collected(paths, processed), ProfileOf(persona, job), tfidf, w);
    var ranked := Ranking.SortDesc(scored, ScoreOf);
    assert ranked[..|ranked|] == ranked;
    Ranking.SortDescStable(scored, ScoreOf, v);
  }
}

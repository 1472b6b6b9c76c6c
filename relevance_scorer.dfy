/** `RelevanceScorer`: scores sections against a persona profile by a blend of a TF-IDF
    similarity (an outside input here), weighted whole-word keyword matches and a
    domain/role/job-word overlap score, each min-max normalised first. */
module RelevanceScorer {
  import opened PyStrings
  import PersonaAnalyzer

  /** The two section fields the scorer reads. */
  datatype Section = Section(content: string, title: string)

  /** A copy of the input section with its score and the three raw components. */
  datatype ScoredSection = ScoredSection(section: Section, score: real, tfidf: real, keyword: real, semantic: real)

  /** The blend weights; the defaults are 0.4, 0.4 and 0.2. */
  datatype BlendWeights = BlendWeights(tfidf: real, keyword: real, semantic: real)

  const DefaultBlend := BlendWeights(0.4, 0.4, 0.2)

  // ---------------------------------------------------------------------------
  // Whole-word matching: len(re.findall(r'\b' + re.escape(k) + r'\b', text))

  /** Whether position `p` of `s` holds a word character (positions outside `s` do not). */
  predicate WordAt(s: string, p: int) {
    0 <= p < |s| && IsWordChar(s[p])
  }

  /** Regex `\b` at position `p`: a word character on exactly one side. */
  predicate Boundary(s: string, p: int) {
    WordAt(s, p - 1) != WordAt(s, p)
  }

  /** `k` occurs at `i` with a word boundary on both sides. */
  predicate WholeWordAt(s: string, k: string, i: int) {
    MatchAt(s, k, i) && Boundary(s, i) && Boundary(s, i + |k|)
  }

  /** Number of non-overlapping whole-word matches found scanning from `i`; an empty
      match moves the scan one position on. */
  function WholeWordCountFrom(s: string, k: string, i: nat): (n: nat)
    decreases |s| + 1 - i
  {
    if i > |s| then 0
    else if WholeWordAt(s, k, i) then 1 + WholeWordCountFrom(s, k, i + Max(|k|, 1))
    else WholeWordCountFrom(s, k, i + 1)
  }

  function WholeWordCount(s: string, k: string): nat {
    WholeWordCountFrom(s, k, 0)
  }

  /** The count is positive exactly when some whole-word occurrence lies ahead. */
  lemma {:induction false} WholeWordCountPositive(s: string, k: string, i: nat)
    ensures WholeWordCountFrom(s, k, i) > 0 <==> exists j :: i <= j <= |s| && WholeWordAt(s, k, j)
    decreases |s| + 1 - i
  {
    if i <= |s| {
      if WholeWordAt(s, k, i) {
      } else {
        WholeWordCountPositive(s, k, i + 1);
        if exists j :: i <= j <= |s| && WholeWordAt(s, k, j) {
          var j :| i <= j <= |s| && WholeWordAt(s, k, j);
          assert j != i;
        }
      }
    }
  }

  // ---------------------------------------------------------------------------
  // _calculate_keyword_scores

  /** `weights.get(k, 1.0)`. */
  function WeightOf(weights: map<string, real>, k: string): real {
    if k in weights then weights[k] else 1.0
  }

  /** Content matches plus twice the title matches of one keyword (all lower-cased). */
  function Hits(sec: Section, k: string): nat {
    WholeWordCount(Lower(sec.content), Lower(k)) + 2 * WholeWordCount(Lower(sec.title), Lower(k))
  }

  /** `n` copies of `w` added up, which is `n * w` (see `TimesIsProduct`). */
  function Times(n: nat, w: real): real {
    if n == 0 then 0.0 else Times(n - 1, w) + w
  }

  lemma {:induction false} TimesIsProduct(n: nat, w: real)
    ensures Times(n, w) == n as real * w
  {
    if n > 0 {
      TimesIsProduct(n - 1, w);
      assert n as real * w == (n - 1) as real * w + w;
    }
  }

  /** Sum of hits times weight over the matched keywords of `ks`. */
  function WeightedHits(sec: Section, ks: seq<string>, weights: map<string, real>): real {
    if ks == [] then 0.0
    else
      var k := ks[|ks| - 1];
      WeightedHits(sec, ks[..|ks| - 1], weights) + if Hits(sec, k) > 0 then Times(Hits(sec, k), WeightOf(weights, k)) else 0.0
  }

  /** Sum of the weights of the matched keywords of `ks`. */
  function MatchedWeight(sec: Section, ks: seq<string>, weights: map<string, real>): real {
    if ks == [] then 0.0
    else
      var k := ks[|ks| - 1];
      MatchedWeight(sec, ks[..|ks| - 1], weights) + if Hits(sec, k) > 0 then WeightOf(weights, k) else 0.0
  }

  function KeywordScore(sec: Section, ks: seq<string>, weights: map<string, real>): real {
    var total := MatchedWeight(sec, ks, weights);
    if total > 0.0 then WeightedHits(sec, ks, weights) / total else 0.0
  }

  /** The score of one section: the accumulator loop over the profile's keywords. */
  method SectionKeywordScore(sec: Section, ks: seq<string>, weights: map<string, real>) returns (r: real)
    ensures r == KeywordScore(sec, ks, weights)
  {
    var content := Lower(sec.content);
    var title := Lower(sec.title);
    var score := 0.0;
    var totalWeight := 0.0;
    for i := 0 to |ks|
      invariant score == WeightedHits(sec, ks[..i], weights)
      invariant totalWeight == MatchedWeight(sec, ks[..i], weights)
    {
      score, totalWeight := AddKeyword(sec, content, title, ks, weights, i, score, totalWeight);
    }
    assert ks[..|ks|] == ks;
    if totalWeight > 0.0 {
      r := score / totalWeight;
    } else {
      r := 0.0;
    }
  }

  /** One pass of the keyword loop: a keyword that occurs adds its hits times its weight to
      the score and its weight to the total. */
  method AddKeyword(sec: Section, content: string, title: string, ks: seq<string>, weights: map<string, real>,
                    i: nat, score: real, totalWeight: real) returns (score': real, totalWeight': real)
    requires content == Lower(sec.content) && title == Lower(sec.title) && i < |ks|
    requires score == WeightedHits(sec, ks[..i], weights)
    requires totalWeight == MatchedWeight(sec, ks[..i], weights)
    ensures score' == WeightedHits(sec, ks[..i + 1], weights)
    ensures totalWeight' == MatchedWeight(sec, ks[..i + 1], weights)
  {
    var keywordLower := Lower(ks[i]);
    var weight := WeightOf(weights, ks[i]);
    var keywordScore := WholeWordCount(content, keywordLower) + 2 * WholeWordCount(title, keywordLower);
    assert keywordScore == Hits(sec, ks[i]);
    WeightedHitsStep(sec, ks, weights, i);
    MatchedWeightStep(sec, ks, weights, i);
    score', totalWeight' := score, totalWeight;
    if keywordScore > 0 {
      TimesIsProduct(keywordScore, weight);
      score' := score + keywordScore as real * weight;
      totalWeight' := totalWeight + weight;
    }
  }

  lemma WeightedHitsStep(sec: Section, ks: seq<string>, weights: map<string, real>, i: nat)
    requires i < |ks|
    ensures WeightedHits(sec, ks[..i + 1], weights)
      == WeightedHits(sec, ks[..i], weights) + if Hits(sec, ks[i]) > 0 then Times(Hits(sec, ks[i]), WeightOf(weights, ks[i])) else 0.0
  {
    assert ks[..i + 1][..i] == ks[..i];
  }

  lemma MatchedWeightStep(sec: Section, ks: seq<string>, weights: map<string, real>, i: nat)
    requires i < |ks|
    ensures MatchedWeight(sec, ks[..i + 1], weights)
      == MatchedWeight(sec, ks[..i], weights) + if Hits(sec, ks[i]) > 0 then WeightOf(weights, ks[i]) else 0.0
  {
    assert ks[..i + 1][..i] == ks[..i];
  }

  method KeywordScores(sections: seq<Section>, ks: seq<string>, weights: map<string, real>) returns (r: seq<real>)
    ensures r == KeywordScoreList(sections, ks, weights)
  {
    r := [];
    for i := 0 to |sections|
      invariant |r| == i
      invariant forall j :: 0 <= j < i ==> r[j] == KeywordScore(sections[j], ks, weights)
    {
      var s := SectionKeywordScore(sections[i], ks, weights);
      r := r + [s];
    }
  }

  /** With no keyword matching, the score is 0. */
  lemma {:induction false} NoMatchScoresZero(sec: Section, ks: seq<string>, weights: map<string, real>)
    requires forall k <- ks :: Hits(sec, k) == 0
    ensures MatchedWeight(sec, ks, weights) == 0.0 && KeywordScore(sec, ks, weights) == 0.0
  {
    if ks != [] {
      assert forall k <- ks[..|ks| - 1] :: k in ks;
      NoMatchScoresZero(sec, ks[..|ks| - 1], weights);
    }
  }

  /** The weighted hits are at least the matched weight when weights are positive. */
  lemma {:induction false} WeightedHitsAtLeastWeight(sec: Section, ks: seq<string>, weights: map<string, real>)
    requires forall k <- ks :: WeightOf(weights, k) > 0.0
    ensures WeightedHits(sec, ks, weights) >= MatchedWeight(sec, ks, weights) >= 0.0
  {
    if ks != [] {
      var init, k := ks[..|ks| - 1], ks[|ks| - 1];
      assert forall x <- init :: x in ks;
      WeightedHitsAtLeastWeight(sec, init, weights);
      assert k in ks;
      if Hits(sec, k) > 0 {
        AtLeastOnce(Hits(sec, k), WeightOf(weights, k));
      }
    }
  }

  /** A keyword that occurs at least once contributes at least its weight. */
  lemma {:induction false} AtLeastOnce(n: nat, w: real)
    requires n > 0 && w > 0.0
    ensures Times(n, w) >= w
  {
    if n > 1 {
      AtLeastOnce(n - 1, w);
    }
  }

  /** A matched keyword with positive weight makes the matched weight positive. */
  lemma {:induction false} MatchedWeightPositive(sec: Section, ks: seq<string>, weights: map<string, real>, k: string)
    requires forall x <- ks :: WeightOf(weights, x) > 0.0
    requires k in ks && Hits(sec, k) > 0
    ensures MatchedWeight(sec, ks, weights) > 0.0
  {
    assert forall x <- ks[..|ks| - 1] :: x in ks;
    WeightedHitsAtLeastWeight(sec, ks[..|ks| - 1], weights);
    if ks[|ks| - 1] != k {
      assert k in ks[..|ks| - 1];
      MatchedWeightPositive(sec, ks[..|ks| - 1], weights, k);
    }
  }

  /** With positive weights, a section matching some keyword scores at least 1, since every
      matched keyword contributes at least once its weight. */
  lemma KeywordScoreAtLeastOne(sec: Section, ks: seq<string>, weights: map<string, real>, k: string)
    requires forall x <- ks :: WeightOf(weights, x) > 0.0
    requires k in ks && Hits(sec, k) > 0
    ensures KeywordScore(sec, ks, weights) >= 1.0
  {
    WeightedHitsAtLeastWeight(sec, ks, weights);
    MatchedWeightPositive(sec, ks, weights, k);
    RatioAtLeastOne(WeightedHits(sec, ks, weights), MatchedWeight(sec, ks, weights));
  }

  lemma RatioAtLeastOne(a: real, b: real)
    requires 0.0 < b <= a
    ensures a / b >= 1.0
  {
  }

  // ---------------------------------------------------------------------------
  // _calculate_semantic_scores

  /** `content.lower() + ' ' + title.lower()`. */
  function SearchText(sec: Section): string {
    Lower(sec.content) + " " + Lower(sec.title)
  }

  function WordSet(s: string): set<string> {
    set w | w in Words(s)
  }

  /** The three terms before the cap: domain substring, any role word, job-word overlap. */
  function RawSemanticScore(sec: Section, domain: string, role: string, job: string): real {
    var text := SearchText(sec);
    var d := Lower(domain);
    var r := Lower(role);
    var jobWords := WordSet(Lower(job));
    (if d != [] && Contains(text, d) then 0.3 else 0.0)
    + (if r != [] && ContainsAny(text, Words(r)) then 0.2 else 0.0)
    + (if |jobWords| > 0 then (|jobWords * WordSet(text)| as real / |jobWords| as real) * 0.5 else 0.0)
  }

  function SemanticScore(sec: Section, domain: string, role: string, job: string): real {
    MinReal(RawSemanticScore(sec, domain, role, job), 1.0)
  }

  /** The three terms add up to at most 1, so the cap at 1.0 never changes the score. */
  lemma SemanticScoreBounds(sec: Section, domain: string, role: string, job: string)
    ensures 0.0 <= RawSemanticScore(sec, domain, role, job) <= 1.0
    ensures SemanticScore(sec, domain, role, job) == RawSemanticScore(sec, domain, role, job)
  {
    var jobWords := WordSet(Lower(job));
    var common := jobWords * WordSet(SearchText(sec));
    if |jobWords| > 0 {
      assert common <= jobWords;
      SubsetCard(common, jobWords);
      RatioAtMostOne(|common| as real, |jobWords| as real);
    }
  }

  method SemanticScores(sections: seq<Section>, domain: string, role: string, job: string) returns (r: seq<real>)
    ensures r == SemanticScoreList(sections, domain, role, job)
  {
    r := [];
    for i := 0 to |sections|
      invariant |r| == i
      invariant forall j :: 0 <= j < i ==> r[j] == SemanticScore(sections[j], domain, role, job)
    {
      r := r + [SemanticScore(sections[i], domain, role, job)];
    }
  }

  // ---------------------------------------------------------------------------
  // _normalize_scores and _combine_scores

  function MinOf(s: seq<real>): (m: real)
    requires s != []
    ensures m in s && forall x <- s :: m <= x
  {
    if |s| == 1 then s[0]
    else
      assert forall x <- s[1..] :: x in s;
      assert forall x <- s :: x == s[0] || x in s[1..];
      MinReal(s[0], MinOf(s[1..]))
  }

  function MaxOf(s: seq<real>): (m: real)
    requires s != []
    ensures m in s && forall x <- s :: x <= m
  {
    if |s| == 1 then s[0]
    else
      assert forall x <- s[1..] :: x in s;
      assert forall x <- s :: x == s[0] || x in s[1..];
      MaxReal(s[0], MaxOf(s[1..]))
  }

  /** `(x - lo) / (hi - lo)`. */
  function Scale(x: real, lo: real, hi: real): real
    requires lo < hi
  {
    (x - lo) / (hi - lo)
  }

  /** Min-max normalisation; a constant list maps to 0.5 everywhere. */
  function Normalize(s: seq<real>): (r: seq<real>)
    ensures |r| == |s|
  {
    if s == [] then []
    else if MaxOf(s) == MinOf(s) then seq(|s|, _ => 0.5)
    else seq(|s|, i requires 0 <= i < |s| => Scale(s[i], MinOf(s), MaxOf(s)))
  }

  lemma ScaleRange(x: real, lo: real, hi: real)
    requires lo <= x <= hi && lo < hi
    ensures 0.0 <= Scale(x, lo, hi) <= 1.0
    ensures x == lo ==> Scale(x, lo, hi) == 0.0
    ensures x == hi ==> Scale(x, lo, hi) == 1.0
  {
    RatioAtMostOne(x - lo, hi - lo);
  }

  lemma RatioAtMostOne(a: real, b: real)
    requires 0.0 <= a <= b && 0.0 < b
    ensures 0.0 <= a / b <= 1.0
  {
  }

  lemma ScaleMonotone(x: real, y: real, lo: real, hi: real)
    requires lo < hi
    ensures x <= y ==> Scale(x, lo, hi) <= Scale(y, lo, hi)
    ensures x < y ==> Scale(x, lo, hi) < Scale(y, lo, hi)
  {
    var d := hi - lo;
    assert Scale(y, lo, hi) - Scale(x, lo, hi) == (y - x) / d;
  }

  /** Every normalised value lies in [0, 1]; a constant list gives 0.5 everywhere; otherwise
      the minimum goes to 0 and the maximum to 1. */
  lemma NormalizeRange(s: seq<real>, i: nat)
    requires i < |s|
    ensures 0.0 <= Normalize(s)[i] <= 1.0
    ensures MaxOf(s) == MinOf(s) ==> Normalize(s)[i] == 0.5
    ensures MaxOf(s) != MinOf(s) && s[i] == MinOf(s) ==> Normalize(s)[i] == 0.0
    ensures MaxOf(s) != MinOf(s) && s[i] == MaxOf(s) ==> Normalize(s)[i] == 1.0
  {
    if MaxOf(s) != MinOf(s) {
      assert s[i] in s;
      ScaleRange(s[i], MinOf(s), MaxOf(s));
    }
  }

  /** Normalisation keeps the order of values, and keeps strict order unless all values are equal. */
  lemma NormalizeMonotone(s: seq<real>, i: nat, j: nat)
    requires i < |s| && j < |s|
    ensures s[i] <= s[j] ==> Normalize(s)[i] <= Normalize(s)[j]
    ensures s[i] < s[j] ==> Normalize(s)[i] < Normalize(s)[j]
  {
    assert s[i] in s && s[j] in s;
    if MaxOf(s) != MinOf(s) {
      ScaleMonotone(s[i], s[j], MinOf(s), MaxOf(s));
    }
  }

  function Blend(w: BlendWeights, t: real, k: real, s: real): real {
    t * w.tfidf + k * w.keyword + s * w.semantic
  }

  function CombinedScores(t: seq<real>, k: seq<real>, s: seq<real>, w: BlendWeights): (r: seq<real>)
    requires |k| >= |t| && |s| >= |t|
    ensures |r| == |t|
  {
    if t == [] then []
    else
      var tn, kn, sn := Normalize(t), Normalize(k), Normalize(s);
      seq(|t|, i requires 0 <= i < |t| => Blend(w, tn[i], kn[i], sn[i]))
  }

  method CombineScores(t: seq<real>, k: seq<real>, s: seq<real>, w: BlendWeights) returns (r: seq<real>)
    requires |k| >= |t| && |s| >= |t|
    ensures r == CombinedScores(t, k, s, w)
  {
    if t == [] {
      return [];
    }
    r := ZipWith3(Normalize(t), Normalize(k), Normalize(s), (a: real, b: real, c: real) => Blend(w, a, b, c));
  }

  /** The loop of `_combine_scores`, over any per-position combination `f`. */
  method ZipWith3<T>(xs: seq<T>, ys: seq<T>, zs: seq<T>, f: (T, T, T) -> T) returns (r: seq<T>)
    requires |ys| >= |xs| && |zs| >= |xs|
    ensures |r| == |xs|
    ensures forall j :: 0 <= j < |xs| ==> r[j] == f(xs[j], ys[j], zs[j])
  {
    r := [];
    for i := 0 to |xs|
      invariant |r| == i
      invariant forall j :: 0 <= j < i ==> r[j] == f(xs[j], ys[j], zs[j])
    {
      r := r + [f(xs[i], ys[i], zs[i])];
    }
  }

  /** Non-negative blend weights summing to 1 keep every combined score in [0, 1]; the
      defaults are such weights. */
  lemma CombinedScoresInUnitRange(t: seq<real>, k: seq<real>, s: seq<real>, w: BlendWeights, i: nat)
    requires |k| >= |t| && |s| >= |t| && i < |t|
    requires w.tfidf >= 0.0 && w.keyword >= 0.0 && w.semantic >= 0.0
    requires w.tfidf + w.keyword + w.semantic == 1.0
    ensures 0.0 <= CombinedScores(t, k, s, w)[i] <= 1.0
  {
    NormalizeRange(t, i);
    NormalizeRange(k, i);
    NormalizeRange(s, i);
    BlendInUnitRange(w, Normalize(t)[i], Normalize(k)[i], Normalize(s)[i]);
  }

  lemma BlendInUnitRange(w: BlendWeights, a: real, b: real, c: real)
    requires w.tfidf >= 0.0 && w.keyword >= 0.0 && w.semantic >= 0.0
    requires w.tfidf + w.keyword + w.semantic == 1.0
    requires 0.0 <= a <= 1.0 && 0.0 <= b <= 1.0 && 0.0 <= c <= 1.0
    ensures 0.0 <= Blend(w, a, b, c) <= 1.0
  {
    var x := ScaledAtMost(a, w.tfidf);
    var y := ScaledAtMost(b, w.keyword);
    var z := ScaledAtMost(c, w.semantic);
    SumOfBounded(x, y, z, w.tfidf, w.keyword, w.semantic);
  }

  lemma SumOfBounded(x: real, y: real, z: real, p: real, q: real, r: real)
    requires 0.0 <= x <= p && 0.0 <= y <= q && 0.0 <= z <= r && p + q + r == 1.0
    ensures 0.0 <= x + y + z <= 1.0
  {
  }

  /** A fraction of a non-negative weight lies between 0 and the weight. */
  lemma ScaledAtMost(x: real, y: real) returns (p: real)
    requires 0.0 <= x <= 1.0 && y >= 0.0
    ensures p == x * y && 0.0 <= p <= y
  {
    p := x * y;
    MulNonNegative(x, y);
    MulNonNegative(1.0 - x, y);
    assert (1.0 - x) * y == y - x * y;
  }

  lemma MulNonNegative(x: real, y: real)
    requires x >= 0.0 && y >= 0.0
    ensures x * y >= 0.0
  {
  }

  lemma MulPositive(x: real, y: real)
    requires x > 0.0 && y > 0.0
    ensures x * y > 0.0
  {
  }

  /** A section at least as good as another on all three raw signals, and strictly better on
      one with a positive blend weight, gets the strictly higher combined score. */
  lemma CombinedScoresDominance(t: seq<real>, k: seq<real>, s: seq<real>, w: BlendWeights, a: nat, b: nat)
    requires |k| == |t| && |s| == |t| && a < |t| && b < |t|
    requires w.tfidf >= 0.0 && w.keyword >= 0.0 && w.semantic >= 0.0
    requires t[a] >= t[b] && k[a] >= k[b] && s[a] >= s[b]
    requires (t[a] > t[b] && w.tfidf > 0.0) || (k[a] > k[b] && w.keyword > 0.0) || (s[a] > s[b] && w.semantic > 0.0)
    ensures CombinedScores(t, k, s, w)[a] > CombinedScores(t, k, s, w)[b]
  {
    NormalizeMonotone(t, b, a);
    NormalizeMonotone(k, b, a);
    NormalizeMonotone(s, b, a);
    var tn, kn, sn := Normalize(t), Normalize(k), Normalize(s);
    BlendStrictlyAbove(w, tn[a], kn[a], sn[a], tn[b], kn[b], sn[b]);
  }

  lemma BlendStrictlyAbove(w: BlendWeights, a1: real, b1: real, c1: real, a2: real, b2: real, c2: real)
    requires w.tfidf >= 0.0 && w.keyword >= 0.0 && w.semantic >= 0.0
    requires a1 >= a2 && b1 >= b2 && c1 >= c2
    requires (a1 > a2 && w.tfidf > 0.0) || (b1 > b2 && w.keyword > 0.0) || (c1 > c2 && w.semantic > 0.0)
    ensures Blend(w, a1, b1, c1) > Blend(w, a2, b2, c2)
  {
    var dt := ScaledGap(a1, a2, w.tfidf);
    var dk := ScaledGap(b1, b2, w.keyword);
    var ds := ScaledGap(c1, c2, w.semantic);
    if a1 > a2 && w.tfidf > 0.0 {
      ScaledGapPositive(a1, a2, w.tfidf);
    } else if b1 > b2 && w.keyword > 0.0 {
      ScaledGapPositive(b1, b2, w.keyword);
    } else {
      ScaledGapPositive(c1, c2, w.semantic);
    }
    SumPositive(dt, dk, ds);
  }

  /** `x1 * w - x2 * w`, which is non-negative for `x1 >= x2` and `w >= 0`. */
  lemma ScaledGap(x1: real, x2: real, w: real) returns (d: real)
    requires x1 >= x2 && w >= 0.0
    ensures d == x1 * w - x2 * w && d >= 0.0
  {
    d := x1 * w - x2 * w;
    assert d == (x1 - x2) * w;
    MulNonNegative(x1 - x2, w);
  }

  lemma ScaledGapPositive(x1: real, x2: real, w: real)
    requires x1 > x2 && w > 0.0
    ensures x1 * w - x2 * w > 0.0
  {
    assert x1 * w - x2 * w == (x1 - x2) * w;
    MulPositive(x1 - x2, w);
  }

  lemma SumPositive(x: real, y: real, z: real)
    requires x >= 0.0 && y >= 0.0 && z >= 0.0 && (x > 0.0 || y > 0.0 || z > 0.0)
    ensures x + y + z > 0.0
  {
  }

  // ---------------------------------------------------------------------------
  // score_sections

  /** The TF-IDF similarities, or zeros when the vectoriser raised ValueError (`None`). */
  function TfidfOrZeros(tfidf: Option<seq<real>>, n: nat): (r: seq<real>)
    requires tfidf.Some? ==> |tfidf.value| == n
    ensures |r| == n
    ensures tfidf.None? ==> forall i :: 0 <= i < n ==> r[i] == 0.0
  {
    match tfidf
    case None => seq(n, _ => 0.0)
    case Some(v) => v
  }

  function KeywordScoreList(sections: seq<Section>, ks: seq<string>, weights: map<string, real>): (r: seq<real>)
    ensures |r| == |sections|
  {
    seq(|sections|, i requires 0 <= i < |sections| => KeywordScore(sections[i], ks, weights))
  }

  function SemanticScoreList(sections: seq<Section>, domain: string, role: string, job: string): (r: seq<real>)
    ensures |r| == |sections|
  {
    seq(|sections|, i requires 0 <= i < |sections| => SemanticScore(sections[i], domain, role, job))
  }

  /** `score_sections` as a value: each section copied, with its combined score and the
      three raw components. */
  function ScoredSections(sections: seq<Section>, profile: PersonaAnalyzer.Profile, tfidf: Option<seq<real>>, w: BlendWeights)
    : (r: seq<ScoredSection>)
    requires tfidf.Some? ==> |tfidf.value| == |sections|
    ensures |r| == |sections|
    ensures forall i :: 0 <= i < |r| ==> r[i].section == sections[i]
  {
    var t := TfidfOrZeros(tfidf, |sections|);
    var k := KeywordScoreList(sections, profile.keywords, profile.weights);
    var p := profile.persona;
    var s := SemanticScoreList(sections, p.domain, p.role, profile.jobToBeDone);
    var c := CombinedScores(t, k, s, w);
    seq(|sections|, i requires 0 <= i < |sections| => ScoredSection(sections[i], c[i], t[i], k[i], s[i]))
  }

  method ScoreSections(sections: seq<Section>, profile: PersonaAnalyzer.Profile, tfidf: Option<seq<real>>, w: BlendWeights)
    returns (r: seq<ScoredSection>)
    requires tfidf.Some? ==> |tfidf.value| == |sections|
    ensures r == ScoredSections(sections, profile, tfidf, w)
    ensures forall i :: 0 <= i < |r| ==> r[i].section == sections[i]
  {
    if sections == [] {
      return [];
    }
    var t := TfidfOrZeros(tfidf, |sections|);
    var k := KeywordScores(sections, profile.keywords, profile.weights);
    var p := profile.persona;
    var s := SemanticScores(sections, p.domain, p.role, profile.jobToBeDone);
    var final := CombineScores(t, k, s, w);
    r := AttachScores(sections, final, t, k, s);
    ScoredSectionsShape(sections, profile, tfidf, w, r, t, k, s, final);
  }

  /** The copy loop: each section with its final score and score breakdown. */
  method AttachScores(sections: seq<Section>, final: seq<real>, t: seq<real>, k: seq<real>, s: seq<real>)
    returns (r: seq<ScoredSection>)
    requires |final| == |t| == |k| == |s| == |sections|
    ensures |r| == |sections|
    ensures forall j :: 0 <= j < |r| ==> r[j] == ScoredSection(sections[j], final[j], t[j], k[j], s[j])
  {
    r := [];
    for i := 0 to |sections|
      invariant |r| == i
      invariant forall j :: 0 <= j < i ==> r[j] == ScoredSection(sections[j], final[j], t[j], k[j], s[j])
    {
      r := r + [ScoredSection(sections[i], final[i], t[i], k[i], s[i])];
    }
  }

  lemma ScoredSectionsShape(sections: seq<Section>, profile: PersonaAnalyzer.Profile, tfidf: Option<seq<real>>,
                            w: BlendWeights, r: seq<ScoredSection>, t: seq<real>, k: seq<real>, s: seq<real>, final: seq<real>)
    requires tfidf.Some? ==> |tfidf.value| == |sections|
    requires t == TfidfOrZeros(tfidf, |sections|)
    requires k == KeywordScoreList(sections, profile.keywords, profile.weights)
    requires s == SemanticScoreList(sections, profile.persona.domain, profile.persona.role, profile.jobToBeDone)
    requires final == CombinedScores(t, k, s, w)
    requires |r| == |sections|
    requires forall j :: 0 <= j < |r| ==> r[j] == ScoredSection(sections[j], final[j], t[j], k[j], s[j])
    ensures r == ScoredSections(sections, profile, tfidf, w)
  {
  }

  /** With the default blend, every score lies in [0, 1]. */
  lemma DefaultScoresInUnitRange(sections: seq<Section>, profile: PersonaAnalyzer.Profile, tfidf: Option<seq<real>>, i: nat)
    requires tfidf.Some? ==> |tfidf.value| == |sections|
    requires i < |sections|
    ensures 0.0 <= ScoredSections(sections, profile, tfidf, DefaultBlend)[i].score <= 1.0
  {
    var t := TfidfOrZeros(tfidf, |sections|);
    var k := KeywordScoreList(sections, profile.keywords, profile.weights);
    var p := profile.persona;
    var s := SemanticScoreList(sections, p.domain, p.role, profile.jobToBeDone);
    CombinedScoresInUnitRange(t, k, s, DefaultBlend, i);
  }
}

/**
 * `compare_phrases`: two analyses are compared through their quantum
 * resonances and harmonic resonances. Relationship patterns are kept
 * and banded by interference strength, the five alignment metrics are
 * weighted and rated, an overall score is combined from the three
 * averages and truncated to an integer, and a list of two or three
 * recommendations is built. The trigonometric and exponential functions
 * the source calls are the uninterpreted functions of `Waves`.
 */
module Comparison {
  import opened Wrappers
  import opened Constants
  import opened Ranking
  import opened Gematria
  import opened Patterns
  import opened Analysis

  /**
   * `math.exp`, `abs(math.sin(.))` and `abs(math.cos(.))`, and the
   * interference strength `abs(cos(r1 * r2 / threshold))` of a named
   * relationship pattern at the product of the two resonances.
   */
  datatype Waves = Waves(
    exp: real -> real,
    sinAbs: real -> real,
    cosAbs: real -> real,
    interference: Scorer)

  datatype Status = StrongPositive | Moderate

  datatype Rating = High | MediumRating | Low

  /** The description of a kept relationship pattern and its status. */
  datatype RelInfo = RelInfo(description: string, status: Status)

  /** The description of an alignment metric and its rating. */
  datatype MetricInfo = MetricInfo(description: string, rating: Rating)

  /** The mapping `compare_phrases` returns, one field per key. */
  datatype ComparisonResult = ComparisonResult(
    overallScore: int,
    compatibility: real,
    relationshipPatterns: seq<Entry<RelInfo>>,
    alignmentMetrics: seq<Entry<MetricInfo>>,
    constructive: real,
    destructive: real,
    hermeticSynergy: seq<Entry<()>>,
    recommendations: seq<string>,
    phrase1: AnalysisResult,
    phrase2: AnalysisResult)

  function Abs(x: real): real { if x < 0.0 then -x else x }

  function MaxInt(a: int, b: int): int { if a >= b then a else b }

  /** The status of a relationship pattern of the given strength, or `None` when it is left out. */
  function StatusOf(strength: real): (r: Option<Status>)
    ensures r == Some(StrongPositive) <==> strength > SYNERGY_THRESHOLD
    ensures r == Some(Moderate) <==> INTERFERENCE_THRESHOLD < strength <= SYNERGY_THRESHOLD
    ensures r == None <==> strength <= INTERFERENCE_THRESHOLD
  {
    if strength > SYNERGY_THRESHOLD then Some(StrongPositive)
    else if strength > INTERFERENCE_THRESHOLD then Some(Moderate)
    else None
  }

  /** The entry `compare_phrases` writes for one relationship pattern, if its strength gives it a status. */
  function RelEntry(p: Relationship, w: Waves, product: real): (r: seq<Entry<RelInfo>>)
    ensures |r| <= 1
    ensures r != [] <==> w.interference(p.name, product) > INTERFERENCE_THRESHOLD
    ensures forall e :: e in r ==>
              e.name == p.name && e.info.description == p.description
              && e.score == w.interference(p.name, product)
              && (e.info.status == StrongPositive <==> e.score > SYNERGY_THRESHOLD)
  {
    var strength := w.interference(p.name, product);
    match StatusOf(strength)
    case None => []
    case Some(st) => [Entry(p.name, strength, RelInfo(p.description, st))]
  }

  /** The relationship patterns of `pats` whose strength at `product` gives them a status, in order. */
  function Relationships(pats: seq<Relationship>, w: Waves, product: real): (r: seq<Entry<RelInfo>>)
    ensures |r| <= |pats|
  {
    if pats == [] then []
    else Relationships(pats[..|pats| - 1], w, product) + RelEntry(pats[|pats| - 1], w, product)
  }

  /** Every pattern whose strength is above 0.333 is kept. */
  lemma {:induction false} RelationshipsComplete(pats: seq<Relationship>, w: Waves, product: real, p: Relationship)
    requires p in pats && w.interference(p.name, product) > INTERFERENCE_THRESHOLD
    ensures exists e :: e in Relationships(pats, w, product) && e.name == p.name
  {
    var init := pats[..|pats| - 1];
    var last := RelEntry(pats[|pats| - 1], w, product);
    assert Relationships(pats, w, product) == Relationships(init, w, product) + last;
    if p == pats[|pats| - 1] {
      assert last[0] in Relationships(pats, w, product);
    } else {
      assert pats == init + [pats[|pats| - 1]];
      assert p in init;
      RelationshipsComplete(init, w, product, p);
      var e :| e in Relationships(init, w, product) && e.name == p.name;
      assert e in Relationships(pats, w, product);
    }
  }

  /**
   * Every kept pattern comes from the catalog with its own description,
   * its strength, which is above 0.333, and "Strong Positive" exactly
   * when the strength is above 0.777.
   */
  lemma {:induction false} RelationshipsSound(pats: seq<Relationship>, w: Waves, product: real, e: Entry<RelInfo>)
    requires e in Relationships(pats, w, product)
    ensures exists p :: p in pats && p.name == e.name && p.description == e.info.description
    ensures e.score == w.interference(e.name, product) > INTERFERENCE_THRESHOLD
    ensures e.info.status == StrongPositive <==> e.score > SYNERGY_THRESHOLD
  {
    var init := pats[..|pats| - 1];
    var p := pats[|pats| - 1];
    assert Relationships(pats, w, product) == Relationships(init, w, product) + RelEntry(p, w, product);
    if e in Relationships(init, w, product) {
      RelationshipsSound(init, w, product, e);
      var q :| q in init && q.name == e.name && q.description == e.info.description;
      assert q in pats;
    } else {
      assert e in RelEntry(p, w, product);
      assert p in pats;
    }
  }

  /** The keys of the relationship catalog, in order. */
  function PatternNames(pats: seq<Relationship>): (r: seq<string>)
    ensures |r| == |pats|
    ensures forall i :: 0 <= i < |pats| ==> r[i] == pats[i].name
  {
    seq(|pats|, i requires 0 <= i < |pats| => pats[i].name)
  }

  /** The name a pattern contributes: its own, exactly when its strength is above 0.333. */
  lemma RelEntryNames(p: Relationship, w: Waves, product: real)
    ensures Names(RelEntry(p, w, product))
         == Names(if w.interference(p.name, product) > INTERFERENCE_THRESHOLD
                  then [Entry(p.name, w.interference(p.name, product), ())] else [])
  {
  }

  /** One more catalog pattern appends the names of its own entry. */
  lemma RelationshipsSnocNames(pats: seq<Relationship>, w: Waves, product: real)
    requires pats != []
    ensures Names(Relationships(pats, w, product))
         == Names(Relationships(pats[..|pats| - 1], w, product)) + Names(RelEntry(pats[|pats| - 1], w, product))
  {
    NamesAppend(Relationships(pats[..|pats| - 1], w, product), RelEntry(pats[|pats| - 1], w, product));
  }

  /** One more catalog key appends its name to the filtered keys exactly when its strength is above 0.333. */
  lemma FilteredSnocNames(pats: seq<Relationship>, w: Waves, product: real)
    requires pats != []
    ensures Names(Above(Scored(PatternNames(pats), w.interference, product), INTERFERENCE_THRESHOLD))
         == Names(Above(Scored(PatternNames(pats[..|pats| - 1]), w.interference, product), INTERFERENCE_THRESHOLD))
            + Names(if w.interference(pats[|pats| - 1].name, product) > INTERFERENCE_THRESHOLD
                    then [Entry(pats[|pats| - 1].name, w.interference(pats[|pats| - 1].name, product), ())] else [])
  {
    var init := pats[..|pats| - 1];
    var p := pats[|pats| - 1];
    var scored := Scored(PatternNames(init), w.interference, product);
    var x := Entry(p.name, w.interference(p.name, product), ());
    assert PatternNames(pats) == PatternNames(init) + [p.name];
    ScoredSnoc(PatternNames(init), p.name, w.interference, product);
    AboveSnoc(scored, x, INTERFERENCE_THRESHOLD);
    NamesAppend(Above(scored, INTERFERENCE_THRESHOLD), if x.score > INTERFERENCE_THRESHOLD then [x] else []);
  }

  /**
   * The kept patterns are the catalog keys whose strength is above 0.333,
   * each once and in catalog order: the same as filtering the scored keys.
   */
  lemma {:induction false} RelationshipsInOrder(pats: seq<Relationship>, w: Waves, product: real)
    ensures Names(Relationships(pats, w, product))
         == Names(Above(Scored(PatternNames(pats), w.interference, product), INTERFERENCE_THRESHOLD))
  {
    if pats != [] {
      RelationshipsInOrder(pats[..|pats| - 1], w, product);
      RelationshipsSnocNames(pats, w, product);
      FilteredSnocNames(pats, w, product);
      RelEntryNames(pats[|pats| - 1], w, product);
    }
  }

  /**
   * A pattern is kept iff its strength is above 0.333, banded by 0.777;
   * the kept patterns appear once each, in catalog order.
   */
  lemma RelationshipsSpec(pats: seq<Relationship>, w: Waves, product: real)
    ensures Names(Relationships(pats, w, product))
         == Names(Above(Scored(PatternNames(pats), w.interference, product), INTERFERENCE_THRESHOLD))
    ensures forall p :: p in pats && w.interference(p.name, product) > INTERFERENCE_THRESHOLD ==>
              exists e :: e in Relationships(pats, w, product) && e.name == p.name
    ensures forall e :: e in Relationships(pats, w, product) ==>
              (exists p :: p in pats && p.name == e.name && p.description == e.info.description)
              && e.score == w.interference(e.name, product) > INTERFERENCE_THRESHOLD
              && (e.info.status == StrongPositive <==> e.score > SYNERGY_THRESHOLD)
  {
    RelationshipsInOrder(pats, w, product);
    forall p | p in pats && w.interference(p.name, product) > INTERFERENCE_THRESHOLD
      ensures exists e :: e in Relationships(pats, w, product) && e.name == p.name
    {
      RelationshipsComplete(pats, w, product, p);
    }
    forall e | e in Relationships(pats, w, product)
      ensures (exists p :: p in pats && p.name == e.name && p.description == e.info.description)
              && e.score == w.interference(e.name, product) > INTERFERENCE_THRESHOLD
              && (e.info.status == StrongPositive <==> e.score > SYNERGY_THRESHOLD)
    {
      RelationshipsSound(pats, w, product, e);
    }
  }

  /**
   * The quantities of a pair of analyses the comparison formulas read:
   * the absolute difference, the product and the sum of the quantum
   * resonances, and the product of the harmonic resonances.
   */
  datatype PairBasis = PairBasis(diff: real, product: real, total: real, harmonics: real)

  function Basis(a1: AnalysisResult, a2: AnalysisResult): PairBasis
  {
    PairBasis(Abs(a1.quantumResonance - a2.quantumResonance), a1.quantumResonance * a2.quantumResonance,
              a1.quantumResonance + a2.quantumResonance, a1.harmonicResonance * a2.harmonicResonance)
  }

  /** The quantities of a pair do not depend on its order. */
  lemma BasisSymmetric(a1: AnalysisResult, a2: AnalysisResult)
    ensures Basis(a2, a1) == Basis(a1, a2)
  {
    assert Abs(a2.quantumResonance - a1.quantumResonance) == Abs(a1.quantumResonance - a2.quantumResonance);
  }

  /** `math.exp(-abs(r1 - r2) / PHI)`. */
  function Compatibility(w: Waves, b: PairBasis): real
  {
    w.exp(-b.diff / PHI)
  }

  /** The weighted value of one alignment metric, by the branch the source takes on its name. */
  function MetricValue(m: Metric, w: Waves, compatibility: real, b: PairBasis): real
  {
    if m.name == ENERGETIC_COMPATIBILITY then compatibility * m.weight
    else if m.name == GROWTH_POTENTIAL then w.sinAbs(b.harmonics) * m.weight
    else if m.name == STABILITY_FACTOR then (1.0 - w.cosAbs(b.diff)) * m.weight
    else if m.name == SYNERGY_QUOTIENT then w.sinAbs(b.total) * m.weight
    else w.cosAbs(b.diff * PHI) * m.weight
  }

  /** `rating`. */
  function RatingOf(value: real): (r: Rating)
    ensures r == High <==> value > 0.8
    ensures r == MediumRating <==> 0.5 < value <= 0.8
    ensures r == Low <==> value <= 0.5
  {
    if value > 0.8 then High else if value > 0.5 then MediumRating else Low
  }

  /** One rated entry per metric of `ms`, in order. */
  function Metrics(ms: seq<Metric>, w: Waves, compatibility: real, b: PairBasis)
    : (r: seq<Entry<MetricInfo>>)
    ensures |r| == |ms|
  {
    if ms == [] then []
    else
      var m := ms[|ms| - 1];
      var v := MetricValue(m, w, compatibility, b);
      Metrics(ms[..|ms| - 1], w, compatibility, b) + [Entry(m.name, v, MetricInfo(m.description, RatingOf(v)))]
  }

  /** Every metric gets an entry, in order, with its weighted value, its description and its rating band. */
  lemma {:induction false} MetricsSpec(ms: seq<Metric>, w: Waves, compatibility: real, b: PairBasis)
    ensures |Metrics(ms, w, compatibility, b)| == |ms|
    ensures forall i :: 0 <= i < |ms| ==>
              var e := Metrics(ms, w, compatibility, b)[i];
              e.name == ms[i].name && e.info.description == ms[i].description
              && e.score == MetricValue(ms[i], w, compatibility, b)
              && e.info.rating == RatingOf(e.score)
  {
    if ms != [] {
      MetricsSpec(ms[..|ms| - 1], w, compatibility, b);
    }
  }

  /** `overall_compatibility_score`: the truncated weighted average, guarded against no patterns. */
  function OverallScore(compatibility: real, rels: seq<Entry<RelInfo>>, mets: seq<Entry<MetricInfo>>): int
    requires |mets| > 0
  {
    Trunc((compatibility * 0.3
           + SumScores(rels) * 0.4 / (MaxInt(|rels|, 1) as real)
           + SumScores(mets) * 0.3 / (|mets| as real)) * 100.0)
  }

  /** With no relationship pattern the pattern term adds nothing, rather than dividing by zero. */
  lemma OverallScoreNoPatterns(compatibility: real, mets: seq<Entry<MetricInfo>>)
    requires |mets| > 0
    ensures OverallScore(compatibility, [], mets)
         == Trunc((compatibility * 0.3 + SumScores(mets) * 0.3 / (|mets| as real)) * 100.0)
  {
  }

  /** With no negative input the overall score is not negative. */
  lemma OverallScoreNonNegative(compatibility: real, rels: seq<Entry<RelInfo>>, mets: seq<Entry<MetricInfo>>)
    requires |mets| > 0
    requires compatibility >= 0.0
    requires forall e :: e in rels ==> e.score >= 0.0
    requires forall e :: e in mets ==> e.score >= 0.0
    ensures OverallScore(compatibility, rels, mets) >= 0
  {
    SumScoresNonNegative(rels);
    SumScoresNonNegative(mets);
    var n := MaxInt(|rels|, 1) as real;
    var m := |mets| as real;
    var x := SumScores(rels) * 0.4;
    var y := SumScores(mets) * 0.3;
    assert x >= 0.0 && y >= 0.0;
    assert x / n >= 0.0;
    assert y / m >= 0.0;
    assert compatibility * 0.3 >= 0.0;
  }

  lemma {:induction false} SumScoresNonNegative<T(!new)>(s: seq<Entry<T>>)
    requires forall e :: e in s ==> e.score >= 0.0
    ensures SumScores(s) >= 0.0
  {
    if s != [] {
      var init := s[..|s| - 1];
      assert forall e :: e in init ==> e in s;
      SumScoresNonNegative(init);
      assert s[|s| - 1] in s;
    }
  }

  /** The three band messages, for an overall score above 80, above 60, and otherwise. */
  const STRONG_ALIGNMENT: string := "Strong universal alignment - Highly favorable combination"
  const POSITIVE_RESONANCE: string := "Positive resonance - Favorable with minor adjustments needed"
  const MODERATE_ALIGNMENT: string := "Moderate alignment - Consider carefully and look for complementary factors"

  /** The fixed parts of the pattern and metric callouts. */
  const FOCUS_PREFIX: string := "Focus on "
  const FOCUS_SUFFIX: string := " aspects for best results"
  const LEVERAGE_PREFIX: string := "Leverage strong "
  const LEVERAGE_SUFFIX: string := " for practical implementation"

  /** The first recommendation, by the overall score. */
  function BandMessage(score: int): string
  {
    if score > 80 then STRONG_ALIGNMENT
    else if score > 60 then POSITIVE_RESONANCE
    else MODERATE_ALIGNMENT
  }

  /** `name.replace('_', ' ')`. */
  function Spaced(name: string): (r: string)
    ensures |r| == |name|
    ensures forall i :: 0 <= i < |r| ==> r[i] != '_'
    ensures forall i :: 0 <= i < |r| && name[i] == '_' ==> r[i] == ' '
    ensures forall i :: 0 <= i < |r| && name[i] != '_' ==> r[i] == name[i]
  {
    seq(|name|, i requires 0 <= i < |name| => if name[i] == '_' then ' ' else name[i])
  }

  function PatternCallout(name: string): string
  {
    FOCUS_PREFIX + Spaced(name) + FOCUS_SUFFIX
  }

  function MetricCallout(name: string): string
  {
    LEVERAGE_PREFIX + Spaced(name) + LEVERAGE_SUFFIX
  }

  /** `recommendations`: the band message, the strongest pattern when there is one, the strongest metric. */
  function Recommendations(score: int, rels: seq<Entry<RelInfo>>, mets: seq<Entry<MetricInfo>>): seq<string>
    requires |mets| > 0
  {
    [BandMessage(score)]
      + (if rels == [] then [] else [PatternCallout(Strongest(rels))])
      + [MetricCallout(Strongest(mets))]
  }

  /** The band message follows the 80 / 60 cut-offs of the overall score. */
  lemma BandMessageSpec(score: int)
    ensures score > 80 ==> BandMessage(score) == STRONG_ALIGNMENT
    ensures 60 < score <= 80 ==> BandMessage(score) == POSITIVE_RESONANCE
    ensures score <= 60 ==> BandMessage(score) == MODERATE_ALIGNMENT
  {
  }

  /**
   * Two recommendations without a relationship pattern, three with one;
   * the band message comes first, the pattern callout names the first
   * strongest pattern, and the metric callout, always last, names the
   * first strongest metric.
   */
  lemma RecommendationsSpec(score: int, rels: seq<Entry<RelInfo>>, mets: seq<Entry<MetricInfo>>)
    requires |mets| > 0
    ensures |Recommendations(score, rels, mets)| == if rels == [] then 2 else 3
    ensures Recommendations(score, rels, mets)[0] == BandMessage(score)
    ensures rels != [] ==> exists n :: FirstMaximal(rels, n) && Recommendations(score, rels, mets)[1] == PatternCallout(n)
    ensures exists n :: FirstMaximal(mets, n)
              && Recommendations(score, rels, mets)[|Recommendations(score, rels, mets)| - 1] == MetricCallout(n)
  {
    var r := Recommendations(score, rels, mets);
    var middle := if rels == [] then [] else [PatternCallout(Strongest(rels))];
    assert r == [BandMessage(score)] + middle + [MetricCallout(Strongest(mets))];
    if rels != [] {
      StrongestIsFirstMaximal(rels);
      assert r[1] == PatternCallout(Strongest(rels));
    }
    StrongestIsFirstMaximal(mets);
    assert r[|r| - 1] == MetricCallout(Strongest(mets));
  }

  /** `hermetic_synergy`: the absolute difference of each principle's two resonances. */
  function Synergy(h1: seq<Entry<()>>, h2: seq<Entry<()>>): (r: seq<Entry<()>>)
    requires |h1| == |h2|
    ensures Names(r) == Names(h1)
  {
    seq(|h1|, i requires 0 <= i < |h1| => Entry(h1[i].name, Abs(h1[i].score - h2[i].score), ()))
  }

  /**
   * The comparison built from the relationship and metric catalogs, the
   * pair quantities, the synergy and the two analyses.
   */
  function Combine(pats: seq<Relationship>, ms: seq<Metric>, w: Waves, b: PairBasis, synergy: seq<Entry<()>>,
                   a1: AnalysisResult, a2: AnalysisResult): ComparisonResult
    requires |ms| > 0
  {
    var compatibility := Compatibility(w, b);
    var rels := Relationships(pats, w, b.product);
    var mets := Metrics(ms, w, compatibility, b);
    var score := OverallScore(compatibility, rels, mets);
    ComparisonResult(score, compatibility, rels, mets, Abs(b.total) / 2.0, b.diff / 2.0, synergy,
                     Recommendations(score, rels, mets), a1, a2)
  }

  /** `Combine`, field by field. */
  lemma CombineFields(pats: seq<Relationship>, ms: seq<Metric>, w: Waves, b: PairBasis, synergy: seq<Entry<()>>,
                      a1: AnalysisResult, a2: AnalysisResult, compatibility: real,
                      rels: seq<Entry<RelInfo>>, mets: seq<Entry<MetricInfo>>)
    requires |ms| > 0
    requires compatibility == Compatibility(w, b)
    requires rels == Relationships(pats, w, b.product)
    requires mets == Metrics(ms, w, compatibility, b)
    ensures Combine(pats, ms, w, b, synergy, a1, a2)
         == ComparisonResult(OverallScore(compatibility, rels, mets), compatibility, rels, mets,
                             Abs(b.total) / 2.0, b.diff / 2.0, synergy, Recommendations(OverallScore(compatibility, rels, mets), rels, mets),
                             a1, a2)
  {
  }

  /** The comparison of two analyses. */
  function Compare(w: Waves, a1: AnalysisResult, a2: AnalysisResult): ComparisonResult
    requires |a1.hermeticResonances| == |a2.hermeticResonances|
  {
    Combine(RELATIONSHIP_PATTERNS, ALIGNMENT_METRICS, w, Basis(a1, a2),
            Synergy(a1.hermeticResonances, a2.hermeticResonances), a1, a2)
  }

  /**
   * `compare_phrases(phrase1, phrase2)`: both phrases are analysed under
   * the default system, whose absence is the source's lookup error.
   */
  function ComparePhrases(physics: Physics, catalogs: Catalogs, w: Waves, systems: map<string, Table>, phrase1: string, phrase2: string)
    : (r: Result<ComparisonResult, EngineError>)
    ensures r.Failure? <==> QUANTUM_HERMETIC !in systems
    ensures r.Failure? ==> r.error == UnknownSystem(QUANTUM_HERMETIC)
  {
    if QUANTUM_HERMETIC !in systems then Failure(UnknownSystem(QUANTUM_HERMETIC))
    else
      var a1 := AnalyzeText(physics, catalogs, systems, phrase1, QUANTUM_HERMETIC).value;
      var a2 := AnalyzeText(physics, catalogs, systems, phrase2, QUANTUM_HERMETIC).value;
      Success(Compare(w, a1, a2))
  }

  lemma SynergySymmetric(h1: seq<Entry<()>>, h2: seq<Entry<()>>)
    requires Names(h1) == Names(h2)
    ensures Synergy(h2, h1) == Synergy(h1, h2)
  {
    var u := Synergy(h2, h1);
    var v := Synergy(h1, h2);
    forall i | 0 <= i < |u|
      ensures u[i] == v[i]
    {
      assert h2[i].name == Names(h2)[i] == Names(h1)[i] == h1[i].name;
    }
  }

  /** Comparing in the other order gives the same comparison, with the two analyses swapped. */
  lemma CompareSymmetric(w: Waves, a1: AnalysisResult, a2: AnalysisResult)
    requires Names(a1.hermeticResonances) == Names(a2.hermeticResonances)
    ensures Compare(w, a2, a1) == Compare(w, a1, a2).(phrase1 := a2, phrase2 := a1)
  {
    BasisSymmetric(a1, a2);
    SynergySymmetric(a1.hermeticResonances, a2.hermeticResonances);
  }

  lemma SynergySelf(h: seq<Entry<()>>)
    ensures forall e :: e in Synergy(h, h) ==> e.score == 0.0
  {
    forall e | e in Synergy(h, h)
      ensures e.score == 0.0
    {
      var i :| 0 <= i < |h| && Synergy(h, h)[i] == e;
    }
  }

  /**
   * An analysis compared with itself has no destructive interference, a
   * zero synergy for every principle, and the compatibility `exp(0)`.
   */
  lemma CompareIdentical(w: Waves, a: AnalysisResult)
    ensures Compare(w, a, a).destructive == 0.0
    ensures Compare(w, a, a).compatibility == w.exp(0.0)
    ensures Names(Compare(w, a, a).hermeticSynergy) == Names(a.hermeticResonances)
    ensures forall e :: e in Compare(w, a, a).hermeticSynergy ==> e.score == 0.0
  {
    assert Basis(a, a).diff == 0.0;
    SynergySelf(a.hermeticResonances);
  }

  /**
   * Swapping the two phrases swaps them in the comparison and changes
   * nothing else: every score, pattern, metric and recommendation is the same.
   */
  lemma ComparePhrasesSymmetric(physics: Physics, catalogs: Catalogs, w: Waves, systems: map<string, Table>, phrase1: string, phrase2: string)
    requires QUANTUM_HERMETIC in systems
    ensures ComparePhrases(physics, catalogs, w, systems, phrase2, phrase1).Success?
    ensures ComparePhrases(physics, catalogs, w, systems, phrase2, phrase1).value
         == ComparePhrases(physics, catalogs, w, systems, phrase1, phrase2).value.(phrase1 := ComparePhrases(physics, catalogs, w, systems, phrase1, phrase2).value.phrase2,
                                                                        phrase2 := ComparePhrases(physics, catalogs, w, systems, phrase1, phrase2).value.phrase1)
  {
    var a1 := AnalyzeText(physics, catalogs, systems, phrase1, QUANTUM_HERMETIC).value;
    var a2 := AnalyzeText(physics, catalogs, systems, phrase2, QUANTUM_HERMETIC).value;
    DominantSpec(physics, catalogs, a1.baseValue);
    DominantSpec(physics, catalogs, a2.baseValue);
    CompareSymmetric(w, a1, a2);
  }

  /** A phrase compared with itself: no destructive interference, compatibility exp(0) and a zero synergy for every principle. */
  lemma ComparePhrasesIdentical(physics: Physics, catalogs: Catalogs, w: Waves, systems: map<string, Table>, phrase: string)
    requires QUANTUM_HERMETIC in systems
    ensures ComparePhrases(physics, catalogs, w, systems, phrase, phrase).Success?
    ensures ComparePhrases(physics, catalogs, w, systems, phrase, phrase).value.destructive == 0.0
    ensures ComparePhrases(physics, catalogs, w, systems, phrase, phrase).value.compatibility == w.exp(0.0)
    ensures Names(ComparePhrases(physics, catalogs, w, systems, phrase, phrase).value.hermeticSynergy) == HERMETIC_PRINCIPLES
    ensures forall e :: e in ComparePhrases(physics, catalogs, w, systems, phrase, phrase).value.hermeticSynergy ==> e.score == 0.0
  {
    var a := AnalyzeText(physics, catalogs, systems, phrase, QUANTUM_HERMETIC).value;
    DominantSpec(physics, catalogs, a.baseValue);
    CompareIdentical(w, a);
  }
}

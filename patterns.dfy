/**
 * The pattern and technology selections of the engine:
 * `detect_quantum_patterns` keeps every named resonance above the
 * resonance threshold in the order it checks them, and
 * `map_egyptian_technology` / `map_modern_equivalents` keep the catalog
 * entries above the same threshold, sorted by descending strength, at
 * most three of them. Every score is a sine or cosine of the resonance
 * in the source; here it is an uninterpreted function of the entry's
 * name and the resonance.
 */
module Patterns {
  import opened Constants
  import opened Ranking

  /** How the source scores a named entry at a given resonance value. */
  type Scorer = (string, real) -> real

  /** The named scores of `names` at `value`, in the order of `names`. */
  function Scored(names: seq<string>, score: Scorer, value: real): (r: seq<Entry<()>>)
    ensures |r| == |names|
    ensures forall i :: 0 <= i < |names| ==> r[i] == Entry(names[i], score(names[i], value), ())
  {
    seq(|names|, i requires 0 <= i < |names| => Entry(names[i], score(names[i], value), ()))
  }

  /** Scoring a list of names keeps exactly those names, in order. */
  lemma ScoredNames(names: seq<string>, score: Scorer, value: real)
    ensures Names(Scored(names, score, value)) == names
  {
    assert forall i :: 0 <= i < |names| ==> Names(Scored(names, score, value))[i] == names[i];
  }

  /** Scoring one more name appends its entry. */
  lemma ScoredSnoc(names: seq<string>, n: string, score: Scorer, value: real)
    ensures Scored(names + [n], score, value) == Scored(names, score, value) + [Entry(n, score(n, value), ())]
  {
  }

  /** The entries of a technology catalog scored at `value`, in catalog order. */
  function Catalog(items: seq<TechItem>, score: Scorer, value: real): (r: seq<Entry<TechItem>>)
    ensures |r| == |items|
    ensures forall i :: 0 <= i < |items| ==> r[i] == Entry(items[i].name, score(items[i].name, value), items[i])
  {
    seq(|items|, i requires 0 <= i < |items| => Entry(items[i].name, score(items[i].name, value), items[i]))
  }

  /** Scoring one more catalog item appends its entry. */
  lemma CatalogSnoc(items: seq<TechItem>, x: TechItem, score: Scorer, value: real)
    ensures Catalog(items + [x], score, value) == Catalog(items, score, value) + [Entry(x.name, score(x.name, value), x)]
  {
  }

  /** `detect_quantum_patterns(value)`: the named resonances above the threshold. */
  function QuantumPatterns(score: Scorer, value: real): seq<Entry<()>>
  {
    Above(Scored(QUANTUM_PATTERN_NAMES, score, value), RESONANCE_THRESHOLD)
  }

  /** The entry as kept when its score is above the resonance threshold, else nothing. */
  function Kept<T>(e: Entry<T>): seq<Entry<T>>
  {
    if e.score > RESONANCE_THRESHOLD then [e] else []
  }

  /** The detector's three steps: the archetypes in order, then coherence, then Fibonacci alignment. */
  lemma QuantumPatternsSteps(score: Scorer, value: real)
    ensures QuantumPatterns(score, value)
         == Above(Scored(ARCHETYPES, score, value), RESONANCE_THRESHOLD)
            + Kept(Entry(QUANTUM_COHERENT, score(QUANTUM_COHERENT, value), ()))
            + Kept(Entry(FIBONACCI_ALIGNED, score(FIBONACCI_ALIGNED, value), ()))
  {
    var coherent := Entry(QUANTUM_COHERENT, score(QUANTUM_COHERENT, value), ());
    var fib := Entry(FIBONACCI_ALIGNED, score(FIBONACCI_ALIGNED, value), ());
    ScoredSnoc(ARCHETYPES, QUANTUM_COHERENT, score, value);
    ScoredSnoc(ARCHETYPES + [QUANTUM_COHERENT], FIBONACCI_ALIGNED, score, value);
    AboveSnoc(Scored(ARCHETYPES, score, value), coherent, RESONANCE_THRESHOLD);
    AboveSnoc(Scored(ARCHETYPES + [QUANTUM_COHERENT], score, value), fib, RESONANCE_THRESHOLD);
    assert ARCHETYPES + [QUANTUM_COHERENT] + [FIBONACCI_ALIGNED] == QUANTUM_PATTERN_NAMES;
  }

  /**
   * A name is reported iff it is one the detector checks and its score
   * is strictly above 0.618, and it is reported with that score.
   */
  lemma QuantumPatternsSpec(score: Scorer, value: real)
    ensures |QuantumPatterns(score, value)| <= |QUANTUM_PATTERN_NAMES|
    ensures forall n :: n in Names(QuantumPatterns(score, value))
              <==> n in QUANTUM_PATTERN_NAMES && score(n, value) > RESONANCE_THRESHOLD
    ensures forall e :: e in QuantumPatterns(score, value) ==> e.score == score(e.name, value) > RESONANCE_THRESHOLD
  {
    var all := Scored(QUANTUM_PATTERN_NAMES, score, value);
    var r := QuantumPatterns(score, value);
    forall n
      ensures n in Names(r) <==> n in QUANTUM_PATTERN_NAMES && score(n, value) > RESONANCE_THRESHOLD
    {
      if n in Names(r) {
        var i :| 0 <= i < |r| && Names(r)[i] == n;
        assert r[i] in r;
        var j :| 0 <= j < |all| && all[j] == r[i];
        assert QUANTUM_PATTERN_NAMES[j] == n;
      }
      if n in QUANTUM_PATTERN_NAMES && score(n, value) > RESONANCE_THRESHOLD {
        var j :| 0 <= j < |QUANTUM_PATTERN_NAMES| && QUANTUM_PATTERN_NAMES[j] == n;
        assert all[j] in all;
        var i :| 0 <= i < |r| && r[i] == all[j];
        assert Names(r)[i] == n;
      }
    }
    forall e | e in r
      ensures e.score == score(e.name, value) > RESONANCE_THRESHOLD
    {
      var j :| 0 <= j < |all| && all[j] == e;
    }
  }

  /** `dict(sorted(qualifying, key=strength, reverse=True)[:3])` over a catalog. */
  function Technology(items: seq<TechItem>, score: Scorer, value: real): seq<Entry<TechItem>>
  {
    TopThree(Catalog(items, score, value), RESONANCE_THRESHOLD)
  }

  /** `map_egyptian_technology(resonance)`. */
  function EgyptianTechnology(c: Catalogs, score: Scorer, resonance: real): seq<Entry<TechItem>>
  {
    Technology(c.egyptianTech, score, resonance)
  }

  /** `map_modern_equivalents(resonance)`. */
  function ModernEquivalents(c: Catalogs, score: Scorer, resonance: real): seq<Entry<TechItem>>
  {
    Technology(c.modernEquivalents, score, resonance)
  }

  /**
   * A technology mapping keeps at most three catalog entries, each with
   * its own score, which is above 0.618, in non-increasing order of score;
   * entries of equal score keep their catalog order, and no qualifying
   * entry that was dropped scores higher than one that was kept.
   */
  lemma TechnologySpec(items: seq<TechItem>, score: Scorer, value: real)
    ensures |Technology(items, score, value)| == Min(3, |Above(Catalog(items, score, value), RESONANCE_THRESHOLD)|)
    ensures forall e :: e in Technology(items, score, value) ==>
              e.info in items && e.name == e.info.name && e.score == score(e.name, value) > RESONANCE_THRESHOLD
    ensures NonIncreasing(Technology(items, score, value))
    ensures forall x :: WithScore(Technology(items, score, value), x) <= WithScore(Catalog(items, score, value), x)
    ensures forall e, k :: e in Catalog(items, score, value) && e.score > RESONANCE_THRESHOLD
              && e !in Technology(items, score, value) && k in Technology(items, score, value)
              ==> e.score <= k.score
  {
    var all := Catalog(items, score, value);
    var r := Technology(items, score, value);
    TopThreeSpec(all, RESONANCE_THRESHOLD);
    forall e | e in r
      ensures e.info in items && e.name == e.info.name && e.score == score(e.name, value) > RESONANCE_THRESHOLD
    {
      var j :| 0 <= j < |all| && all[j] == e;
      assert items[j] == e.info;
    }
  }

  /** The Egyptian mapping holds at most three entries, the strongest first. */
  lemma EgyptianTechnologySpec(c: Catalogs, score: Scorer, resonance: real)
    ensures |EgyptianTechnology(c, score, resonance)| <= 3
    ensures forall e :: e in EgyptianTechnology(c, score, resonance) ==>
              e.info in c.egyptianTech && e.score == score(e.name, resonance) > RESONANCE_THRESHOLD
    ensures NonIncreasing(EgyptianTechnology(c, score, resonance))
  {
    TechnologySpec(c.egyptianTech, score, resonance);
  }

  /** The modern mapping holds at most three entries, the strongest first. */
  lemma ModernEquivalentsSpec(c: Catalogs, score: Scorer, resonance: real)
    ensures |ModernEquivalents(c, score, resonance)| <= 3
    ensures forall e :: e in ModernEquivalents(c, score, resonance) ==>
              e.info in c.modernEquivalents && e.score == score(e.name, resonance) > RESONANCE_THRESHOLD
    ensures NonIncreasing(ModernEquivalents(c, score, resonance))
  {
    TechnologySpec(c.modernEquivalents, score, resonance);
  }
}

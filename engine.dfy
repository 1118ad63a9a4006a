/**
 * The `QuantumHermeticGematria` object: its constructor registers the
 * five gematria tables, and its methods fill their dictionaries step by
 * step as the source does. Each method is proved to compute exactly the
 * function of the model that specifies it, so every property proved
 * about those functions holds of the object's results.
 */
module Engine {
  import opened Wrappers
  import opened Constants
  import opened Ranking
  import opened Gematria
  import opened Patterns
  import opened Analysis
  import opened Comparison

  class QuantumHermeticGematria {
    /** `int(frequency * 100)` of each letter of the quantum_hermetic table. */
    const quantize: Quantizer
    /** The floating-point formulas of the analysis, fixed by the matrices built in `__init__`. */
    const physics: Physics
    /** The floating-point functions the comparison calls. */
    const waves: Waves
    /** The technology catalogs of `self.constants`. */
    const catalogs: Catalogs
    /** `self.systems`. */
    var systems: map<string, Table>

    predicate Valid()
      reads this
    {
      systems == StandardSystems(quantize) && catalogs == UNIVERSAL_CATALOGS
    }

    /** What analysis under the default system needs of the tables: that system is present. */
    predicate HasDefaultSystem()
      reads this
    {
      QUANTUM_HERMETIC in systems
    }

    lemma ValidHasDefaultSystem()
      requires Valid()
      ensures HasDefaultSystem()
    {
      StandardSystemsLookup(quantize);
    }

    constructor (quantize: Quantizer, physics: Physics, waves: Waves)
      ensures this.quantize == quantize && this.physics == physics && this.waves == waves
      ensures Valid()
    {
      this.quantize := quantize;
      this.physics := physics;
      this.waves := waves;
      this.catalogs := UNIVERSAL_CATALOGS;
      new;
      SetupGematriaSystems();
    }

    /** `setup_gematria_systems`: register the five tables under their names. */
    method SetupGematriaSystems()
      modifies this
      ensures systems == StandardSystems(quantize)
    {
      var quantumHermetic := GenerateQuantumHermeticSystem();
      systems := Systems(quantumHermetic, EnglishOrdinalTable(), QBL_TABLE, GREEK_TABLE, HEBREW_TABLE);
      assert systems == Systems(QuantumHermeticTable(quantize), EnglishOrdinalTable(), QBL_TABLE, GREEK_TABLE, HEBREW_TABLE);
    }

    /**
     * `_generate_quantum_hermetic_system`: for each letter in alphabet
     * order, choose its multipliers and store its quantized frequency.
     */
    method GenerateQuantumHermeticSystem() returns (quantum: Table)
      ensures quantum == QuantumHermeticTable(quantize)
    {
      quantum := map[];
      for v := 1 to 27
        invariant quantum == LetterTable(LetterValue(quantize), v - 1)
      {
        var factors := LetterFactors(v);
        assert LetterValue(quantize)(v) == quantize(v, factors);
        quantum := quantum[LetterKey(v) := quantize(v, factors)];
      }
    }

    /** The multipliers the letter loop applies to the letter with ordinal `v`, in order. */
    static method LetterFactors(v: int) returns (factors: seq<Factor>)
      ensures factors == FactorChain(v)
    {
      factors := [Phi];
      if v in FIBONACCI {
        factors := factors + [GoldenSpiral];
      }
      if v in PRIME {
        factors := factors + [FineStructure];
      }
      factors := factors + [DnaRatio, CosmicRatio];
    }

    /** `calculate_base_value(text, system)`. */
    method CalculateBaseValue(text: string, system: string) returns (r: Result<int, EngineError>)
      ensures r == Gematria.CalculateBaseValue(systems, text, system)
    {
      if system !in systems {
        return Failure(UnknownSystem(system));
      }
      var lowered := Lower(text);
      var systemMap := systems[system];
      var base := 0;
      for i := 0 to |lowered|
        invariant base + RawSum(systemMap, lowered[i..]) == RawSum(systemMap, lowered)
      {
        assert lowered[i..] == [lowered[i]] + lowered[i + 1..];
        base := base + Lookup(systemMap, lowered[i]);
      }
      if system == QUANTUM_HERMETIC {
        return Success(base);
      }
      return Success(ScalePhi(base));
    }

    /** `detect_quantum_patterns(value)`: the archetypes, then coherence, then Fibonacci alignment. */
    method DetectQuantumPatterns(value: real) returns (patterns: seq<Entry<()>>)
      ensures patterns == QuantumPatterns(physics.pattern, value)
    {
      patterns := KeepResonant(ARCHETYPES, value);
      var coherence := physics.pattern(QUANTUM_COHERENT, value);
      if coherence > RESONANCE_THRESHOLD {
        patterns := patterns + [Entry(QUANTUM_COHERENT, coherence, ())];
      }
      var fibResonance := physics.pattern(FIBONACCI_ALIGNED, value);
      if fibResonance > RESONANCE_THRESHOLD {
        patterns := patterns + [Entry(FIBONACCI_ALIGNED, fibResonance, ())];
      }
      QuantumPatternsSteps(physics.pattern, value);
    }

    /** The archetype loop of `detect_quantum_patterns`: keep each name whose resonance is above the threshold. */
    method KeepResonant(names: seq<string>, value: real) returns (patterns: seq<Entry<()>>)
      ensures patterns == Above(Scored(names, physics.pattern, value), RESONANCE_THRESHOLD)
    {
      patterns := [];
      for i := 0 to |names|
        invariant patterns == Above(Scored(names[..i], physics.pattern, value), RESONANCE_THRESHOLD)
      {
        var name := names[i];
        var resonance := physics.pattern(name, value);
        PrefixSnoc(names, i);
        ScoredSnoc(names[..i], name, physics.pattern, value);
        AboveSnoc(Scored(names[..i], physics.pattern, value), Entry(name, resonance, ()), RESONANCE_THRESHOLD);
        if resonance > RESONANCE_THRESHOLD {
          patterns := patterns + [Entry(name, resonance, ())];
        }
      }
      assert names[..|names|] == names;
    }

    /** The loop both technology mappings share: keep the qualifying entries, then sort and cut at three. */
    method MapTechnology(items: seq<TechItem>, score: Scorer, resonance: real) returns (r: seq<Entry<TechItem>>)
      ensures r == Technology(items, score, resonance)
    {
      var alignments := [];
      for i := 0 to |items|
        invariant alignments == Above(Catalog(items[..i], score, resonance), RESONANCE_THRESHOLD)
      {
        var item := items[i];
        var alignment := score(item.name, resonance);
        PrefixSnoc(items, i);
        CatalogSnoc(items[..i], item, score, resonance);
        AboveSnoc(Catalog(items[..i], score, resonance), Entry(item.name, alignment, item), RESONANCE_THRESHOLD);
        if alignment > RESONANCE_THRESHOLD {
          alignments := alignments + [Entry(item.name, alignment, item)];
        }
      }
      assert items[..|items|] == items;
      r := Take(SortDesc(alignments), 3);
    }

    /** `map_egyptian_technology(resonance)`. */
    method MapEgyptianTechnology(resonance: real) returns (r: seq<Entry<TechItem>>)
      ensures r == EgyptianTechnology(catalogs, physics.egyptian, resonance)
    {
      r := MapTechnology(catalogs.egyptianTech, physics.egyptian, resonance);
    }

    /** `map_modern_equivalents(resonance)`. */
    method MapModernEquivalents(resonance: real) returns (r: seq<Entry<TechItem>>)
      ensures r == ModernEquivalents(catalogs, physics.modern, resonance)
    {
      r := MapTechnology(catalogs.modernEquivalents, physics.modern, resonance);
    }

    /** `analyze_text(text, system)`. */
    method AnalyzeText(text: string, system: string) returns (r: Result<AnalysisResult, EngineError>)
      ensures r == Analysis.AnalyzeText(physics, catalogs, systems, text, system)
    {
      var base := CalculateBaseValue(text, system);
      if base.Failure? {
        return Failure(base.error);
      }
      var baseValue := base.value;
      var t := physics.transform(baseValue as real);
      var resonance := t.resonance;
      var geometry := Scored(GEOMETRY_PATTERNS, physics.geometry, resonance);
      var harmonic := physics.harmonic(resonance);
      var dominantPattern := Strongest(geometry);
      var hermetic := Scored(HERMETIC_PRINCIPLES, physics.hermetic, resonance);
      var dominantPrinciple := Strongest(hermetic);
      var patterns := DetectQuantumPatterns(resonance);
      var significance := Significance(patterns);
      var strongest := if patterns == [] then None else Some(Strongest(patterns));
      var egyptian := MapEgyptianTechnology(resonance);
      var modern := MapModernEquivalents(resonance);
      var interpretation := Interpretation(strongest, QualityOf(significance), dominantPattern, dominantPrinciple,
                                           TopDevice(egyptian, true), TopDevice(modern, false));
      r := Success(AnalysisResult(baseValue, resonance, t.state, geometry, harmonic, dominantPattern, hermetic,
                                  dominantPrinciple, patterns, significance, interpretation, egyptian, modern));
    }

    /** `compare_phrases(phrase1, phrase2)`: analyse both phrases under the default system, then compare. */
    method ComparePhrases(phrase1: string, phrase2: string) returns (r: Result<ComparisonResult, EngineError>)
      ensures r == Comparison.ComparePhrases(physics, catalogs, waves, systems, phrase1, phrase2)
    {
      var x1 := AnalyzeText(phrase1, QUANTUM_HERMETIC);
      var x2 := AnalyzeText(phrase2, QUANTUM_HERMETIC);
      if x1.Failure? || x2.Failure? {
        return Failure(UnknownSystem(QUANTUM_HERMETIC));
      }
      DominantSpec(physics, catalogs, x1.value.baseValue);
      DominantSpec(physics, catalogs, x2.value.baseValue);
      var c := CompareAnalyses(RELATIONSHIP_PATTERNS, ALIGNMENT_METRICS, x1.value, x2.value);
      r := Success(c);
    }

    /** The part of `compare_phrases` that follows the two analyses, over the two catalogs it reads. */
    method CompareAnalyses(pats: seq<Relationship>, ms: seq<Metric>, a1: AnalysisResult, a2: AnalysisResult)
      returns (c: ComparisonResult)
      requires |ms| > 0
      requires Names(a1.hermeticResonances) == Names(a2.hermeticResonances)
      ensures c == Combine(pats, ms, waves, Basis(a1, a2), Synergy(a1.hermeticResonances, a2.hermeticResonances), a1, a2)
    {
      var b := Basis(a1, a2);
      var compatibility := Compatibility(waves, b);

      var rels := CollectRelationships(pats, b.product);
      var mets := CollectMetrics(ms, compatibility, b);

      var score := OverallScore(compatibility, rels, mets);
      var recommendations := [BandMessage(score)];
      if rels != [] {
        recommendations := recommendations + [PatternCallout(Strongest(rels))];
      }
      recommendations := recommendations + [MetricCallout(Strongest(mets))];
      assert recommendations == Recommendations(score, rels, mets);

      var synergy := Synergy(a1.hermeticResonances, a2.hermeticResonances);
      c := ComparisonResult(score, compatibility, rels, mets, Abs(b.total) / 2.0, b.diff / 2.0,
                            synergy, recommendations, a1, a2);
      CombineFields(pats, ms, waves, b, synergy, a1, a2, compatibility, rels, mets);
    }

    /** The relationship loop of `compare_phrases`: band each pattern's strength, leaving out the weak ones. */
    method CollectRelationships(pats: seq<Relationship>, product: real) returns (rels: seq<Entry<RelInfo>>)
      ensures rels == Relationships(pats, waves, product)
    {
      rels := [];
      for i := 0 to |pats|
        invariant rels == Relationships(pats[..i], waves, product)
      {
        var p := pats[i];
        var strength := waves.interference(p.name, product);
        assert pats[..i + 1][..i] == pats[..i];
        if strength > SYNERGY_THRESHOLD {
          rels := rels + [Entry(p.name, strength, RelInfo(p.description, StrongPositive))];
        } else if strength > INTERFERENCE_THRESHOLD {
          rels := rels + [Entry(p.name, strength, RelInfo(p.description, Moderate))];
        }
      }
      assert pats[..|pats|] == pats;
    }

    /** The metric loop of `compare_phrases`: compute each weighted value by the metric's name and rate it. */
    method CollectMetrics(ms: seq<Metric>, compatibility: real, b: PairBasis) returns (mets: seq<Entry<MetricInfo>>)
      ensures mets == Metrics(ms, waves, compatibility, b)
    {
      mets := [];
      for i := 0 to |ms|
        invariant mets == Metrics(ms[..i], waves, compatibility, b)
      {
        var m := ms[i];
        var value;
        if m.name == ENERGETIC_COMPATIBILITY {
          value := compatibility * m.weight;
        } else if m.name == GROWTH_POTENTIAL {
          value := waves.sinAbs(b.harmonics) * m.weight;
        } else if m.name == STABILITY_FACTOR {
          value := (1.0 - waves.cosAbs(b.diff)) * m.weight;
        } else if m.name == SYNERGY_QUOTIENT {
          value := waves.sinAbs(b.total) * m.weight;
        } else {
          value := waves.cosAbs(b.diff * PHI) * m.weight;
        }
        assert value == MetricValue(m, waves, compatibility, b);
        assert ms[..i + 1][..i] == ms[..i];
        mets := mets + [Entry(m.name, value, MetricInfo(m.description, RatingOf(value)))];
      }
      assert ms[..|ms|] == ms;
    }
  }
}

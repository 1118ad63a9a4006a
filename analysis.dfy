/**
 * `analyze_text`: the base value of a text is pushed through the
 * engine's floating-point transformations, and the resulting resonances
 * are aggregated: the dominant geometric pattern and hermetic principle
 * (first maximal entry), the detected quantum patterns, their mean
 * (0.0 when none), a quality band, and the top entries of both
 * technology catalogs. The transformations themselves are the
 * uninterpreted functions of `Physics`.
 */
module Analysis {
  import opened Wrappers
  import opened Constants
  import opened Ranking
  import opened Gematria
  import opened Patterns

  /** What `apply_quantum_transformation` returns: the final resonance and the transformed state vector. */
  datatype Transformed = Transformed(resonance: real, state: seq<real>)

  /**
   * The engine's floating-point formulas, as functions of their inputs:
   * the matrix transformation of the base value, the sacred geometry
   * projection and the hermetic ratio of a named pattern or principle,
   * the harmonic resonance, and the sine/cosine scores of every quantum
   * pattern and catalog entry.
   */
  datatype Physics = Physics(
    transform: real -> Transformed,
    geometry: Scorer,
    harmonic: real -> real,
    hermetic: Scorer,
    pattern: Scorer,
    egyptian: Scorer,
    modern: Scorer)

  datatype Quality = Strong | Medium | Weak

  /** The device named in the interpretation, with its purpose or its common form. */
  datatype Device = Device(device: string, detail: string)

  /**
   * The `interpretation` mapping; the two optional keys the source adds
   * only when a technology mapping is non-empty are `Option`s.
   */
  datatype Interpretation = Interpretation(
    primaryPattern: Option<string>,
    quality: Quality,
    geometricHarmony: string,
    hermeticInfluence: string,
    alignedEgyptianTech: Option<Device>,
    modernEquivalent: Option<Device>)

  /** The mapping `analyze_text` returns, one field per key. */
  datatype AnalysisResult = AnalysisResult(
    baseValue: int,
    quantumResonance: real,
    quantumState: seq<real>,
    geometryResonance: seq<Entry<()>>,
    harmonicResonance: real,
    dominantPattern: string,
    hermeticResonances: seq<Entry<()>>,
    dominantPrinciple: string,
    quantumPatterns: seq<Entry<()>>,
    patternSignificance: real,
    interpretation: Interpretation,
    egyptianTechnology: seq<Entry<TechItem>>,
    modernEquivalents: seq<Entry<TechItem>>)

  /** The mean score of the detected patterns, or 0.0 when there are none. */
  function Significance(patterns: seq<Entry<()>>): real
  {
    if patterns == [] then 0.0 else SumScores(patterns) / (|patterns| as real)
  }

  /** `resonance_quality`. */
  function QualityOf(significance: real): (q: Quality)
    ensures q == Strong <==> significance > 0.8
    ensures q == Medium <==> 0.6 < significance <= 0.8
    ensures q == Weak <==> significance <= 0.6
  {
    if significance > 0.8 then Strong else if significance > 0.6 then Medium else Weak
  }

  /** The name of the first entry with the highest score, as `max(items, key=score)[0]`. */
  function Strongest<T(!new)>(s: seq<Entry<T>>): string
    requires |s| > 0
  {
    s[ArgMax(s)].name
  }

  /** The first entry of a technology mapping, with the field the interpretation reports. */
  function TopDevice(tech: seq<Entry<TechItem>>, purpose: bool): Option<Device>
  {
    if tech == [] then None
    else Some(Device(tech[0].name, if purpose then tech[0].info.purpose else tech[0].info.detail))
  }

  /** The aggregation `analyze_text` performs once the base value is known. */
  function Analyze(physics: Physics, catalogs: Catalogs, baseValue: int): AnalysisResult
  {
    var t := physics.transform(baseValue as real);
    var r := t.resonance;
    var geometry := Scored(GEOMETRY_PATTERNS, physics.geometry, r);
    var hermetic := Scored(HERMETIC_PRINCIPLES, physics.hermetic, r);
    var patterns := QuantumPatterns(physics.pattern, r);
    var significance := Significance(patterns);
    var egyptian := EgyptianTechnology(catalogs, physics.egyptian, r);
    var modern := ModernEquivalents(catalogs, physics.modern, r);
    var interpretation := Interpretation(
      if patterns == [] then None else Some(Strongest(patterns)),
      QualityOf(significance),
      Strongest(geometry),
      Strongest(hermetic),
      TopDevice(egyptian, true),
      TopDevice(modern, false));
    AnalysisResult(baseValue, r, t.state, geometry, physics.harmonic(r), Strongest(geometry),
                   hermetic, Strongest(hermetic), patterns, significance, interpretation, egyptian, modern)
  }

  /** `analyze_text(text, system)`; an unknown system is the source's lookup error. */
  function AnalyzeText(physics: Physics, catalogs: Catalogs, systems: map<string, Table>, text: string, system: string)
    : (r: Result<AnalysisResult, EngineError>)
    ensures r.Failure? <==> system !in systems
    ensures r.Failure? ==> r.error == UnknownSystem(system)
    ensures r.Success? ==> r.value.baseValue == CalculateBaseValue(systems, text, system).value
  {
    var base := CalculateBaseValue(systems, text, system);
    if base.Failure? then Failure(base.error) else Success(Analyze(physics, catalogs, base.value))
  }

  /** `name` is the first entry of `s` whose score is maximal. */
  predicate FirstMaximal<T>(s: seq<Entry<T>>, name: string)
  {
    exists k :: 0 <= k < |s| && s[k].name == name
      && (forall j :: 0 <= j < |s| ==> s[j].score <= s[k].score)
      && (forall j :: 0 <= j < k ==> s[j].score < s[k].score)
  }

  lemma StrongestIsFirstMaximal<T(!new)>(s: seq<Entry<T>>)
    requires |s| > 0
    ensures FirstMaximal(s, Strongest(s))
  {
    var k := ArgMax(s);
    assert s[k].name == Strongest(s);
  }

  /**
   * The dominant geometric pattern and the dominant hermetic principle
   * are the first maximal entries of their resonance mappings, which
   * list every pattern and every principle in declaration order.
   */
  lemma DominantSpec(physics: Physics, catalogs: Catalogs, baseValue: int)
    ensures Names(Analyze(physics, catalogs, baseValue).geometryResonance) == GEOMETRY_PATTERNS
    ensures Names(Analyze(physics, catalogs, baseValue).hermeticResonances) == HERMETIC_PRINCIPLES
    ensures FirstMaximal(Analyze(physics, catalogs, baseValue).geometryResonance, Analyze(physics, catalogs, baseValue).dominantPattern)
    ensures FirstMaximal(Analyze(physics, catalogs, baseValue).hermeticResonances, Analyze(physics, catalogs, baseValue).dominantPrinciple)
    ensures Analyze(physics, catalogs, baseValue).interpretation.geometricHarmony == Analyze(physics, catalogs, baseValue).dominantPattern
    ensures Analyze(physics, catalogs, baseValue).interpretation.hermeticInfluence == Analyze(physics, catalogs, baseValue).dominantPrinciple
  {
    var a := Analyze(physics, catalogs, baseValue);
    ScoredNames(GEOMETRY_PATTERNS, physics.geometry, a.quantumResonance);
    ScoredNames(HERMETIC_PRINCIPLES, physics.hermetic, a.quantumResonance);
    StrongestIsFirstMaximal(a.geometryResonance);
    StrongestIsFirstMaximal(a.hermeticResonances);
  }

  /**
   * With no detected pattern the significance is 0.0; otherwise it is
   * the mean of the detected scores, which is above 0.618.
   */
  lemma SignificanceSpec(physics: Physics, catalogs: Catalogs, baseValue: int)
    ensures Analyze(physics, catalogs, baseValue).quantumPatterns == [] ==> Analyze(physics, catalogs, baseValue).patternSignificance == 0.0
    ensures Analyze(physics, catalogs, baseValue).quantumPatterns != [] ==>
              Analyze(physics, catalogs, baseValue).patternSignificance
                == SumScores(Analyze(physics, catalogs, baseValue).quantumPatterns) / (|Analyze(physics, catalogs, baseValue).quantumPatterns| as real)
              && Analyze(physics, catalogs, baseValue).patternSignificance > RESONANCE_THRESHOLD
  {
    var a := Analyze(physics, catalogs, baseValue);
    if a.quantumPatterns != [] {
      QuantumPatternsSpec(physics.pattern, a.quantumResonance);
      MeanAbove(a.quantumPatterns, RESONANCE_THRESHOLD);
    }
  }

  /**
   * No primary pattern, no detected pattern and a "Weak" quality are the
   * same condition: a detected pattern puts the mean above 0.618, so
   * the quality is then at least "Medium". A primary pattern, when
   * there is one, is the first maximal detected pattern.
   */
  lemma InterpretationSpec(physics: Physics, catalogs: Catalogs, baseValue: int)
    ensures Analyze(physics, catalogs, baseValue).interpretation.primaryPattern.None? <==> Analyze(physics, catalogs, baseValue).quantumPatterns == []
    ensures Analyze(physics, catalogs, baseValue).interpretation.quality == Weak <==> Analyze(physics, catalogs, baseValue).quantumPatterns == []
    ensures Analyze(physics, catalogs, baseValue).interpretation.primaryPattern.Some? ==>
              FirstMaximal(Analyze(physics, catalogs, baseValue).quantumPatterns, Analyze(physics, catalogs, baseValue).interpretation.primaryPattern.value)
  {
    var a := Analyze(physics, catalogs, baseValue);
    SignificanceSpec(physics, catalogs, baseValue);
    if a.quantumPatterns != [] {
      StrongestIsFirstMaximal(a.quantumPatterns);
    }
  }

  /**
   * The interpretation names a technology iff its mapping is non-empty,
   * and then it is the mapping's first entry, whose score no qualifying
   * catalog entry exceeds.
   */
  lemma TopDeviceSpec(tech: seq<Entry<TechItem>>, items: seq<TechItem>, score: Scorer, value: real, purpose: bool)
    requires tech == Technology(items, score, value)
    ensures TopDevice(tech, purpose).Some? <==> tech != []
    ensures TopDevice(tech, purpose).Some? ==>
              TopDevice(tech, purpose).value.device == tech[0].name
              && TopDevice(tech, purpose).value.detail == (if purpose then tech[0].info.purpose else tech[0].info.detail)
              && forall e :: e in Catalog(items, score, value) && e.score > RESONANCE_THRESHOLD ==> e.score <= tech[0].score
  {
    if tech != [] {
      TechnologySpec(items, score, value);
      forall e | e in Catalog(items, score, value) && e.score > RESONANCE_THRESHOLD
        ensures e.score <= tech[0].score
      {
        if e in tech {
          var i :| 0 <= i < |tech| && tech[i] == e;
          assert i == 0 || tech[0].score >= tech[i].score;
        } else {
          assert tech[0] in tech;
        }
      }
    }
  }

  /** Both optional interpretation keys follow the first entry of their mapping. */
  lemma AlignedSpec(physics: Physics, catalogs: Catalogs, baseValue: int)
    ensures Analyze(physics, catalogs, baseValue).interpretation.alignedEgyptianTech.Some? <==> Analyze(physics, catalogs, baseValue).egyptianTechnology != []
    ensures Analyze(physics, catalogs, baseValue).interpretation.alignedEgyptianTech.Some? ==>
              Analyze(physics, catalogs, baseValue).interpretation.alignedEgyptianTech.value
                == Device(Analyze(physics, catalogs, baseValue).egyptianTechnology[0].name, Analyze(physics, catalogs, baseValue).egyptianTechnology[0].info.purpose)
    ensures Analyze(physics, catalogs, baseValue).interpretation.modernEquivalent.Some? <==> Analyze(physics, catalogs, baseValue).modernEquivalents != []
    ensures Analyze(physics, catalogs, baseValue).interpretation.modernEquivalent.Some? ==>
              Analyze(physics, catalogs, baseValue).interpretation.modernEquivalent.value
                == Device(Analyze(physics, catalogs, baseValue).modernEquivalents[0].name, Analyze(physics, catalogs, baseValue).modernEquivalents[0].info.detail)
  {
    var a := Analyze(physics, catalogs, baseValue);
    TopDeviceSpec(a.egyptianTechnology, catalogs.egyptianTech, physics.egyptian, a.quantumResonance, true);
    TopDeviceSpec(a.modernEquivalents, catalogs.modernEquivalents, physics.modern, a.quantumResonance, false);
  }
}

/**
 * The fixed data of `UniversalConstants` that the discrete decision layer
 * reads: the two integer sequences used to pick multipliers, the three
 * thresholds, and the key order of every catalog. Catalog frequencies and
 * the irrational ratios only feed the floating-point score formulas, which
 * this model takes as inputs, so they are not repeated here.
 */
module Constants {

  /** Golden ratio, as the source writes it. */
  const PHI: real := 1.618033988749895

  const FIBONACCI: seq<int> := [1, 1, 2, 3, 5, 8, 13, 21, 34, 55, 89, 144, 233]
  const PRIME: seq<int> := [2, 3, 5, 7, 11, 13, 17, 19, 23, 29, 31, 37, 41]

  /** Acceptance threshold for quantum patterns and both technology catalogs. */
  const RESONANCE_THRESHOLD: real := 0.618
  /** Relationship strength above which a pattern is "Strong Positive". */
  const SYNERGY_THRESHOLD: real := 0.777
  /** Relationship strength above which a pattern is at least "Moderate". */
  const INTERFERENCE_THRESHOLD: real := 0.333

  /** Keys of `ARCHETYPAL_FREQUENCIES`, in declaration order. */
  const ARCHETYPES: seq<string> :=
    ["unity", "duality", "creation", "stability", "change", "harmony", "spirituality"]

  /** The two extra pattern names `detect_quantum_patterns` checks after the archetypes. */
  const QUANTUM_COHERENT: string := "quantum_coherent"
  const FIBONACCI_ALIGNED: string := "fibonacci_aligned"

  /** Every name `detect_quantum_patterns` can report, in the order it checks them. */
  const QUANTUM_PATTERN_NAMES: seq<string> := ARCHETYPES + [QUANTUM_COHERENT, FIBONACCI_ALIGNED]

  /** Keys of the sacred geometry tensors, in insertion order. */
  const GEOMETRY_PATTERNS: seq<string> := ["vesica_piscis", "triangular", "pentagonal", "phi_spiral"]

  /** Keys of the hermetic resonance mapping built by `analyze_text`, in order. */
  const HERMETIC_PRINCIPLES: seq<string> :=
    ["mentalism", "correspondence", "vibration", "polarity", "rhythm", "causation", "gender"]

  /**
   * A technology catalog entry: its key, its purpose and a second
   * descriptive field (`materials` for Egyptian devices, `common_form`
   * for modern equivalents).
   */
  datatype TechItem = TechItem(name: string, purpose: string, detail: string)

  const EGYPTIAN_TECH: seq<TechItem> := [
    TechItem("ankh_device", "Life force amplification and healing", "Gold, copper, crystalline structures"),
    TechItem("pyramid_resonator", "Energy focusing and cosmic alignment", "Limestone, granite, quartz crystal"),
    TechItem("djed_pillar", "Electromagnetic energy stabilization", "Gold-plated wood, electrum"),
    TechItem("was_scepter", "Harmonic wave generation", "Copper, gold, ceremonial metals"),
    TechItem("menat_counter", "Biorhythm harmonization", "Semi-precious stones, copper"),
    TechItem("sistrum", "Sonic frequency modulation", "Bronze, silver, gold"),
    TechItem("ba_sphere", "Consciousness expansion", "Gold, electrum, crystal"),
    TechItem("benben_stone", "Primordial energy focusing", "Meteorite iron, crystalline stone"),
    TechItem("lotus_resonator", "Spiritual awakening amplification", "Blue lotus extract, gold vessel"),
    TechItem("scarab_circuit", "Solar energy transformation", "Lapis lazuli, gold, turquoise"),
    TechItem("uraeus_amplifier", "Kundalini energy activation", "Gold, electrum, serpentine"),
    TechItem("thoth_tablet", "Cosmic knowledge transmission", "Emerald, gold inscriptions"),
    TechItem("heka_wand", "Magical energy direction", "Ivory, gold, amethyst"),
    TechItem("sekhem_staff", "Power manifestation", "Cedar wood, gold caps, quartz")
  ]

  const MODERN_EQUIVALENTS: seq<TechItem> := [
    TechItem("quartz_crystal", "Frequency stabilization", "Crystal oscillators, watches"),
    TechItem("copper_coil", "Electromagnetic induction", "Tesla coils, transformers"),
    TechItem("pyramid_frame", "Energy focusing", "Meditation pyramids, greenhouse structures"),
    TechItem("resonant_cavity", "Wave harmonization", "Singing bowls, bell metals"),
    TechItem("orgone_accumulator", "Energy accumulation", "Layered organic/inorganic materials"),
    TechItem("plasma_sphere", "Electromagnetic visualization", "Plasma balls, lightning spheres"),
    TechItem("fibonacci_spiral", "Natural growth patterns", "Spiral structures, vortex generators")
  ]

  /**
   * The two technology catalogs as the engine holds them in
   * `self.constants`; the analysis reads them from the engine rather
   * than from the declarations above.
   */
  datatype Catalogs = Catalogs(egyptianTech: seq<TechItem>, modernEquivalents: seq<TechItem>)

  const UNIVERSAL_CATALOGS: Catalogs := Catalogs(EGYPTIAN_TECH, MODERN_EQUIVALENTS)

  /** A relationship pattern: its key and its description. */
  datatype Relationship = Relationship(name: string, description: string)

  const RELATIONSHIP_PATTERNS: seq<Relationship> := [
    Relationship("harmonic_resonance", "Natural flow and mutual enhancement"),
    Relationship("catalytic_growth", "Mutual growth and transformation"),
    Relationship("stable_foundation", "Long-term stability and security"),
    Relationship("dynamic_balance", "Complementary energies in motion"),
    Relationship("creative_synthesis", "Innovation and new possibilities"),
    Relationship("quantum_entanglement", "Deep synchronicity and connection"),
    Relationship("evolutionary_path", "Shared growth and development")
  ]

  /** An alignment metric: its key, the weight its raw value is multiplied by, and its description. */
  datatype Metric = Metric(name: string, weight: real, description: string)

  /** The keys of the alignment metrics, which also select each metric's formula. */
  const ENERGETIC_COMPATIBILITY: string := "energetic_compatibility"
  const GROWTH_POTENTIAL: string := "growth_potential"
  const STABILITY_FACTOR: string := "stability_factor"
  const SYNERGY_QUOTIENT: string := "synergy_quotient"
  const PRACTICAL_MANIFESTATION: string := "practical_manifestation"

  const ALIGNMENT_METRICS: seq<Metric> := [
    Metric(ENERGETIC_COMPATIBILITY, 1.5, "Overall energy resonance match"),
    Metric(GROWTH_POTENTIAL, 1.3, "Capacity for mutual development"),
    Metric(STABILITY_FACTOR, 1.2, "Long-term harmony and balance"),
    Metric(SYNERGY_QUOTIENT, 1.4, "Effectiveness of combined energies"),
    Metric(PRACTICAL_MANIFESTATION, 1.1, "Real-world implementation ease")
  ]
}

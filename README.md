# Quantum Hermetic Gematria — a verified model of the decision layer

This project models the discrete core of `QuantumHermeticGematria` and of the session history kept by its web front end. The core covers:

- the five gematria tables the engine registers: quantum_hermetic, english_ordinal, english_qbl, greek and hebrew;
- how the multipliers of each quantum_hermetic letter are chosen;
- the base value of a text;
- everything `analyze_text` and `compare_phrases` decide once their floating-point scores are known:
  - which quantum patterns, technology devices and relationship patterns pass their thresholds;
  - the stable descending sort and cut at three;
  - the first-maximal `max` that picks the dominant pattern, the dominant principle and the strongest pattern or metric;
  - the mean significance and its quality band;
  - the status and rating bands;
  - the truncated overall score and the two or three recommendations;
- the most-recent-first history of at most ten analyses and ten comparisons, and clearing it.

The analysis reads the two technology catalogs from the engine's `constants`, as the source does, so `Analysis.AnalyzeText` and `Comparison.ComparePhrases` take them as a `Catalogs` argument; the engine holds `UNIVERSAL_CATALOGS`.

Every floating-point formula of the source is a parameter of the model: the torch matrix products, `sin`, `cos`, `exp`, `log`, and `int(frequency * 100)`. `Analysis.Physics`, `Comparison.Waves` and `Gematria.Quantizer` carry them. Every theorem therefore holds whatever values those formulas produce.

Modules, in dependency order:

- `Wrappers` — `Option` and `Result`.
- `Constants` — thresholds, the two integer sequences, the key order and text of every catalog, and `Catalogs`, the two technology catalogs as the engine holds them.
- `Ranking` — ordered-dictionary entries, above-threshold filtering, stable sort, prefix, first `argmax`, sums.
- `Gematria` — the tables and `calculate_base_value`.
- `Patterns` — quantum pattern detection and both technology mappings.
- `Analysis` — `analyze_text`.
- `Comparison` — `compare_phrases`.
- `Engine` — the `QuantumHermeticGematria` class. Its loops are proved equal to the functions above.
- `History` — the `Session` class of the web app.

The source converts its scaled base values and its overall score with `int(...)`, which truncates toward zero rather than rounding. `Gematria.Trunc` models exactly that.

The source comments the overall compatibility score as "0-100". The model proves it non-negative when its inputs are. It proves no upper bound, because the weighted mean of the metrics can exceed 1 (the weights go up to 1.5).

## Model

| member | source | states |
|---|---|---|
| Gematria.LetterKey | quantum_hermetic_gematria/qhg.py:323 | `chr(96 + v)` is the single lower-case letter with code 96 + v |
| Gematria.FactorChain | quantum_hermetic_gematria/qhg.py:326-342 | the multipliers applied to a letter's frequency, in order; `Gematria.FactorSelection` states which and when |
| Gematria.FactorSelection | quantum_hermetic_gematria/qhg.py:326-342 | every letter starts from PHI; GOLDEN_SPIRAL is applied iff its ordinal is in FIBONACCI and FINE_STRUCTURE iff it is in PRIME; DNA_RATIO then COSMIC_RATIO always close the chain |
| Gematria.BothOptionalFactors | quantum_hermetic_gematria/qhg.py:331-336 | exactly b, c, e and m receive both optional multipliers |
| Gematria.LetterTable | quantum_hermetic_gematria/qhg.py:324-345 | the dictionary after the letter loop has stored its first n letters; `Gematria.LetterTableSpec` states its keys and values, and the engine's loop keeps it as its invariant |
| Gematria.LetterTableSpec | quantum_hermetic_gematria/qhg.py:324-345 | storing the letters one at a time, in alphabet order, maps each stored letter to its own value and adds no other key |
| Gematria.QuantumHermeticTable | quantum_hermetic_gematria/qhg.py:321-347 | the generated table maps each letter a..z to `int(frequency * 100)` of its own factor chain, and only lower-case single letters are keys |
| Gematria.EnglishOrdinalTable | quantum_hermetic_gematria/qhg.py:250 | the ordinal comprehension; `Gematria.EnglishOrdinalLookup` states that the v-th letter maps to v |
| Gematria.SystemsLookup | quantum_hermetic_gematria/qhg.py:248-254 | the systems display registers exactly the five names, each bound to its own table |
| Gematria.StandardSystems | quantum_hermetic_gematria/qhg.py:246-254 | `self.systems` after setup; `Gematria.StandardSystemsLookup` states its names and tables |
| Gematria.StandardSystemsLookup | quantum_hermetic_gematria/qhg.py:246-319 | the engine's systems are the generated quantum table, the ordinal comprehension and the QBL, Greek and Hebrew tables |
| Gematria.Lower | quantum_hermetic_gematria/qhg.py:351 | lowering keeps the length and maps every character through ASCII lowering |
| Gematria.Trunc | quantum_hermetic_gematria/qhg.py:359 | `int(x)` truncates toward zero, for both signs |
| Gematria.ScalePhi | quantum_hermetic_gematria/qhg.py:359 | `int(base * PHI)` is 0 at 0 and lies between base and 2·base |
| Gematria.Lookup | quantum_hermetic_gematria/qhg.py:353 | `system_map.get(char, 0)`; `Gematria.RawSumUnrecognised` and `Gematria.MultiCharKeysUnreachable` state its absent and multi-character cases |
| Gematria.RawSum | quantum_hermetic_gematria/qhg.py:353 | the generator sum over the characters; `Gematria.RawSumAppend` and `Gematria.RawSumNonNegative` state how it splits and its sign |
| Gematria.CalculateBaseValue | quantum_hermetic_gematria/qhg.py:349-359 | an unknown system is the lookup error; otherwise the sum of the per-character values of the lower-cased text, scaled by PHI except for quantum_hermetic; the empty text gives 0 |
| Gematria.RawSumAppend | quantum_hermetic_gematria/qhg.py:353 | the sum over a concatenation is the sum of the sums |
| Gematria.RawSumUnrecognised | quantum_hermetic_gematria/qhg.py:353 | characters missing from the table add 0 (`get(char, 0)`) |
| Gematria.MultiCharKeysUnreachable | quantum_hermetic_gematria/qhg.py:353 | keys longer than one character never take part in a sum |
| Gematria.QblDigraphsUnreachable | quantum_hermetic_gematria/qhg.py:294-300 | the QBL digraphs ch, ts, sh and th are present, yet removing them changes no text's value |
| Gematria.RawSumNonNegative | quantum_hermetic_gematria/qhg.py:353 | a table without negative values gives no negative sum |
| Gematria.BaseValueIgnoresCase | quantum_hermetic_gematria/qhg.py:351-353 | texts equal up to ASCII case have equal base values under every system |
| Gematria.EnglishOrdinalLookup | quantum_hermetic_gematria/qhg.py:250 | english_ordinal maps the v-th letter to v |
| Gematria.QuantumHermeticLookup | quantum_hermetic_gematria/qhg.py:345 | quantum_hermetic maps the v-th letter to its quantized frequency |
| Gematria.LightBaseValue | quantum_hermetic_gematria/qhg.py:349-359 | "LIGHT" is valued as "light" under every registered system |
| Gematria.LightUnderEnglishOrdinal | quantum_hermetic_gematria/qhg.py:349-359 | wherever english_ordinal is the ordinal table, as in the engine's systems, "LIGHT" sums to 56 and its base value is `int(56 * PHI)` = 90 |
| Gematria.LightUnderQuantumHermetic | quantum_hermetic_gematria/qhg.py:663-666 | wherever quantum_hermetic is the generated table, as in the engine's systems, `analyze_text("LIGHT")` starts from the sum of the quantized values of l, i, g, h and t |
| Ranking.Names | quantum_hermetic_gematria/qhg.py:487-490 | the keys of an ordered mapping, one per entry, in order |
| Ranking.Above | quantum_hermetic_gematria/qhg.py:414-417 | an entry is kept iff it is present and strictly above the threshold, and nothing is added |
| Ranking.AboveSnoc | quantum_hermetic_gematria/qhg.py:436-444 | one more loop step appends the new entry exactly when it passes the threshold |
| Ranking.AboveKeepsTies | quantum_hermetic_gematria/qhg.py:436-444 | filtering keeps every entry of each score above the threshold, in order |
| Ranking.SortDesc | quantum_hermetic_gematria/qhg.py:447-451 | `sorted(..., reverse=True)` yields a non-increasing permutation |
| Ranking.SortDescKeepsTies | quantum_hermetic_gematria/qhg.py:447-451 | the sort is stable: entries of equal score keep their order |
| Ranking.Take | quantum_hermetic_gematria/qhg.py:451 | `[:n]` is a prefix of length min(len, n) |
| Ranking.TopThree | quantum_hermetic_gematria/qhg.py:447-451 | the qualifying entries sorted by descending score and cut at three; `Ranking.TopThreeSpec` states its meaning |
| Ranking.TopThreeSpec | quantum_hermetic_gematria/qhg.py:432-453 | as many entries as qualify, up to three, all qualifying, non-increasing, ties in catalog order, and no dropped qualifier beats a kept one |
| Ranking.ArgMax | quantum_hermetic_gematria/qhg.py:496 | `max(..., key=score)` picks the first entry of maximal score |
| Ranking.SumScores | quantum_hermetic_gematria/qhg.py:516 | `sum(...values())`; `Ranking.MeanAbove` and `Comparison.SumScoresNonNegative` state its bounds |
| Ranking.MeanAbove | quantum_hermetic_gematria/qhg.py:516-517 | the mean of scores all above t is above t |
| Patterns.Scored | quantum_hermetic_gematria/qhg.py:487-490 | a dictionary comprehension yields one entry per key, in key order, carrying that key's score |
| Patterns.ScoredNames | quantum_hermetic_gematria/qhg.py:499-507 | scoring a key list keeps exactly its keys in order |
| Patterns.Catalog | quantum_hermetic_gematria/qhg.py:436-438 | each catalog item is scored under its own name and carries its own data |
| Patterns.QuantumPatterns | quantum_hermetic_gematria/qhg.py:409-430 | the pattern dictionary; `Patterns.QuantumPatternsSteps` and `Patterns.QuantumPatternsSpec` state its construction and contents |
| Patterns.QuantumPatternsSteps | quantum_hermetic_gematria/qhg.py:409-430 | the detector checks the archetypes in order, then quantum_coherent, then fibonacci_aligned |
| Patterns.QuantumPatternsSpec | quantum_hermetic_gematria/qhg.py:409-430 | a pattern is reported iff it is one of the nine checked names and its score exceeds 0.618, and with that score |
| Patterns.Technology | quantum_hermetic_gematria/qhg.py:432-453 | the alignment loop followed by sort-and-cut; `Patterns.TechnologySpec` states its meaning |
| Patterns.EgyptianTechnology | quantum_hermetic_gematria/qhg.py:432-453 | `map_egyptian_technology` over the engine's catalog; `Patterns.EgyptianTechnologySpec` states its meaning |
| Patterns.ModernEquivalents | quantum_hermetic_gematria/qhg.py:455-476 | `map_modern_equivalents` over the engine's catalog; `Patterns.ModernEquivalentsSpec` states its meaning |
| Patterns.TechnologySpec | quantum_hermetic_gematria/qhg.py:432-476 | a mapping keeps up to three catalog devices, with their own data and scores above 0.618, strongest first and ties in catalog order; no dropped device beats a kept one |
| Patterns.EgyptianTechnologySpec | quantum_hermetic_gematria/qhg.py:432-453 | at most three Egyptian devices, each from the catalog and above 0.618, strongest first |
| Patterns.ModernEquivalentsSpec | quantum_hermetic_gematria/qhg.py:455-476 | at most three modern equivalents, each from the catalog and above 0.618, strongest first |
| Analysis.QualityOf | quantum_hermetic_gematria/qhg.py:523-524 | Strong above 0.8, Medium in (0.6, 0.8] and Weak at or below 0.6 |
| Analysis.Significance | quantum_hermetic_gematria/qhg.py:515-517 | the mean of the detected pattern scores, 0.0 without patterns; `Analysis.SignificanceSpec` states it |
| Analysis.Strongest | quantum_hermetic_gematria/qhg.py:496-520 | the key `max(..., key=...)` returns; `Analysis.StrongestIsFirstMaximal` states that it is the first maximal entry |
| Analysis.TopDevice | quantum_hermetic_gematria/qhg.py:551-563 | `next(iter(...))` of a technology mapping, with its purpose or common form; `Analysis.TopDeviceSpec` states it |
| Analysis.Analyze | quantum_hermetic_gematria/qhg.py:482-563 | the analysis of a base value; `Analysis.DominantSpec`, `Analysis.SignificanceSpec`, `Analysis.InterpretationSpec` and `Analysis.AlignedSpec` state its sections |
| Analysis.AnalyzeText | quantum_hermetic_gematria/qhg.py:478-481 | an unknown system is the lookup error; otherwise the result carries the text's base value |
| Analysis.StrongestIsFirstMaximal | quantum_hermetic_gematria/qhg.py:496 | the reported name is the first entry of maximal score |
| Analysis.DominantSpec | quantum_hermetic_gematria/qhg.py:487-510 | the geometry and hermetic mappings list every pattern and principle in order; the dominant ones are first maximal and reappear in the interpretation |
| Analysis.SignificanceSpec | quantum_hermetic_gematria/qhg.py:516-517 | significance is 0.0 without patterns, else their mean, which then exceeds 0.618 |
| Analysis.InterpretationSpec | quantum_hermetic_gematria/qhg.py:520-527 | no primary pattern, no detected pattern and a Weak quality coincide; a primary pattern is the first maximal detected one |
| Analysis.TopDeviceSpec | quantum_hermetic_gematria/qhg.py:551-563 | a device is named iff its mapping is non-empty; it is the first entry, which no qualifying catalog device outscores |
| Analysis.AlignedSpec | quantum_hermetic_gematria/qhg.py:551-563 | aligned_egyptian_tech names the first Egyptian entry with its purpose; modern_equivalent names the first modern entry with its common form |
| Comparison.StatusOf | quantum_hermetic_gematria/qhg.py:582-593 | Strong Positive above 0.777, Moderate in (0.333, 0.777], otherwise not recorded |
| Comparison.RelEntry | quantum_hermetic_gematria/qhg.py:579-593 | one pattern is recorded iff its strength exceeds 0.333, with its description, its strength and the status band |
| Comparison.Relationships | quantum_hermetic_gematria/qhg.py:578-593 | the relationship loop, never longer than the catalog; `Comparison.RelationshipsSpec` states its contents |
| Comparison.RelationshipsInOrder | quantum_hermetic_gematria/qhg.py:578-593 | the names of the recorded patterns equal the in-order filter (`Ranking.Above`) of the scored catalog keys at 0.333, one entry per qualifying catalog key, in catalog order |
| Comparison.RelationshipsSpec | quantum_hermetic_gematria/qhg.py:578-593 | the recorded patterns are exactly the catalog keys whose strength exceeds 0.333, each once and in catalog order; each comes from the catalog with its description, its strength and its band |
| Comparison.BasisSymmetric | quantum_hermetic_gematria/qhg.py:574-606 | difference, product and sum of the resonances do not depend on the order of the phrases |
| Comparison.Compatibility | quantum_hermetic_gematria/qhg.py:574-575 | `exp(-diff / PHI)`; it depends only on the symmetric difference (`Comparison.BasisSymmetric`) and is exp(0) for identical phrases (`Comparison.CompareIdentical`) |
| Comparison.MetricValue | quantum_hermetic_gematria/qhg.py:599-608 | the weighted value of one metric, by its own branch; `Comparison.MetricsSpec` states that each metric gets it |
| Comparison.RatingOf | quantum_hermetic_gematria/qhg.py:613 | High above 0.8, Medium in (0.5, 0.8], Low at or below 0.5 |
| Comparison.Metrics | quantum_hermetic_gematria/qhg.py:595-614 | the metric loop, never longer than the catalog; `Comparison.MetricsSpec` states its contents |
| Comparison.MetricsSpec | quantum_hermetic_gematria/qhg.py:595-614 | each metric gets one entry, in order, with its own branch's weighted value, its description and its rating band |
| Comparison.OverallScore | quantum_hermetic_gematria/qhg.py:617-622 | `int(...)` of the weighted sum; `Comparison.OverallScoreNoPatterns` and `Comparison.OverallScoreNonNegative` state its cases and sign |
| Comparison.OverallScoreNoPatterns | quantum_hermetic_gematria/qhg.py:617-622 | without relationship patterns the pattern term is 0 rather than a division by zero |
| Comparison.OverallScoreNonNegative | quantum_hermetic_gematria/qhg.py:617-622 | non-negative inputs give a non-negative overall score |
| Comparison.BandMessage | quantum_hermetic_gematria/qhg.py:626-631 | the first recommendation; `Comparison.BandMessageSpec` states its bands |
| Comparison.BandMessageSpec | quantum_hermetic_gematria/qhg.py:626-631 | the first recommendation follows the 80 and 60 cut-offs |
| Comparison.Spaced | quantum_hermetic_gematria/qhg.py:636 | `replace('_', ' ')` keeps the length, turns every underscore into a space and changes nothing else |
| Comparison.Recommendations | quantum_hermetic_gematria/qhg.py:624-640 | the recommendation list; `Comparison.RecommendationsSpec` states its length and order |
| Comparison.RecommendationsSpec | quantum_hermetic_gematria/qhg.py:624-640 | two recommendations without patterns and three with; the band message first, then the first strongest pattern's callout, then the first strongest metric's callout |
| Comparison.Synergy | quantum_hermetic_gematria/qhg.py:651-655 | the synergy mapping has the principles of the first analysis, in order |
| Comparison.Combine | quantum_hermetic_gematria/qhg.py:573-661 | the result assembled from the two analyses; `Engine.QuantumHermeticGematria.CompareAnalyses` computes it, and `Comparison.CompareSymmetric` and `Comparison.CompareIdentical` state its symmetry and its self-comparison through `Comparison.Compare` |
| Comparison.Compare | quantum_hermetic_gematria/qhg.py:567-661 | the comparison of two analyses; `Comparison.CompareSymmetric` and `Comparison.CompareIdentical` state its symmetry and its self-comparison |
| Comparison.ComparePhrases | quantum_hermetic_gematria/qhg.py:567-571 | fails, with the lookup error, exactly when the default system is missing |
| Comparison.SynergySymmetric | quantum_hermetic_gematria/qhg.py:651-655 | the synergy of two principle mappings does not depend on their order |
| Comparison.CompareSymmetric | quantum_hermetic_gematria/qhg.py:567-661 | swapping the analyses swaps them in the result and changes no other field |
| Comparison.CompareIdentical | quantum_hermetic_gematria/qhg.py:574-655 | an analysis compared with itself has destructive interference 0, compatibility exp(0) and zero synergy |
| Comparison.ComparePhrasesSymmetric | quantum_hermetic_gematria/qhg.py:567-661 | comparing two phrases in the other order changes only which phrase is first |
| Comparison.ComparePhrasesIdentical | quantum_hermetic_gematria/qhg.py:567-661 | a phrase compared with itself has no destructive interference, compatibility exp(0) and a zero synergy for each of the seven principles |
| Engine.QuantumHermeticGematria.ValidHasDefaultSystem | quantum_hermetic_gematria/qhg.py:248-249 | the constructed engine always has the default system |
| Engine.QuantumHermeticGematria.constructor | quantum_hermetic_gematria/qhg.py:240-242 | construction keeps the universal catalogs and registers the standard systems |
| Engine.QuantumHermeticGematria.SetupGematriaSystems | quantum_hermetic_gematria/qhg.py:246-254 | `self.systems` becomes the five standard tables |
| Engine.QuantumHermeticGematria.GenerateQuantumHermeticSystem | quantum_hermetic_gematria/qhg.py:321-347 | the letter loop builds exactly the quantum_hermetic table |
| Engine.QuantumHermeticGematria.LetterFactors | quantum_hermetic_gematria/qhg.py:326-342 | the branches of the letter loop select exactly `Gematria.FactorChain` of the ordinal |
| Engine.QuantumHermeticGematria.CalculateBaseValue | quantum_hermetic_gematria/qhg.py:349-359 | the summing loop computes `Gematria.CalculateBaseValue` |
| Engine.QuantumHermeticGematria.DetectQuantumPatterns | quantum_hermetic_gematria/qhg.py:409-430 | the three detection steps compute `Patterns.QuantumPatterns` |
| Engine.QuantumHermeticGematria.KeepResonant | quantum_hermetic_gematria/qhg.py:414-417 | the archetype loop keeps exactly the entries above 0.618, in order |
| Engine.QuantumHermeticGematria.MapTechnology | quantum_hermetic_gematria/qhg.py:432-476 | the alignment loop followed by sort-and-cut computes `Patterns.Technology` |
| Engine.QuantumHermeticGematria.MapEgyptianTechnology | quantum_hermetic_gematria/qhg.py:432-453 | computes the Egyptian mapping |
| Engine.QuantumHermeticGematria.MapModernEquivalents | quantum_hermetic_gematria/qhg.py:455-476 | computes the modern mapping |
| Engine.QuantumHermeticGematria.AnalyzeText | quantum_hermetic_gematria/qhg.py:478-565 | the imperative analysis equals `Analysis.AnalyzeText` |
| Engine.QuantumHermeticGematria.ComparePhrases | quantum_hermetic_gematria/qhg.py:567-661 | the imperative comparison equals `Comparison.ComparePhrases` |
| Engine.QuantumHermeticGematria.CompareAnalyses | quantum_hermetic_gematria/qhg.py:573-661 | the statements after the two analyses compute `Comparison.Combine` |
| Engine.QuantumHermeticGematria.CollectRelationships | quantum_hermetic_gematria/qhg.py:578-593 | the relationship loop computes `Comparison.Relationships` |
| Engine.QuantumHermeticGematria.CollectMetrics | quantum_hermetic_gematria/qhg.py:595-614 | the metric loop, with its branch per name, computes `Comparison.Metrics` |
| History.Push | quantum_hermetic_gematria/app.py:35 | `[entry] + history[:9]`; `History.PushSpec` and `History.PushAllNewestFirst` state its meaning |
| History.PushSpec | quantum_hermetic_gematria/app.py:35 | the new entry comes first, the previous ones follow in order, and the list holds min(old + 1, 10) entries |
| History.PushAllNewestFirst | quantum_hermetic_gematria/app.py:26-35 | after any sequence of recordings the history is the ten newest entries, newest first |
| History.Session.constructor | quantum_hermetic_gematria/app.py:26-27 | a new session has neither list |
| History.Session.View | quantum_hermetic_gematria/app.py:63-68 | a stored list is returned as stored and an absent one reads as empty |
| History.Session.RecordAnalysis | quantum_hermetic_gematria/app.py:26-35 | the new entry heads the history, which starts empty when absent and keeps at most ten entries; the comparisons are unchanged |
| History.Session.RecordComparison | quantum_hermetic_gematria/app.py:49-59 | the new entry heads the comparisons, which start empty when absent and keep at most ten entries; the history is unchanged |
| History.Session.Analyze | quantum_hermetic_gematria/app.py:17-37 | a missing text is "", the analysis succeeds, the entry is pushed onto the history, and the comparisons are unchanged |
| History.Session.Compare | quantum_hermetic_gematria/app.py:39-61 | missing phrases are "", the comparison succeeds, the entry is pushed onto the comparisons, and the history is unchanged |
| History.Session.ClearHistory | quantum_hermetic_gematria/app.py:70-73 | both lists are removed, and both then read as empty |

## Left out

- Floating-point arithmetic. Every formula is an uninterpreted input, and reals are exact:
  - `apply_quantum_transformation`, `apply_sacred_geometry` and `calculate_harmonic_resonance`;
  - the hermetic ratios;
  - every `abs(sin)` and `abs(cos)` score;
  - `math.exp`.
- Gematria.ScalePhi: computes `int(base * PHI)` on exact reals rather than IEEE doubles. The two can differ only when the product falls within rounding distance of an integer.
- Gematria.QuantumHermeticTable: the quantized value of a letter is the parameter `quantize` applied to its ordinal and factor chain. The numeric product `int(frequency * 100)` is not computed.
- The irrational constants and the catalog frequencies feed only those formulas, so they are not repeated: PI, E, the roots, the hermetic ratios, GOLDEN_SPIRAL, DNA_RATIO, COSMIC_RATIO, FINE_STRUCTURE, the Platonic angles, the archetype frequencies and the relationship thresholds. Only PHI is kept, for `calculate_base_value`, the divisor of the compatibility term `exp(-diff / PHI)` and the practical_manifestation metric.
- Gematria.Lower: lowers ASCII letters only. Python's `str.lower` also lowers other scripts, for example Greek capitals.
- `quantum_state`: kept as the opaque vector that `Physics.transform` returns.
- The torch matrices built in `setup_quantum_matrices` and `setup_hermetic_resonance`: they are not modelled because they only feed the formulas above.
- History.Session: Flask, JSON encoding, `request.get_json()`, `jsonify` and the clock are not modelled. The request fields are `Option` parameters and the timestamp is a string parameter.
- History.Session.Analyze and History.Session.Compare: they require only that the default system is registered, which every constructed engine satisfies (`ValidHasDefaultSystem`).
- Concurrent requests on one session are not modelled.
- The `index` route and its template and `gui.py` are not part of this model. Of the `__main__` demo only the base value of "LIGHT" is stated, by `Gematria.LightUnderQuantumHermetic`; its printing is not modelled.
- Comparison.OverallScore: no upper bound is proved. The source's "0-100" is not implied by its formula, whose metric term can exceed 0.3.

/**
 * The symbol encoder: the five character-to-value tables and the base
 * value of a text under one of them.
 */
module Gematria {
  import opened Wrappers
  import opened Constants

  /** A gematria system: Python's `Dict[str, int]`, keyed by strings. */
  type Table = map<string, int>

  /** Looking up a system name that is not registered raises `KeyError`. */
  datatype EngineError = UnknownSystem(name: string)

  const QUANTUM_HERMETIC: string := "quantum_hermetic"
  const ENGLISH_ORDINAL: string := "english_ordinal"
  const ENGLISH_QBL: string := "english_qbl"
  const GREEK: string := "greek"
  const HEBREW: string := "hebrew"

  const SYSTEM_NAMES: set<string> := {QUANTUM_HERMETIC, ENGLISH_ORDINAL, ENGLISH_QBL, GREEK, HEBREW}

  /** `chr(96 + v)` as a one-character key: ordinal 1 is "a", 26 is "z". */
  function LetterKey(v: int): (k: string)
    requires 1 <= v <= 26
    ensures |k| == 1 && 'a' <= k[0] <= 'z' && k[0] as int == 96 + v
  {
    [(96 + v) as char]
  }

  /** `{chr(i): i - 96 for i in range(97, 123)}`. */
  function EnglishOrdinalTable(): Table
  {
    map v | 1 <= v <= 26 :: LetterKey(v) := v
  }

  /** The Tree of Life paths, including the digraph keys "ch", "ts", "sh" and "th". */
  const QBL_TABLE: Table := map[
    "a" := 1, "b" := 2, "g" := 3, "d" := 4, "h" := 5, "v" := 6, "z" := 7,
    "ch" := 8, "t" := 9, "y" := 10, "k" := 20, "l" := 30, "m" := 40,
    "n" := 50, "s" := 60, "o" := 70, "p" := 80, "ts" := 90, "q" := 100,
    "r" := 200, "sh" := 300, "th" := 400
  ]

  /** Greek isopsephy, including digamma (6) and koppa (90). */
  const GREEK_TABLE: Table := map[
    "α" := 1, "β" := 2, "γ" := 3, "δ" := 4, "ε" := 5, "ϝ" := 6, "ζ" := 7, "η" := 8, "θ" := 9,
    "ι" := 10, "κ" := 20, "λ" := 30, "μ" := 40, "ν" := 50, "ξ" := 60, "ο" := 70, "π" := 80, "ϙ" := 90,
    "ρ" := 100, "σ" := 200, "τ" := 300, "υ" := 400, "φ" := 500, "χ" := 600, "ψ" := 700, "ω" := 800
  ]

  const HEBREW_TABLE: Table := map[
    "א" := 1, "ב" := 2, "ג" := 3, "ד" := 4, "ה" := 5, "ו" := 6, "ז" := 7, "ח" := 8, "ט" := 9,
    "י" := 10, "כ" := 20, "ל" := 30, "מ" := 40, "נ" := 50, "ס" := 60, "ע" := 70, "פ" := 80, "צ" := 90,
    "ק" := 100, "ר" := 200, "ש" := 300, "ת" := 400
  ]

  /** The multipliers `_generate_quantum_hermetic_system` can apply to a letter's frequency. */
  datatype Factor = Phi | GoldenSpiral | FineStructure | DnaRatio | CosmicRatio

  /**
   * The multipliers applied, in order, to the ordinal `v` of a letter
   * (`frequency = value * PHI`, then the conditional and fixed factors).
   */
  function FactorChain(v: int): seq<Factor>
  {
    [Phi]
    + (if v in FIBONACCI then [GoldenSpiral] else [])
    + (if v in PRIME then [FineStructure] else [])
    + [DnaRatio, CosmicRatio]
  }

  /**
   * Every letter starts from PHI, gets GOLDEN_SPIRAL exactly when its
   * ordinal is in FIBONACCI and FINE_STRUCTURE exactly when it is in PRIME,
   * and always ends with DNA_RATIO then COSMIC_RATIO.
   */
  lemma FactorSelection(v: int)
    ensures |FactorChain(v)| == 3 + (if v in FIBONACCI then 1 else 0) + (if v in PRIME then 1 else 0)
    ensures FactorChain(v)[0] == Phi
    ensures GoldenSpiral in FactorChain(v) <==> v in FIBONACCI
    ensures FineStructure in FactorChain(v) <==> v in PRIME
    ensures FactorChain(v)[|FactorChain(v)| - 2..] == [DnaRatio, CosmicRatio]
  {
  }

  /** Among the letters, exactly b, c, e and m (ordinals 2, 3, 5, 13) get both optional factors. */
  lemma BothOptionalFactors(v: int)
    requires 1 <= v <= 26
    ensures GoldenSpiral in FactorChain(v) && FineStructure in FactorChain(v)
            <==> v == 2 || v == 3 || v == 5 || v == 13
  {
    FactorSelection(v);
  }

  /**
   * `int(frequency * 100)` of a letter, given its ordinal and the factors
   * applied to it. The floating-point product is not modelled, so this is
   * a parameter of the model.
   */
  type Quantizer = (int, seq<Factor>) -> int

  /** The table after its first `n` letters, in alphabet order, have been stored with `value` of their ordinal. */
  function LetterTable(value: int -> int, n: nat): Table
    requires n <= 26
  {
    if n == 0 then map[] else LetterTable(value, n - 1)[LetterKey(n) := value(n)]
  }

  /** After `n` letters the table maps each of them to its value and holds no other key. */
  lemma {:induction false} LetterTableSpec(value: int -> int, n: nat)
    requires n <= 26
    ensures forall v :: 1 <= v <= n ==> LetterKey(v) in LetterTable(value, n) && LetterTable(value, n)[LetterKey(v)] == value(v)
    ensures forall k :: k in LetterTable(value, n) ==> |k| == 1 && 97 <= k[0] as int <= 96 + n
  {
    if n > 0 {
      LetterTableSpec(value, n - 1);
      var t := LetterTable(value, n - 1);
      var r := t[LetterKey(n) := value(n)];
      forall v | 1 <= v <= n
        ensures LetterKey(v) in r && r[LetterKey(v)] == value(v)
      {
        if v < n {
          assert LetterKey(v)[0] != LetterKey(n)[0];
          assert r[LetterKey(v)] == t[LetterKey(v)];
        }
      }
    }
  }

  /** The quantized frequency of the letter with ordinal `v`: `int(frequency * 100)` of its factor chain. */
  function LetterValue(quantize: Quantizer): int -> int
  {
    v => quantize(v, FactorChain(v))
  }

  /** The table `_generate_quantum_hermetic_system` returns. */
  function QuantumHermeticTable(quantize: Quantizer): (t: Table)
    ensures forall v :: 1 <= v <= 26 ==> LetterKey(v) in t && t[LetterKey(v)] == quantize(v, FactorChain(v))
    ensures forall k :: k in t ==> |k| == 1 && 'a' <= k[0] <= 'z'
  {
    LetterTableSpec(LetterValue(quantize), 26);
    LetterTable(LetterValue(quantize), 26)
  }

  /** The dictionary display of `setup_gematria_systems`, over any five tables. */
  function Systems(quantumHermetic: Table, englishOrdinal: Table, qbl: Table, greek: Table, hebrew: Table)
    : map<string, Table>
  {
    map[QUANTUM_HERMETIC := quantumHermetic, ENGLISH_ORDINAL := englishOrdinal, ENGLISH_QBL := qbl,
        GREEK := greek, HEBREW := hebrew]
  }

  /** The display registers exactly the five system names, each with its own table. */
  lemma SystemsLookup(quantumHermetic: Table, englishOrdinal: Table, qbl: Table, greek: Table, hebrew: Table)
    ensures Systems(quantumHermetic, englishOrdinal, qbl, greek, hebrew).Keys == SYSTEM_NAMES
    ensures Systems(quantumHermetic, englishOrdinal, qbl, greek, hebrew)[QUANTUM_HERMETIC] == quantumHermetic
    ensures Systems(quantumHermetic, englishOrdinal, qbl, greek, hebrew)[ENGLISH_ORDINAL] == englishOrdinal
    ensures Systems(quantumHermetic, englishOrdinal, qbl, greek, hebrew)[ENGLISH_QBL] == qbl
    ensures Systems(quantumHermetic, englishOrdinal, qbl, greek, hebrew)[GREEK] == greek
    ensures Systems(quantumHermetic, englishOrdinal, qbl, greek, hebrew)[HEBREW] == hebrew
  {
  }

  /** `self.systems` after `setup_gematria_systems`. */
  function StandardSystems(quantize: Quantizer): map<string, Table>
  {
    Systems(QuantumHermeticTable(quantize), EnglishOrdinalTable(), QBL_TABLE, GREEK_TABLE, HEBREW_TABLE)
  }

  /** The engine knows exactly the five systems, with the tables it generates for them. */
  lemma StandardSystemsLookup(quantize: Quantizer)
    ensures StandardSystems(quantize).Keys == SYSTEM_NAMES
    ensures StandardSystems(quantize)[QUANTUM_HERMETIC] == QuantumHermeticTable(quantize)
    ensures StandardSystems(quantize)[ENGLISH_ORDINAL] == EnglishOrdinalTable()
    ensures StandardSystems(quantize)[ENGLISH_QBL] == QBL_TABLE
    ensures StandardSystems(quantize)[GREEK] == GREEK_TABLE
    ensures StandardSystems(quantize)[HEBREW] == HEBREW_TABLE
  {
    SystemsLookup(QuantumHermeticTable(quantize), EnglishOrdinalTable(), QBL_TABLE, GREEK_TABLE, HEBREW_TABLE);
  }

  /** `str.lower()` on one character, for the ASCII letters only. */
  function LowerChar(c: char): char
  {
    if 'A' <= c <= 'Z' then (c as int + 32) as char else c
  }

  function Lower(s: string): (r: string)
    ensures |r| == |s|
    ensures forall i :: 0 <= i < |s| ==> r[i] == LowerChar(s[i])
  {
    seq(|s|, i requires 0 <= i < |s| => LowerChar(s[i]))
  }

  /** `system_map.get(char, 0)`: the value of a one-character key, or 0 when it is absent. */
  function Lookup(t: Table, c: char): int
  {
    if [c] in t then t[[c]] else 0
  }

  /** `sum(system_map.get(char, 0) for char in text)`. */
  function RawSum(t: Table, s: string): int
  {
    if s == [] then 0 else Lookup(t, s[0]) + RawSum(t, s[1..])
  }

  /** Python's `int(x)` on a float: truncation toward zero. */
  function Trunc(x: real): (r: int)
    ensures x >= 0.0 ==> r as real <= x < r as real + 1.0
    ensures x < 0.0 ==> r as real - 1.0 < x <= r as real
  {
    if x >= 0.0 then x.Floor else -((-x).Floor)
  }

  /** `int(base * PHI)`, with the product taken exactly. */
  function ScalePhi(base: int): (r: int)
    ensures base == 0 ==> r == 0
    ensures base > 0 ==> base <= r < 2 * base
    ensures base < 0 ==> 2 * base < r <= base
  {
    Trunc(base as real * PHI)
  }

  /**
   * `calculate_base_value`: lowercase the text, sum the table value of
   * every character (absent ones add 0), then scale by PHI unless the
   * system is `quantum_hermetic`. An unknown system name is an error.
   */
  function CalculateBaseValue(systems: map<string, Table>, text: string, system: string): (r: Result<int, EngineError>)
    ensures r.Failure? <==> system !in systems
    ensures r.Failure? ==> r.error == UnknownSystem(system)
    ensures r.Success? && system == QUANTUM_HERMETIC ==> r.value == RawSum(systems[system], Lower(text))
    ensures r.Success? && system != QUANTUM_HERMETIC ==> r.value == ScalePhi(RawSum(systems[system], Lower(text)))
    ensures system in systems && text == "" ==> r == Success(0)
  {
    if system !in systems then Failure(UnknownSystem(system))
    else
      var base := RawSum(systems[system], Lower(text));
      if system == QUANTUM_HERMETIC then Success(base) else Success(ScalePhi(base))
  }

  /** The base value of a concatenation is the sum of the base values of its parts. */
  lemma {:induction false} RawSumAppend(t: Table, a: string, b: string)
    ensures RawSum(t, a + b) == RawSum(t, a) + RawSum(t, b)
  {
    if a == [] {
      assert a + b == b;
    } else {
      assert (a + b)[0] == a[0];
      assert (a + b)[1..] == a[1..] + b;
      RawSumAppend(t, a[1..], b);
    }
  }

  /** A text none of whose characters is a key of the table sums to 0. */
  lemma {:induction false} RawSumUnrecognised(t: Table, s: string)
    requires forall i :: 0 <= i < |s| ==> [s[i]] !in t
    ensures RawSum(t, s) == 0
  {
    if s != [] {
      RawSumUnrecognised(t, s[1..]);
    }
  }

  /**
   * Per-character lookup never reaches a key that is not one character
   * long: removing all such keys from a table changes no sum.
   */
  lemma {:induction false} MultiCharKeysUnreachable(t: Table, drop: set<string>, s: string)
    requires forall k :: k in drop ==> |k| != 1
    ensures RawSum(t - drop, s) == RawSum(t, s)
  {
    if s != [] {
      assert [s[0]] !in drop;
      MultiCharKeysUnreachable(t, drop, s[1..]);
    }
  }

  /** The digraph keys of english_qbl are present but add nothing to any text. */
  lemma QblDigraphsUnreachable(s: string)
    ensures "ch" in QBL_TABLE && "ts" in QBL_TABLE && "sh" in QBL_TABLE && "th" in QBL_TABLE
    ensures RawSum(QBL_TABLE, s) == RawSum(QBL_TABLE - {"ch", "ts", "sh", "th"}, s)
  {
    MultiCharKeysUnreachable(QBL_TABLE, {"ch", "ts", "sh", "th"}, s);
  }

  /** A table with no negative value gives no negative sum. */
  lemma {:induction false} RawSumNonNegative(t: Table, s: string)
    requires forall k :: k in t ==> t[k] >= 0
    ensures RawSum(t, s) >= 0
  {
    if s != [] {
      RawSumNonNegative(t, s[1..]);
    }
  }

  /** Texts that differ only in the case of ASCII letters have the same base value. */
  lemma BaseValueIgnoresCase(systems: map<string, Table>, a: string, b: string, system: string)
    requires |a| == |b|
    requires forall i :: 0 <= i < |a| ==> LowerChar(a[i]) == LowerChar(b[i])
    ensures CalculateBaseValue(systems, a, system) == CalculateBaseValue(systems, b, system)
  {
    assert Lower(a) == Lower(b);
  }

  /** The letter with ordinal `v` looks up `v` in english_ordinal. */
  lemma EnglishOrdinalLookup(v: int)
    requires 1 <= v <= 26
    ensures Lookup(EnglishOrdinalTable(), LetterKey(v)[0]) == v
  {
    assert [LetterKey(v)[0]] == LetterKey(v);
  }

  /** The letter with ordinal `v` looks up its quantized value in quantum_hermetic. */
  lemma QuantumHermeticLookup(quantize: Quantizer, v: int)
    requires 1 <= v <= 26
    ensures Lookup(QuantumHermeticTable(quantize), LetterKey(v)[0]) == quantize(v, FactorChain(v))
  {
    assert [LetterKey(v)[0]] == LetterKey(v);
  }

  /** A five-character text sums its five lookups. */
  lemma RawSumOfFive(t: Table, s: string)
    requires |s| == 5
    ensures RawSum(t, s) == Lookup(t, s[0]) + Lookup(t, s[1]) + Lookup(t, s[2]) + Lookup(t, s[3]) + Lookup(t, s[4])
  {
    assert RawSum(t, s) == Lookup(t, s[0]) + RawSum(t, s[1..]);
    assert RawSum(t, s[1..]) == Lookup(t, s[1]) + RawSum(t, s[2..]);
    assert RawSum(t, s[2..]) == Lookup(t, s[2]) + RawSum(t, s[3..]);
    assert RawSum(t, s[3..]) == Lookup(t, s[3]) + RawSum(t, s[4..]);
    assert RawSum(t, s[4..]) == Lookup(t, s[4]) + RawSum(t, s[5..]);
  }

  lemma LightRawSum(t: Table)
    ensures Lower("LIGHT") == "light"
    ensures RawSum(t, "light") == Lookup(t, 'l') + Lookup(t, 'i') + Lookup(t, 'g') + Lookup(t, 'h') + Lookup(t, 't')
  {
    RawSumOfFive(t, "light");
  }

  lemma LightOrdinals()
    ensures LetterKey(12) == "l" && LetterKey(9) == "i" && LetterKey(7) == "g"
    ensures LetterKey(8) == "h" && LetterKey(20) == "t"
  {
  }

  lemma LightBaseValue(systems: map<string, Table>, system: string)
    requires system in systems
    ensures CalculateBaseValue(systems, "LIGHT", system)
         == Success(if system == QUANTUM_HERMETIC then RawSum(systems[system], "light")
                    else ScalePhi(RawSum(systems[system], "light")))
  {
    assert Lower("LIGHT") == "light";
  }

  /**
   * Under english_ordinal, "LIGHT" sums to 12 + 9 + 7 + 8 + 20 = 56, and
   * int(56 * PHI) is 90. The engine's systems meet the requirement
   * (`StandardSystemsLookup`).
   */
  lemma LightUnderEnglishOrdinal(systems: map<string, Table>)
    requires ENGLISH_ORDINAL in systems && systems[ENGLISH_ORDINAL] == EnglishOrdinalTable()
    ensures CalculateBaseValue(systems, "LIGHT", ENGLISH_ORDINAL) == Success(90)
  {
    LightBaseValue(systems, ENGLISH_ORDINAL);
    assert RawSum(systems[ENGLISH_ORDINAL], "light") == 56 by { LightOrdinalSum(); }
    ScalePhiOfLight();
  }

  lemma ScalePhiOfLight()
    ensures ScalePhi(56) == 90
  {
    assert 56 as real * PHI == 90.609903369994120;
  }

  lemma LightOrdinalSum()
    ensures RawSum(EnglishOrdinalTable(), "light") == 56
  {
    var t := EnglishOrdinalTable();
    LightRawSum(t);
    LightOrdinals();
    EnglishOrdinalLookup(12);
    EnglishOrdinalLookup(9);
    EnglishOrdinalLookup(7);
    EnglishOrdinalLookup(8);
    EnglishOrdinalLookup(20);
  }

  /**
   * Under the default system, "LIGHT" is the sum of the quantized values
   * of l, i, g, h and t. The engine's systems meet the requirement
   * (`StandardSystemsLookup`).
   */
  lemma LightUnderQuantumHermetic(quantize: Quantizer, systems: map<string, Table>)
    requires QUANTUM_HERMETIC in systems && systems[QUANTUM_HERMETIC] == QuantumHermeticTable(quantize)
    ensures CalculateBaseValue(systems, "LIGHT", QUANTUM_HERMETIC)
         == Success(quantize(12, FactorChain(12)) + quantize(9, FactorChain(9)) + quantize(7, FactorChain(7))
                    + quantize(8, FactorChain(8)) + quantize(20, FactorChain(20)))
  {
    LightBaseValue(systems, QUANTUM_HERMETIC);
    var sum := RawSum(systems[QUANTUM_HERMETIC], "light");
    assert sum == quantize(12, FactorChain(12)) + quantize(9, FactorChain(9)) + quantize(7, FactorChain(7))
                 + quantize(8, FactorChain(8)) + quantize(20, FactorChain(20)) by { LightQuantumSum(quantize); }
  }

  lemma LightQuantumSum(quantize: Quantizer)
    ensures RawSum(QuantumHermeticTable(quantize), "light")
         == quantize(12, FactorChain(12)) + quantize(9, FactorChain(9)) + quantize(7, FactorChain(7))
            + quantize(8, FactorChain(8)) + quantize(20, FactorChain(20))
  {
    var t := QuantumHermeticTable(quantize);
    LightRawSum(t);
    LightOrdinals();
    QuantumHermeticLookup(quantize, 12);
    QuantumHermeticLookup(quantize, 9);
    QuantumHermeticLookup(quantize, 7);
    QuantumHermeticLookup(quantize, 8);
    QuantumHermeticLookup(quantize, 20);
  }
}

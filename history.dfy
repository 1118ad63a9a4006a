/**
 * The session history of the web front end: each analysis and each
 * comparison is recorded at the head of its own list, which keeps the
 * ten newest entries; a missing list reads as empty, and clearing the
 * session removes both lists. The HTTP layer, JSON and the clock are
 * not modelled: the request fields and the timestamp are parameters.
 */
module History {
  import opened Wrappers
  import opened Ranking
  import opened Gematria
  import opened Analysis
  import opened Comparison
  import opened Engine

  /** The number of entries each list keeps. */
  const HISTORY_LIMIT: nat := 10

  datatype AnalysisEntry = AnalysisEntry(timestamp: string, text: string, result: AnalysisResult)

  datatype ComparisonEntry = ComparisonEntry(timestamp: string, phrase1: string, phrase2: string, result: ComparisonResult)

  /** What the `history` route returns. */
  datatype HistoryView = HistoryView(analyses: seq<AnalysisEntry>, comparisons: seq<ComparisonEntry>)

  /** `[entry] + h[:9]`. */
  function Push<T>(h: seq<T>, e: T): seq<T>
  {
    [e] + Take(h, HISTORY_LIMIT - 1)
  }

  /**
   * The new entry comes first, followed by the previous entries in their
   * order, the oldest dropped once there are ten: never more than ten.
   */
  lemma PushSpec<T>(h: seq<T>, e: T)
    ensures |Push(h, e)| == Min(|h| + 1, HISTORY_LIMIT)
    ensures Push(h, e)[0] == e
    ensures forall i :: 1 <= i < |Push(h, e)| ==> Push(h, e)[i] == h[i - 1]
  {
  }

  /** The entries of a sequence, last first. */
  function Reverse<T>(s: seq<T>): (r: seq<T>)
    ensures |r| == |s|
    ensures forall i :: 0 <= i < |s| ==> r[i] == s[|s| - 1 - i]
  {
    if s == [] then [] else [s[|s| - 1]] + Reverse(s[..|s| - 1])
  }

  /** Recording the entries of `es` one after the other. */
  function PushAll<T>(h: seq<T>, es: seq<T>): seq<T>
  {
    if es == [] then h else Push(PushAll(h, es[..|es| - 1]), es[|es| - 1])
  }

  lemma TakeTake<T>(s: seq<T>, m: nat, n: nat)
    requires n <= m
    ensures Take(Take(s, m), n) == Take(s, n)
  {
  }

  lemma TakeCons<T>(e: T, s: seq<T>, n: nat)
    ensures Take([e] + s, n + 1) == [e] + Take(s, n)
  {
    if |s| > n {
      assert ([e] + s)[..n + 1] == [e] + s[..n];
    }
  }

  /**
   * After any sequence of recordings, starting from at most ten entries,
   * the list is the ten newest entries, newest first.
   */
  lemma {:induction false} PushAllNewestFirst<T>(h: seq<T>, es: seq<T>)
    requires |h| <= HISTORY_LIMIT
    ensures PushAll(h, es) == Take(Reverse(es) + h, HISTORY_LIMIT)
  {
    if es != [] {
      var init := es[..|es| - 1];
      var e := es[|es| - 1];
      PushAllNewestFirst(h, init);
      assert es[..|es| - 1] == init;
      TakeTake(Reverse(init) + h, HISTORY_LIMIT, HISTORY_LIMIT - 1);
      TakeCons(e, Reverse(init) + h, HISTORY_LIMIT - 1);
      assert Reverse(es) == [e] + Reverse(init);
      assert Reverse(es) + h == [e] + (Reverse(init) + h);
    }
  }

  /** The Flask session: both lists are absent until the first entry of their kind. */
  class Session {
    var history: Option<seq<AnalysisEntry>>
    var comparisons: Option<seq<ComparisonEntry>>

    predicate Valid()
      reads this
    {
      (history.Some? ==> |history.value| <= HISTORY_LIMIT)
      && (comparisons.Some? ==> |comparisons.value| <= HISTORY_LIMIT)
    }

    constructor ()
      ensures history == None && comparisons == None
      ensures Valid()
    {
      history := None;
      comparisons := None;
    }

    /** `session.get('history', [])`. */
    function Analyses(): seq<AnalysisEntry>
      reads this
    {
      if history.Some? then history.value else []
    }

    /** `session.get('comparisons', [])`. */
    function Comparisons(): seq<ComparisonEntry>
      reads this
    {
      if comparisons.Some? then comparisons.value else []
    }

    /** The `history` route: both lists, an absent one as empty. */
    function View(): (v: HistoryView)
      reads this
      ensures history.Some? ==> v.analyses == history.value
      ensures history.None? ==> v.analyses == []
      ensures comparisons.Some? ==> v.comparisons == comparisons.value
      ensures comparisons.None? ==> v.comparisons == []
    {
      HistoryView(Analyses(), Comparisons())
    }

    /** Record an analysis at the head of the history, which starts empty when absent and keeps its ten newest entries. */
    method RecordAnalysis(entry: AnalysisEntry)
      requires Valid()
      modifies this
      ensures Valid()
      ensures history == Some(Push(old(Analyses()), entry))
      ensures comparisons == old(comparisons)
    {
      history := Some(Push(Analyses(), entry));
    }

    /** Record a comparison at the head of its list, which starts empty when absent and keeps its ten newest entries. */
    method RecordComparison(entry: ComparisonEntry)
      requires Valid()
      modifies this
      ensures Valid()
      ensures comparisons == Some(Push(old(Comparisons()), entry))
      ensures history == old(history)
    {
      comparisons := Some(Push(Comparisons(), entry));
    }

    /**
     * The `analyze` route: analyse the request's text (empty when the
     * field is missing) under the default system and record it at the
     * head of the history; the comparisons are untouched.
     */
    method Analyze(engine: QuantumHermeticGematria, timestamp: string, text: Option<string>)
      returns (result: AnalysisResult)
      requires engine.HasDefaultSystem()
      requires Valid()
      modifies this
      ensures Valid()
      ensures var t := if text.Some? then text.value else "";
              Analysis.AnalyzeText(engine.physics, engine.catalogs, old(engine.systems), t, QUANTUM_HERMETIC) == Success(result)
              && history == Some(Push(old(Analyses()), AnalysisEntry(timestamp, t, result)))
      ensures comparisons == old(comparisons)
    {
      var t := if text.Some? then text.value else "";
      result := Analysis.AnalyzeText(engine.physics, engine.catalogs, engine.systems, t, QUANTUM_HERMETIC).value;
      RecordAnalysis(AnalysisEntry(timestamp, t, result));
    }

    /**
     * The `compare` route: compare the request's two phrases (each empty
     * when missing) and record the comparison at the head of its list;
     * the analyses are untouched.
     */
    method Compare(engine: QuantumHermeticGematria, timestamp: string, phrase1: Option<string>, phrase2: Option<string>)
      returns (result: ComparisonResult)
      requires engine.HasDefaultSystem()
      requires Valid()
      modifies this
      ensures Valid()
      ensures var p1 := if phrase1.Some? then phrase1.value else "";
              var p2 := if phrase2.Some? then phrase2.value else "";
              Comparison.ComparePhrases(engine.physics, engine.catalogs, engine.waves, old(engine.systems), p1, p2) == Success(result)
              && comparisons == Some(Push(old(Comparisons()), ComparisonEntry(timestamp, p1, p2, result)))
      ensures history == old(history)
    {
      var p1 := if phrase1.Some? then phrase1.value else "";
      var p2 := if phrase2.Some? then phrase2.value else "";
      result := Comparison.ComparePhrases(engine.physics, engine.catalogs, engine.waves, engine.systems, p1, p2).value;
      RecordComparison(ComparisonEntry(timestamp, p1, p2, result));
    }

    /** `clear_history`: `session.clear()`; both lists then read as empty. */
    method ClearHistory()
      modifies this
      ensures history == None && comparisons == None
      ensures Valid()
      ensures View() == HistoryView([], [])
    {
      history := None;
      comparisons := None;
    }
  }
}

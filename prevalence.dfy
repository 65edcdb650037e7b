/**
 * Corpus prevalence: the per-case estimate record, manual entry of Factiva
 * results, and the combined derivative-to-primary ratio across the web,
 * Factiva and GDELT sources.
 *
 * Python floats are modelled as exact reals.
 */
module Prevalence {
  import CaseAggregate

  datatype SearchResult = SearchResult(
    query: string,
    resultCountEstimate: int,
    searchMethod: string,   // "google", "factiva", "gdelt", "manual", "estimated"
    date: string,
    notes: string)

  datatype FactivaResult = FactivaResult(
    query: string,
    resultCount: int,
    sources: seq<string>,
    dateRange: string,
    sourceType: string,
    notes: string)

  datatype GdeltResult = GdeltResult(
    query: string,
    articleCount: int,
    mentionCount: int,
    countryDistribution: map<string, int>,
    toneAvg: real,
    dateRange: string,
    sourceType: string,
    notes: string)

  class PrevalenceEstimate {
    var caseId: string
    var primarySource: string
    var primarySourceCount: int
    var derivativeCount: int
    var derivativeToPrimaryRatio: real
    var searchResults: seq<SearchResult>
    var factivaResults: seq<FactivaResult>
    var gdeltResults: seq<GdeltResult>
    var timeSeries: map<string, int>
    var combinedRatio: real
    var sourceContributions: map<string, real>
    var notes: string

    /** The dataclass constructor with only the required fields given. */
    constructor (caseId: string, primarySource: string, primarySourceCount: int,
                 derivativeCount: int, derivativeToPrimaryRatio: real)
      ensures this.caseId == caseId && this.primarySource == primarySource
      ensures this.primarySourceCount == primarySourceCount && this.derivativeCount == derivativeCount
      ensures this.derivativeToPrimaryRatio == derivativeToPrimaryRatio
      ensures searchResults == [] && factivaResults == [] && gdeltResults == []
      ensures timeSeries == map[] && combinedRatio == 0.0 && sourceContributions == map[] && notes == ""
    {
      this.caseId := caseId;
      this.primarySource := primarySource;
      this.primarySourceCount := primarySourceCount;
      this.derivativeCount := derivativeCount;
      this.derivativeToPrimaryRatio := derivativeToPrimaryRatio;
      searchResults := [];
      factivaResults := [];
      gdeltResults := [];
      timeSeries := map[];
      combinedRatio := 0.0;
      sourceContributions := map[];
      notes := "";
    }
  }

  /**
   * `add_factiva_result`: appends exactly one Factiva record with the given
   * fields (source type "factiva"); every other field is unchanged.
   */
  method AddFactivaResult(est: PrevalenceEstimate, query: string, count: int, sources: seq<string>,
                          dateRange: string, notes: string)
    modifies est
    ensures est.factivaResults == old(est.factivaResults) + [FactivaResult(query, count, sources, dateRange, "factiva", notes)]
    ensures est.searchResults == old(est.searchResults) && est.gdeltResults == old(est.gdeltResults)
    ensures est.caseId == old(est.caseId) && est.primarySource == old(est.primarySource)
    ensures est.primarySourceCount == old(est.primarySourceCount) && est.derivativeCount == old(est.derivativeCount)
    ensures est.derivativeToPrimaryRatio == old(est.derivativeToPrimaryRatio)
    ensures est.timeSeries == old(est.timeSeries) && est.combinedRatio == old(est.combinedRatio)
    ensures est.sourceContributions == old(est.sourceContributions) && est.notes == old(est.notes)
  {
    est.factivaResults := est.factivaResults + [FactivaResult(query, count, sources, dateRange, "factiva", notes)];
  }

  // ---------------------------------------------------------------------------
  // `compute_combined_ratio`.
  // ---------------------------------------------------------------------------

  /** The mean of a list of counts; 0 for no counts. */
  function Average(counts: seq<int>): real {
    if counts == [] then 0.0 else CaseAggregate.Sum(counts) as real / |counts| as real
  }

  function SearchCounts(rs: seq<SearchResult>): seq<int> {
    seq(|rs|, i requires 0 <= i < |rs| => rs[i].resultCountEstimate)
  }

  function FactivaCounts(rs: seq<FactivaResult>): seq<int> {
    seq(|rs|, i requires 0 <= i < |rs| => rs[i].resultCount)
  }

  function GdeltCounts(rs: seq<GdeltResult>): seq<int> {
    seq(|rs|, i requires 0 <= i < |rs| => rs[i].articleCount)
  }

  /** Is `key` one of the three sources that carry a weight? */
  predicate WeightedSource(key: string) {
    key == "google" || key == "factiva" || key == "gdelt"
  }

  /** The source weights: GDELT and Factiva 0.4, web search 0.2, anything else 0. */
  function Weight(key: string): (w: real)
    ensures key == "gdelt" ==> w == 0.4
    ensures key == "factiva" ==> w == 0.4
    ensures key == "google" ==> w == 0.2
    ensures WeightedSource(key) ==> w > 0.0
    ensures !WeightedSource(key) ==> w == 0.0
  {
    if key == "gdelt" then 0.4
    else if key == "factiva" then 0.4
    else if key == "google" then 0.2
    else 0.0
  }

  /**
   * The per-source ratios. A source has an entry exactly when it has at
   * least one result and the primary-source count is positive; the entry
   * is the source's mean count divided by the primary-source count.
   */
  function Contributions(search: seq<SearchResult>, factiva: seq<FactivaResult>, gdelt: seq<GdeltResult>, primary: int)
    : (c: map<string, real>)
    ensures c.Keys <= {"google", "factiva", "gdelt"}
    ensures "google" in c <==> search != [] && primary > 0
    ensures "factiva" in c <==> factiva != [] && primary > 0
    ensures "gdelt" in c <==> gdelt != [] && primary > 0
    ensures "google" in c ==> c["google"] == Average(SearchCounts(search)) / primary as real
    ensures "factiva" in c ==> c["factiva"] == Average(FactivaCounts(factiva)) / primary as real
    ensures "gdelt" in c ==> c["gdelt"] == Average(GdeltCounts(gdelt)) / primary as real
  {
    var c0: map<string, real> := map[];
    var c1 := if search != [] && primary > 0 then c0["google" := Average(SearchCounts(search)) / primary as real] else c0;
    var c2 := if factiva != [] && primary > 0 then c1["factiva" := Average(FactivaCounts(factiva)) / primary as real] else c1;
    if gdelt != [] && primary > 0 then c2["gdelt" := Average(GdeltCounts(gdelt)) / primary as real] else c2
  }

  /** `contributions.get(key, 0) * weights.get(key, 0)` for a key of the contributions. */
  function Term(c: map<string, real>, key: string): real {
    if key in c then c[key] * Weight(key) else 0.0
  }

  function PresentWeight(c: map<string, real>, key: string): real {
    if key in c then Weight(key) else 0.0
  }

  /** The weighted sum over the contributions (keys without a weight add 0). */
  function WeightedSum(c: map<string, real>): real {
    Term(c, "gdelt") + Term(c, "factiva") + Term(c, "google")
  }

  /** The sum of the weights of the contributions present. */
  function TotalWeight(c: map<string, real>): real {
    PresentWeight(c, "gdelt") + PresentWeight(c, "factiva") + PresentWeight(c, "google")
  }

  /** The combination step: the weighted mean of the contributions, or the fallback when there are none. */
  function Combine(c: map<string, real>, fallback: real): real {
    if c == map[] then fallback
    else
      var totalWeight := TotalWeight(c);
      if totalWeight > 0.0 then WeightedSum(c) / totalWeight else 0.0
  }

  /** A weighted source being present makes the total weight positive. */
  lemma TotalWeightPositive(c: map<string, real>)
    requires c != map[] && c.Keys <= {"google", "factiva", "gdelt"}
    ensures TotalWeight(c) > 0.0
  {
    var k :| k in c;
    assert WeightedSource(k);
  }

  /** With one weighted source the combined value is that source's contribution. */
  lemma CombineSingleSource(c: map<string, real>, key: string, fallback: real)
    requires c.Keys == {key} && WeightedSource(key)
    ensures Combine(c, fallback) == c[key]
  {
    assert forall k :: k in c <==> k == key;
    var w := Weight(key);
    assert TotalWeight(c) == w;
    assert WeightedSum(c) == c[key] * w;
  }

  /** The combined value lies between any lower and any upper bound of the contributions. */
  lemma CombineWithinBounds(c: map<string, real>, fallback: real, lo: real, hi: real)
    requires c != map[] && c.Keys <= {"google", "factiva", "gdelt"}
    requires forall k :: k in c ==> lo <= c[k] <= hi
    ensures lo <= Combine(c, fallback) <= hi
  {
    TotalWeightPositive(c);
    WeightedSumBounds(c, lo, hi);
    QuotientBounds(WeightedSum(c), TotalWeight(c), lo, hi);
  }

  /** The weighted sum lies between the bounds scaled by the total weight. */
  lemma WeightedSumBounds(c: map<string, real>, lo: real, hi: real)
    requires forall k :: k in c ==> lo <= c[k] <= hi
    ensures TotalWeight(c) * lo <= WeightedSum(c) <= TotalWeight(c) * hi
  {
    TermBounds(c, "gdelt", lo, hi);
    TermBounds(c, "factiva", lo, hi);
    TermBounds(c, "google", lo, hi);
    ScaledSumBounds(Term(c, "gdelt"), Term(c, "factiva"), Term(c, "google"),
                    PresentWeight(c, "gdelt"), PresentWeight(c, "factiva"), PresentWeight(c, "google"),
                    WeightedSum(c), TotalWeight(c), lo, hi);
  }

  /** Three terms scaled-bounded by their weights sum to a total scaled-bounded by the summed weight. */
  lemma ScaledSumBounds(t1: real, t2: real, t3: real, w1: real, w2: real, w3: real, sum: real, total: real, lo: real, hi: real)
    requires w1 * lo <= t1 <= w1 * hi && w2 * lo <= t2 <= w2 * hi && w3 * lo <= t3 <= w3 * hi
    requires sum == t1 + t2 + t3 && total == w1 + w2 + w3
    ensures total * lo <= sum <= total * hi
  {
    assert total * lo == w1 * lo + w2 * lo + w3 * lo;
    assert total * hi == w1 * hi + w2 * hi + w3 * hi;
  }

  /** Each term lies between the bounds scaled by its present weight. */
  lemma TermBounds(c: map<string, real>, key: string, lo: real, hi: real)
    requires key in c ==> lo <= c[key] <= hi
    ensures PresentWeight(c, key) * lo <= Term(c, key) <= PresentWeight(c, key) * hi
  {
    if key in c {
      var w := Weight(key);
      assert w >= 0.0;
      assert w * lo <= w * c[key] <= w * hi;
    }
  }

  /** Dividing by a positive total keeps a scaled bound. */
  lemma QuotientBounds(sum: real, total: real, lo: real, hi: real)
    requires total > 0.0 && total * lo <= sum <= total * hi
    ensures lo <= sum / total <= hi
  {
    var q := sum / total;
    assert q * total == sum;
    assert (q - lo) * total >= 0.0;
    assert (hi - q) * total >= 0.0;
  }

  /**
   * `compute_combined_ratio`: reads the estimate and changes nothing. It
   * returns the weighted combination of the per-source contributions, and
   * the contributions themselves; with no contribution (no results, or no
   * positive primary-source count) it returns the stored ratio and `{}`.
   */
  function CombinedRatio(est: PrevalenceEstimate): (r: (real, map<string, real>))
    reads est
    ensures r.1 == Contributions(est.searchResults, est.factivaResults, est.gdeltResults, est.primarySourceCount)
    ensures r.1 == map[] <==> est.primarySourceCount <= 0
                              || (est.searchResults == [] && est.factivaResults == [] && est.gdeltResults == [])
    ensures r.1 == map[] ==> r.0 == est.derivativeToPrimaryRatio
    ensures r.1 != map[] ==> r.0 == WeightedSum(r.1) / TotalWeight(r.1)
  {
    var c := Contributions(est.searchResults, est.factivaResults, est.gdeltResults, est.primarySourceCount);
    assert c == map[] <== "google" !in c && "factiva" !in c && "gdelt" !in c;
    if c == map[] then (est.derivativeToPrimaryRatio, c)
    else
      TotalWeightPositive(c);
      (Combine(c, est.derivativeToPrimaryRatio), c)
  }

  /** The caller's step: store the combined ratio and its contributions; nothing else changes. */
  method StoreCombinedRatio(est: PrevalenceEstimate)
    modifies est
    ensures est.combinedRatio == old(CombinedRatio(est)).0
    ensures est.sourceContributions == old(CombinedRatio(est)).1
    ensures est.searchResults == old(est.searchResults) && est.factivaResults == old(est.factivaResults)
    ensures est.gdeltResults == old(est.gdeltResults) && est.primarySourceCount == old(est.primarySourceCount)
    ensures est.derivativeToPrimaryRatio == old(est.derivativeToPrimaryRatio)
    ensures est.caseId == old(est.caseId) && est.primarySource == old(est.primarySource)
    ensures est.derivativeCount == old(est.derivativeCount) && est.timeSeries == old(est.timeSeries)
    ensures est.notes == old(est.notes)
  {
    var r := CombinedRatio(est);
    est.combinedRatio := r.0;
    est.sourceContributions := r.1;
  }
}

/**
 * Phase-4 ingestion: coding a run's raw records into a case aggregate, and
 * the numeric part of the per-model summary statistics.
 */
module Ingestion {
  import opened Taxonomy
  import opened CaseAggregate
  import opened Classifier
  import opened Probing

  const AutomatedCoder: string := "automated_v1"

  /**
   * The coded record for one raw record with a response. The prompt type
   * defaults to "A" and the administration to 1; the four dimensions come
   * from the case's classifier.
   */
  function CodeOne(study: CaseStudy, caseId: string, r: RawResponse, matches: Matcher): (c: CodedResponse)
    requires HasResponse(r)
    ensures c.caseId == caseId && c.model == r.model && c.rawResponse == r.response.value
    ensures c.coderId == AutomatedCoder && c.notes == ""
    ensures c.promptType == r.promptType.GetOr("A") && c.administration == r.administration.GetOr(1)
    ensures r.promptType.None? ==> c.promptType == "A"
    ensures r.administration.None? ==> c.administration == 1
    ensures var coding := Analyse(study, r.response.value, c.promptType, matches);
            && c.fidelity == Some(coding.fidelity) && c.attribution == Some(coding.attribution)
            && c.confidence == Some(coding.confidence) && c.awareness == Some(coding.awareness)
    ensures c.fidelity.Some? && c.attribution.Some? && c.confidence.Some? && c.awareness.Some?
    ensures c.fidelity.value != Contradiction && c.attribution.value != Fabricated && c.confidence.value != Refusal
    ensures c.confidence.value == ExtractConfidenceLevel(r.response.value, matches)
  {
    var text := r.response.value;
    var promptType := r.promptType.GetOr("A");
    var coding := Analyse(study, text, promptType, matches);
    CodedResponse(caseId, r.model, promptType, r.administration.GetOr(1), text,
                  Some(coding.fidelity), Some(coding.attribution), Some(coding.confidence),
                  Some(coding.awareness), "", AutomatedCoder)
  }

  /** The coding of a list of raw records: those without a response are skipped. */
  function CodeAll(study: CaseStudy, caseId: string, raws: seq<RawResponse>, matches: Matcher): seq<CodedResponse>
    decreases |raws|
  {
    if raws == [] then []
    else
      var last := raws[|raws| - 1];
      CodeAll(study, caseId, raws[..|raws| - 1], matches)
        + (if HasResponse(last) then [CodeOne(study, caseId, last, matches)] else [])
  }

  /**
   * The coded records are, in order, the codings of exactly the raw records
   * with a non-empty response.
   */
  lemma {:induction false} CodeAllIsCodingOfResponded(study: CaseStudy, caseId: string, raws: seq<RawResponse>, matches: Matcher)
    ensures var responded := Where(raws, HasResponse);
            var out := CodeAll(study, caseId, raws, matches);
            && |out| == |responded|
            && forall k :: 0 <= k < |out| ==> HasResponse(responded[k]) && out[k] == CodeOne(study, caseId, responded[k], matches)
    decreases |raws|
  {
    if raws != [] {
      var init, last := raws[..|raws| - 1], raws[|raws| - 1];
      assert raws == init + [last];
      CodeAllIsCodingOfResponded(study, caseId, init, matches);
      var responded := Where(raws, HasResponse);
      var before := Where(init, HasResponse);
      assert responded == before + (if HasResponse(last) then [last] else []);
      forall k | 0 <= k < |responded| ensures HasResponse(responded[k]) {
        assert responded[k] in responded;
      }
    }
  }

  /** Every coded record carries the case, the automated coder identifier and all four codes. */
  lemma {:induction false} CodedRecordsAreAutomated(study: CaseStudy, caseId: string, raws: seq<RawResponse>, matches: Matcher)
    ensures forall c :: c in CodeAll(study, caseId, raws, matches) ==>
              && c.caseId == caseId && c.coderId == AutomatedCoder
              && c.fidelity.Some? && c.attribution.Some? && c.confidence.Some? && c.awareness.Some?
    decreases |raws|
  {
    if raws != [] {
      CodedRecordsAreAutomated(study, caseId, raws[..|raws| - 1], matches);
    }
  }

  /**
   * The coding loop of `process_raw_responses`: an unknown case fails at the
   * classifier lookup; otherwise a fresh aggregate for the case receives,
   * by `Add`, the coding of every raw record with a response, in order.
   */
  method ProcessRawResponses(caseId: string, raws: seq<RawResponse>, matches: Matcher)
    returns (res: Option<CaseResults>)
    ensures res.None? <==> AnalyserFor(caseId).None?
    ensures res.Some? ==> fresh(res.value) && res.value.caseId == caseId
    ensures res.Some? ==> res.value.responses == CodeAll(AnalyserFor(caseId).value, caseId, raws, matches)
  {
    var analyser := AnalyserFor(caseId);
    if analyser.None? {
      return None;
    }
    var study := analyser.value;
    var results := new CaseResults(caseId);
    var i := 0;
    while i < |raws|
      invariant 0 <= i <= |raws|
      invariant results.caseId == caseId
      invariant results.responses == CodeAll(study, caseId, raws[..i], matches)
    {
      var r := raws[i];
      assert raws[..i + 1][..i] == raws[..i];
      if HasResponse(r) {
        var coded := CodeOne(study, caseId, r, matches);
        results.Add(coded);
      }
      i := i + 1;
    }
    assert raws[..i] == raws;
    return Some(results);
  }

  /**
   * The numbers of `compute_summary_stats`: one row per listed model, the
   * same row `summary_table` computes (see `SummaryTable`).
   */
  method ComputeSummaryStats(results: CaseResults, models: seq<string>) returns (stats: map<string, SummaryRow>)
    ensures stats.Keys == set m | m in models
    ensures forall m :: m in stats ==> stats[m] == ModelRow(results.responses, m)
  {
    var rs := results.responses;
    stats := map[];
    var i := 0;
    while i < |models|
      invariant 0 <= i <= |models|
      invariant stats.Keys == set m | m in models[..i]
      invariant forall m :: m in stats ==> stats[m] == ModelRow(rs, m)
    {
      var model := models[i];
      assert models[..i + 1] == models[..i] + [model];
      stats := stats[model := ModelRow(rs, model)];
      i := i + 1;
    }
    assert models[..i] == models;
  }
}

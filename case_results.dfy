/**
 * The per-case aggregate: an append-only collection of coded responses,
 * the filter and rate queries over it, its persisted document, and the
 * per-model summary table.
 */
module CaseAggregate {
  import opened Taxonomy

  // ---------------------------------------------------------------------------
  // Order-preserving selection and counting over a sequence of records.
  // ---------------------------------------------------------------------------

  /** The elements of `rs` that satisfy `keep`, in their original order. */
  function Where<T(!new)>(rs: seq<T>, keep: T -> bool): (out: seq<T>)
    ensures |out| <= |rs|
    ensures forall x :: x in out <==> x in rs && keep(x)
  {
    if rs == [] then []
    else
      var last := rs[|rs| - 1];
      Where(rs[..|rs| - 1], keep) + (if keep(last) then [last] else [])
  }

  /** Selection commutes with concatenation: it keeps relative order. */
  lemma {:induction false} WhereAppend<T(!new)>(a: seq<T>, b: seq<T>, keep: T -> bool)
    ensures Where(a + b, keep) == Where(a, keep) + Where(b, keep)
    decreases |b|
  {
    if b == [] {
      assert a + b == a;
    } else {
      var b' := b[..|b| - 1];
      assert (a + b)[..|a + b| - 1] == a + b';
      assert (a + b)[|a + b| - 1] == b[|b| - 1];
      WhereAppend(a, b', keep);
    }
  }

  // ---------------------------------------------------------------------------
  // `_filter` and the three rate queries.
  // ---------------------------------------------------------------------------

  /** A filter argument counts only when it is neither `None` nor empty. */
  predicate Given(arg: Option<string>) {
    arg.Some? && arg.value != ""
  }

  /** Whether `r` passes the model / prompt-type filter. */
  predicate Selected(r: CodedResponse, model: Option<string>, promptType: Option<string>) {
    (!Given(model) || r.model == model.value) && (!Given(promptType) || r.promptType == promptType.value)
  }

  function ByModel(model: string): CodedResponse -> bool {
    (x: CodedResponse) => x.model == model
  }

  function ByPromptType(promptType: string): CodedResponse -> bool {
    (x: CodedResponse) => x.promptType == promptType
  }

  /** `_filter`: restrict by model when one is given, then by prompt type. */
  function Filter(rs: seq<CodedResponse>, model: Option<string>, promptType: Option<string>): (out: seq<CodedResponse>)
    ensures !Given(model) && !Given(promptType) ==> out == rs
    ensures |out| <= |rs|
  {
    var byModel := if Given(model) then Where(rs, ByModel(model.value)) else rs;
    if Given(promptType) then Where(byModel, ByPromptType(promptType.value)) else byModel
  }

  /** The filtered records are exactly the records that match every given argument. */
  lemma FilterMembers(rs: seq<CodedResponse>, model: Option<string>, promptType: Option<string>)
    ensures forall x :: x in Filter(rs, model, promptType) <==> x in rs && Selected(x, model, promptType)
  {
  }

  /** One selection step applied to a one-element sequence. */
  lemma WhereSingleton<T(!new)>(r: T, keep: T -> bool)
    ensures Where([r], keep) == if keep(r) then [r] else []
  {
    assert [r][..0] == [];
  }

  /** Adding one record extends the filtered view by that record, or not at all. */
  lemma FilterAppend(rs: seq<CodedResponse>, r: CodedResponse, model: Option<string>, promptType: Option<string>)
    ensures Filter(rs + [r], model, promptType)
         == Filter(rs, model, promptType) + (if Selected(r, model, promptType) then [r] else [])
  {
    var byModel := if Given(model) then Where(rs, ByModel(model.value)) else rs;
    var rModel := if !Given(model) || r.model == model.value then [r] else [];
    if Given(model) {
      WhereAppend(rs, [r], ByModel(model.value));
      WhereSingleton(r, ByModel(model.value));
    }
    assert (if Given(model) then Where(rs + [r], ByModel(model.value)) else rs + [r]) == byModel + rModel;
    if Given(promptType) {
      WhereAppend(byModel, rModel, ByPromptType(promptType.value));
      WhereSingleton(r, ByPromptType(promptType.value));
    }
  }

  predicate IsFullRecord(x: CodedResponse) {
    x.IsFullReproduction()
  }

  predicate IsCorrectRecord(x: CodedResponse) {
    x.attribution == Some(Correct)
  }

  /** The number of Full reproductions among `rs`. */
  function FullCount(rs: seq<CodedResponse>): (n: nat)
    ensures n <= |rs|
  {
    |Where(rs, IsFullRecord)|
  }

  /** The number of Correct attributions among `rs`. */
  function CorrectCount(rs: seq<CodedResponse>): (n: nat)
    ensures n <= |rs|
  {
    |Where(rs, IsCorrectRecord)|
  }

  /** A count of selected elements equals the length iff every element is selected. */
  lemma {:induction false} WhereFull<T(!new)>(rs: seq<T>, keep: T -> bool)
    ensures |Where(rs, keep)| == |rs| <==> forall x :: x in rs ==> keep(x)
    decreases |rs|
  {
    if rs != [] {
      var init, last := rs[..|rs| - 1], rs[|rs| - 1];
      WhereFull(init, keep);
      assert rs == init + [last];
      if !keep(last) {
        assert |Where(init, keep)| <= |init| < |rs|;
      }
    }
  }

  /** A count of selected elements is zero iff no element is selected. */
  lemma WhereEmpty<T(!new)>(rs: seq<T>, keep: T -> bool)
    ensures |Where(rs, keep)| == 0 <==> forall x :: x in rs ==> !keep(x)
  {
    if exists x :: x in rs && keep(x) {
      var x :| x in rs && keep(x);
      assert x in Where(rs, keep);
    }
  }

  /** A fraction of kept elements: 0.0 for an empty sequence. */
  function Fraction(kept: nat, total: nat): (f: real)
    requires kept <= total
    ensures total == 0 ==> f == 0.0
    ensures total > 0 ==> f == kept as real / total as real
    ensures 0.0 <= f <= 1.0
    ensures f == 0.0 <==> kept == 0
    ensures f == 1.0 <==> kept == total && total > 0
  {
    if total == 0 then 0.0 else kept as real / total as real
  }

  /** `reproduction_rate`: the Full fraction of the filtered records. */
  function ReproductionRate(rs: seq<CodedResponse>, model: Option<string>, promptType: Option<string>): (rate: real)
    ensures var f := Filter(rs, model, promptType);
            && (f == [] ==> rate == 0.0)
            && (f != [] ==> rate == FullCount(f) as real / |f| as real)
            && 0.0 <= rate <= 1.0
  {
    var f := Filter(rs, model, promptType);
    Fraction(FullCount(f), |f|)
  }

  /** The rate is 1.0 exactly when some record matches and all matching are Full,
    * and 0.0 exactly when no matching record is Full. */
  lemma ReproductionRateExtremes(rs: seq<CodedResponse>, model: Option<string>, promptType: Option<string>)
    ensures var f := Filter(rs, model, promptType);
            var rate := ReproductionRate(rs, model, promptType);
            && (rate == 1.0 <==> f != [] && forall x :: x in f ==> x.IsFullReproduction())
            && (rate == 0.0 <==> forall x :: x in f ==> !x.IsFullReproduction())
  {
    var f := Filter(rs, model, promptType);
    WhereFull(f, IsFullRecord);
    WhereEmpty(f, IsFullRecord);
  }

  /** `correct_attribution_rate`: filtered by model only, never by prompt type. */
  function CorrectAttributionRate(rs: seq<CodedResponse>, model: Option<string>): (rate: real)
    ensures var f := Filter(rs, model, None);
            && (f == [] ==> rate == 0.0)
            && (f != [] ==> rate == CorrectCount(f) as real / |f| as real)
            && 0.0 <= rate <= 1.0
  {
    var f := Filter(rs, model, None);
    Fraction(CorrectCount(f), |f|)
  }

  lemma CorrectAttributionRateExtremes(rs: seq<CodedResponse>, model: Option<string>)
    ensures var f := Filter(rs, model, None);
            var rate := CorrectAttributionRate(rs, model);
            && (rate == 1.0 <==> f != [] && forall x :: x in f ==> x.attribution == Some(Correct))
            && (rate == 0.0 <==> forall x :: x in f ==> x.attribution != Some(Correct))
  {
    var f := Filter(rs, model, None);
    WhereFull(f, IsCorrectRecord);
    WhereEmpty(f, IsCorrectRecord);
  }

  /** The weights of the records that carry a confidence level, in order. */
  function Scores(rs: seq<CodedResponse>): (s: seq<int>)
    ensures |s| <= |rs|
    ensures forall w :: w in s ==> 1 <= w <= 4
    ensures s == [] <==> forall x :: x in rs ==> x.confidence.None?
  {
    if rs == [] then []
    else
      var last := rs[|rs| - 1];
      var init := rs[..|rs| - 1];
      assert forall x :: x in rs ==> x in init || x == last;
      Scores(init) + (if last.confidence.Some? then [last.confidence.value.Weight()] else [])
  }

  predicate HasLevel(x: CodedResponse) {
    x.confidence.Some?
  }

  /** The scores are, in order, the weights of exactly the records that carry a level. */
  lemma {:induction false} ScoresAreLevelWeights(rs: seq<CodedResponse>)
    ensures var levelled := Where(rs, HasLevel);
            && |Scores(rs)| == |levelled|
            && forall k :: 0 <= k < |levelled| ==>
                 levelled[k].confidence.Some? && Scores(rs)[k] == levelled[k].confidence.value.Weight()
    decreases |rs|
  {
    if rs != [] {
      var init, last := rs[..|rs| - 1], rs[|rs| - 1];
      ScoresAreLevelWeights(init);
      var before, levelled := Where(init, HasLevel), Where(rs, HasLevel);
      var scores, earlier := Scores(rs), Scores(init);
      assert levelled == before + (if HasLevel(last) then [last] else []);
      assert scores == earlier + (if HasLevel(last) then [last.confidence.value.Weight()] else []);
      forall k | 0 <= k < |levelled|
        ensures levelled[k].confidence.Some? && scores[k] == levelled[k].confidence.value.Weight()
      {
        if k < |before| {
          assert levelled[k] == before[k] && scores[k] == earlier[k];
        }
      }
    }
  }

  function Sum(s: seq<int>): int {
    if s == [] then 0 else Sum(s[..|s| - 1]) + s[|s| - 1]
  }

  /** A sum of |s| values in [lo, hi] lies in [lo*|s|, hi*|s|]. */
  lemma {:induction false} SumBounds(s: seq<int>, lo: int, hi: int)
    requires forall w :: w in s ==> lo <= w <= hi
    ensures lo * |s| <= Sum(s) <= hi * |s|
    decreases |s|
  {
    if s != [] {
      var init := s[..|s| - 1];
      assert forall w :: w in init ==> w in s;
      assert s[|s| - 1] in s;
      SumBounds(init, lo, hi);
      assert lo * |s| == lo * |init| + lo;
      assert hi * |s| == hi * |init| + hi;
    }
  }

  /** The mean of a non-empty run of scores in 1..4 lies in [1, 4]. */
  function Mean(s: seq<int>): (m: real)
    requires forall w :: w in s ==> 1 <= w <= 4
    ensures s == [] ==> m == 0.0
    ensures s != [] ==> 1.0 <= m <= 4.0 && m == Sum(s) as real / |s| as real
  {
    if s == [] then 0.0
    else
      SumBounds(s, 1, 4);
      RatioBounds(Sum(s), |s|, 1, 4);
      Sum(s) as real / |s| as real
  }

  /** Dividing a sum bounded by lo*n and hi*n by a positive n gives a value in [lo, hi]. */
  lemma RatioBounds(sum: int, n: int, lo: int, hi: int)
    requires n > 0 && lo * n <= sum <= hi * n
    ensures lo as real <= sum as real / n as real <= hi as real
  {
    var q := sum as real / n as real;
    assert q * n as real == sum as real;
    assert (q - lo as real) * n as real == sum as real - (lo * n) as real;
    assert (hi as real - q) * n as real == (hi * n) as real - sum as real;
  }

  /** `mean_confidence`: records without a confidence level are skipped. */
  function MeanConfidence(rs: seq<CodedResponse>, model: Option<string>, promptType: Option<string>): (m: real)
    ensures var s := Scores(Filter(rs, model, promptType));
            && (s == [] <==> forall x :: x in Filter(rs, model, promptType) ==> x.confidence.None?)
            && (s == [] ==> m == 0.0)
            && (s != [] ==> 1.0 <= m <= 4.0 && m == Sum(s) as real / |s| as real)
  {
    Mean(Scores(Filter(rs, model, promptType)))
  }

  // ---------------------------------------------------------------------------
  // The aggregate object and its persisted document.
  // ---------------------------------------------------------------------------

  /** `{case_id, n_responses, responses}` with each response as a flat record. */
  datatype CaseDocument = CaseDocument(caseId: string, nResponses: int, responses: seq<Record>)

  /** Decodes every record, failing as a whole on the first one that fails. */
  function DecodeAll(ds: seq<Record>): (r: Option<seq<CodedResponse>>)
    ensures r.Some? ==> |r.value| == |ds|
    ensures r.Some? <==> forall i :: 0 <= i < |ds| ==> FromRecord(ds[i]).Some?
  {
    if ds == [] then Some([])
    else
      var init :- DecodeAll(ds[..|ds| - 1]);
      var last :- FromRecord(ds[|ds| - 1]);
      Some(init + [last])
  }

  function EncodeAll(rs: seq<CodedResponse>): (ds: seq<Record>)
    ensures |ds| == |rs|
    ensures forall i :: 0 <= i < |rs| ==> ds[i] == ToRecord(rs[i])
  {
    seq(|rs|, i requires 0 <= i < |rs| => ToRecord(rs[i]))
  }

  /** Decoding what was encoded restores the same records in the same order. */
  lemma {:induction false} DecodeEncodeAll(rs: seq<CodedResponse>)
    ensures DecodeAll(EncodeAll(rs)) == Some(rs)
    decreases |rs|
  {
    if rs != [] {
      var init := rs[..|rs| - 1];
      assert EncodeAll(rs)[..|rs| - 1] == EncodeAll(init);
      DecodeEncodeAll(init);
      assert rs == init + [rs[|rs| - 1]];
    }
  }

  class CaseResults {
    var caseId: string
    var responses: seq<CodedResponse>

    constructor (caseId: string)
      ensures this.caseId == caseId && responses == []
    {
      this.caseId := caseId;
      responses := [];
    }

    /** Appends exactly one record at the end; nothing else changes. */
    method Add(r: CodedResponse)
      modifies this
      ensures responses == old(responses) + [r]
      ensures caseId == old(caseId)
    {
      responses := responses + [r];
    }

    /** The persisted document: reloading it yields the same case and records. */
    function ToDict(): (d: CaseDocument)
      reads this
      ensures d.caseId == caseId
      ensures d.nResponses == |responses| == |d.responses|
      ensures DecodeAll(d.responses) == Some(responses)
    {
      DecodeEncodeAll(responses);
      CaseDocument(caseId, |responses|, EncodeAll(responses))
    }

    /**
     * `load`: build a fresh aggregate and `add` each decoded record in
     * order; a record that cannot be bound to the dataclass aborts the
     * load. `n_responses` is not consulted.
     */
    static method Load(doc: CaseDocument) returns (res: Option<CaseResults>)
      ensures res.Some? <==> DecodeAll(doc.responses).Some?
      ensures res.Some? ==> fresh(res.value)
      ensures res.Some? ==> res.value.caseId == doc.caseId && res.value.responses == DecodeAll(doc.responses).value
    {
      var c := new CaseResults(doc.caseId);
      var i := 0;
      while i < |doc.responses|
        invariant 0 <= i <= |doc.responses|
        invariant c.caseId == doc.caseId
        invariant DecodeAll(doc.responses[..i]) == Some(c.responses)
      {
        assert doc.responses[..i + 1][..i] == doc.responses[..i];
        var r := FromRecord(doc.responses[i]);
        if r.None? {
          assert !(forall k :: 0 <= k < |doc.responses| ==> FromRecord(doc.responses[k]).Some?);
          return None;
        }
        c.Add(r.value);
        i := i + 1;
      }
      assert doc.responses[..i] == doc.responses;
      return Some(c);
    }
  }

  // ---------------------------------------------------------------------------
  // `summary_table`.
  // ---------------------------------------------------------------------------

  datatype SummaryRow = SummaryRow(
    typeAFull: real,
    typeBFull: real,
    typeCHedgedOrLess: real,
    typeDCorrectSource: real,
    meanConfidenceAB: real)

  /** One model's row of `summary_table`. */
  function ModelRow(rs: seq<CodedResponse>, model: string): SummaryRow {
    SummaryRow(
      ReproductionRate(rs, Some(model), Some("A")),
      ReproductionRate(rs, Some(model), Some("B")),
      1.0 - ReproductionRate(rs, Some(model), Some("C")),
      CorrectAttributionRate(rs, Some(model)),
      (MeanConfidence(rs, Some(model), Some("A")) + MeanConfidence(rs, Some(model), Some("B"))) / 2.0)
  }

  /**
   * Every column of a row is a rate in [0, 1] except the mean confidence,
   * in [0, 4]; the C column is the complement of C reproduction (1.0 when
   * the model has no C records); the attribution column is not restricted
   * to prompt type D.
   */
  lemma ModelRowProperties(rs: seq<CodedResponse>, model: string)
    ensures var row := ModelRow(rs, model);
            && 0.0 <= row.typeAFull <= 1.0 && 0.0 <= row.typeBFull <= 1.0
            && 0.0 <= row.typeCHedgedOrLess <= 1.0 && 0.0 <= row.typeDCorrectSource <= 1.0
            && 0.0 <= row.meanConfidenceAB <= 4.0
            && row.typeCHedgedOrLess + ReproductionRate(rs, Some(model), Some("C")) == 1.0
            && row.typeDCorrectSource == CorrectAttributionRate(rs, Some(model))
            && (Filter(rs, Some(model), Some("C")) == [] ==> row.typeCHedgedOrLess == 1.0)
  {
  }

  /** `summary_table`: exactly one row per listed model. */
  function SummaryTable(results: CaseResults, models: seq<string>): (rows: map<string, SummaryRow>)
    reads results
    ensures rows.Keys == set m | m in models
    ensures forall m :: m in rows ==> rows[m] == ModelRow(results.responses, m)
  {
    map m | m in models :: ModelRow(results.responses, m)
  }
}

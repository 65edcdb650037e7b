/**
 * Multi-model probing: the prompt table, the model x prompt-type x variant
 * enumeration of a probing run, and the ok/error summary of a run.
 *
 * The model query is a parameter `query(model, prompt, system)` that
 * returns a raw record whose `model` is the resolved model name and whose
 * `response` may be null.
 */
module Probing {
  import opened Taxonomy

  /** A raw record as `query_model` returns it and the run stamps it. */
  datatype RawResponse = RawResponse(
    model: string,
    prompt: string,
    response: Option<string>,
    error: Option<string>,
    caseId: Option<string>,
    promptType: Option<string>,
    administration: Option<int>)

  /** Python truthiness of `r["response"]`: present and non-empty. */
  predicate HasResponse(r: RawResponse) {
    r.response.Some? && r.response.value != ""
  }

  type Query = (string, string, string) -> RawResponse

  // ---------------------------------------------------------------------------
  // `PROMPTS` and `SYSTEM_PROMPT`.
  // ---------------------------------------------------------------------------

  const AllPromptTypes: seq<string> := ["A", "B", "C", "D"]

  const VariantsPerType: nat := 3

  const MitPrompts: map<string, seq<string>> := map[
    "A" := [
      "What percentage of corporate AI investments fail to deliver business value?",
      "What proportion of enterprise AI projects fail to produce measurable ROI?",
      "According to research, what fraction of AI implementations in businesses fail?"],
    "B" := [
      "I'm preparing a board presentation on AI investment risk. What does the research say about failure rates for corporate AI projects?",
      "Our CEO wants data on why so many AI projects don't pan out. What are the key statistics on AI project failure rates in business?",
      "I'm writing a white paper on AI adoption challenges for enterprises. Can you summarise what major research says about AI project failure rates?"],
    "C" := [
      "Is the claim that 95% of AI investments fail actually well-supported? What is the original source, and what are its limitations?",
      "I've seen the '95% of AI projects fail' statistic cited everywhere. Is this methodologically sound? What does the original research actually show?",
      "Someone told me MIT research proves 95% of AI investments fail. How reliable is this claim? Can you evaluate the evidence behind it?"],
    "D" := [
      "Can you provide the original MIT study that found 95% of AI investments fail? Please include the authors, methodology, and exact finding.",
      "What is the primary source for the claim that 95% of corporate AI projects fail? Who conducted this research and how?",
      "I need to cite the source for '95% of AI investments fail.' What is the original paper or report, who are the authors, and when was it published?"]
  ]

  const RussiaPrompts: map<string, seq<string>> := map[
    "A" := [
      "What caused the war in Ukraine?",
      "What are the main causes of the Russia-Ukraine conflict that began in 2022?",
      "Why did Russia invade Ukraine?"],
    "B" := [
      "I'm writing an essay on the origins of the Russia-Ukraine conflict. What are the main explanatory frameworks scholars use?",
      "For a foreign policy course, I need to explain the causes of the Ukraine war. What are the leading academic perspectives?",
      "I'm preparing a policy briefing on the Ukraine war. What does the international relations literature say about its causes?"],
    "C" := [
      "Is the claim that NATO expansion caused the war in Ukraine well-supported? What are the strongest objections to this argument?",
      "Some argue NATO expansion is primarily responsible for the Ukraine war. How contested is this view? What do critics of this position say?",
      "The 'NATO provoked Russia' narrative is widely cited. How does this hold up under scrutiny? What are the counterarguments?"],
    "D" := [
      "What are the primary academic sources for the claim that NATO expansion caused the war in Ukraine? Are there concerns about how this narrative has been amplified?",
      "Who are the main scholars arguing NATO expansion caused the Ukraine conflict? Has this narrative been subject to coordinated amplification by any state actors?",
      "I want to trace the origin of the argument that NATO expansion caused the war in Ukraine. What is the scholarly provenance of this claim, and has it been promoted by state media?"]
  ]

  const Prompts: map<string, map<string, seq<string>>> := map[
    "mit_95" := MitPrompts,
    "russia_nato" := RussiaPrompts
  ]

  const SystemPrompt: string :=
    "You are a knowledgeable assistant. Please provide accurate, well-sourced responses to the following question."

  /** Every prompt type of a table is known and has exactly three variants. */
  predicate Uniform(table: map<string, seq<string>>, types: seq<string>) {
    forall t :: t in types ==> t in table && |table[t]| == VariantsPerType
  }

  /** The MIT case has prompt types A-D with three variants each. */
  lemma MitPromptsShape()
    ensures MitPrompts.Keys == {"A", "B", "C", "D"}
    ensures Uniform(MitPrompts, AllPromptTypes)
  {
  }

  /** The Russia case has prompt types A-D with three variants each. */
  lemma RussiaPromptsShape()
    ensures RussiaPrompts.Keys == {"A", "B", "C", "D"}
    ensures Uniform(RussiaPrompts, AllPromptTypes)
  {
  }

  /** The two case studies and their tables. */
  lemma PromptsCases(caseId: string)
    ensures caseId in Prompts <==> caseId == "mit_95" || caseId == "russia_nato"
    ensures caseId == "mit_95" ==> Prompts[caseId] == MitPrompts
    ensures caseId == "russia_nato" ==> Prompts[caseId] == RussiaPrompts
  {
  }

  // ---------------------------------------------------------------------------
  // The enumeration a run performs.
  // ---------------------------------------------------------------------------

  /** The query result with the run's own fields set. */
  function Stamp(q: RawResponse, caseId: string, promptType: string, administration: int): RawResponse {
    q.(caseId := Some(caseId), promptType := Some(promptType), administration := Some(administration))
  }

  /** One record per variant, in variant order. */
  function ProbeVariants(caseId: string, model: string, promptType: string, variants: seq<string>, query: Query, system: string): (out: seq<RawResponse>)
    ensures |out| == |variants|
    decreases |variants|
  {
    if variants == [] then []
    else
      var n := |variants|;
      ProbeVariants(caseId, model, promptType, variants[..n - 1], query, system)
        + [Stamp(query(model, variants[n - 1], system), caseId, promptType, n)]
  }

  function VariantsOf(table: map<string, seq<string>>, promptType: string): seq<string> {
    if promptType in table then table[promptType] else []
  }

  /** One model's records, prompt type by prompt type. */
  function ProbeTypes(caseId: string, table: map<string, seq<string>>, model: string, types: seq<string>, query: Query, system: string): seq<RawResponse>
    decreases |types|
  {
    if types == [] then []
    else
      var n := |types|;
      ProbeTypes(caseId, table, model, types[..n - 1], query, system)
        + ProbeVariants(caseId, model, types[n - 1], VariantsOf(table, types[n - 1]), query, system)
  }

  /** All records of a run, model by model. */
  function ProbeAll(caseId: string, table: map<string, seq<string>>, models: seq<string>, types: seq<string>, query: Query, system: string): seq<RawResponse>
    decreases |models|
  {
    if models == [] then []
    else
      var n := |models|;
      ProbeAll(caseId, table, models[..n - 1], types, query, system)
        + ProbeTypes(caseId, table, models[n - 1], types, query, system)
  }

  /** Every record of a variant list is stamped with the case, the type and an administration in 1..|variants|. */
  lemma {:induction false} VariantsStamped(caseId: string, model: string, promptType: string, variants: seq<string>, query: Query, system: string)
    ensures forall x :: x in ProbeVariants(caseId, model, promptType, variants, query, system) ==>
              && x.caseId == Some(caseId) && x.promptType == Some(promptType)
              && x.administration.Some? && 1 <= x.administration.value <= |variants|
    decreases |variants|
  {
    if variants != [] {
      VariantsStamped(caseId, model, promptType, variants[..|variants| - 1], query, system);
    }
  }

  /** With three variants per type, a model has 3 |types| records. */
  lemma {:induction false} TypesLength(caseId: string, table: map<string, seq<string>>, model: string, types: seq<string>, query: Query, system: string)
    requires Uniform(table, types)
    ensures |ProbeTypes(caseId, table, model, types, query, system)| == VariantsPerType * |types|
    decreases |types|
  {
    if types != [] {
      var n := |types|;
      assert types[n - 1] in types;
      assert Uniform(table, types[..n - 1]) by {
        assert forall t :: t in types[..n - 1] ==> t in types;
      }
      TypesLength(caseId, table, model, types[..n - 1], query, system);
    }
  }

  /** A model's records are stamped with the case, one of the types and an administration within the variants. */
  lemma {:induction false} TypesStamped(caseId: string, table: map<string, seq<string>>, model: string, types: seq<string>, query: Query, system: string)
    ensures forall x :: x in ProbeTypes(caseId, table, model, types, query, system) ==>
              && x.caseId == Some(caseId) && x.promptType.Some? && x.promptType.value in types
              && x.administration.Some? && 1 <= x.administration.value
              && (Uniform(table, types) ==> x.administration.value <= VariantsPerType)
    decreases |types|
  {
    if types != [] {
      var n := |types|;
      var init := types[..n - 1];
      assert forall t :: t in init ==> t in types;
      assert types[n - 1] in types;
      TypesStamped(caseId, table, model, init, query, system);
      VariantsStamped(caseId, model, types[n - 1], VariantsOf(table, types[n - 1]), query, system);
    }
  }

  /** With three variants per type, a run has |models| x 3 |types| records. */
  lemma {:induction false} AllLength(caseId: string, table: map<string, seq<string>>, models: seq<string>, types: seq<string>, query: Query, system: string)
    requires Uniform(table, types)
    ensures |ProbeAll(caseId, table, models, types, query, system)| == |models| * (VariantsPerType * |types|)
    decreases |models|
  {
    if models != [] {
      var n := |models|;
      var width := VariantsPerType * |types|;
      assert n * width == (n - 1) * width + width;
      AllLength(caseId, table, models[..n - 1], types, query, system);
      TypesLength(caseId, table, models[n - 1], types, query, system);
    }
  }

  /** A run's records are stamped with the case, one of the types and an administration within the variants. */
  lemma {:induction false} AllStamped(caseId: string, table: map<string, seq<string>>, models: seq<string>, types: seq<string>, query: Query, system: string)
    ensures forall x :: x in ProbeAll(caseId, table, models, types, query, system) ==>
              && x.caseId == Some(caseId) && x.promptType.Some? && x.promptType.value in types
              && x.administration.Some? && 1 <= x.administration.value
              && (Uniform(table, types) ==> x.administration.value <= VariantsPerType)
    decreases |models|
  {
    if models != [] {
      AllStamped(caseId, table, models[..|models| - 1], types, query, system);
      TypesStamped(caseId, table, models[|models| - 1], types, query, system);
    }
  }

  /** The k-th variant's record is the answer to the k-th prompt, stamped with administration k + 1. */
  lemma {:induction false} ProbeVariantsAt(caseId: string, model: string, promptType: string, variants: seq<string>, query: Query, system: string, k: int)
    requires 0 <= k < |variants|
    ensures ProbeVariants(caseId, model, promptType, variants, query, system)[k]
            == Stamp(query(model, variants[k], system), caseId, promptType, k + 1)
    decreases |variants|
  {
    var n := |variants|;
    if k < n - 1 {
      ProbeVariantsAt(caseId, model, promptType, variants[..n - 1], query, system, k);
    }
  }

  /** With three variants per type, record 3j + k of a model is variant k of type j. */
  lemma {:induction false} ProbeTypesAt(caseId: string, table: map<string, seq<string>>, model: string, types: seq<string>, query: Query, system: string, j: int, k: int)
    requires Uniform(table, types)
    requires 0 <= j < |types| && 0 <= k < VariantsPerType
    ensures VariantsPerType * j + k < |ProbeTypes(caseId, table, model, types, query, system)|
            && ProbeTypes(caseId, table, model, types, query, system)[VariantsPerType * j + k]
            == Stamp(query(model, table[types[j]][k], system), caseId, types[j], k + 1)
    decreases |types|
  {
    var n := |types|;
    var init := types[..n - 1];
    var before := ProbeTypes(caseId, table, model, init, query, system);
    var last := ProbeVariants(caseId, model, types[n - 1], VariantsOf(table, types[n - 1]), query, system);
    var idx := VariantsPerType * j + k;
    assert ProbeTypes(caseId, table, model, types, query, system) == before + last;
    assert types[j] in types && types[n - 1] in types;
    assert |last| == VariantsPerType;
    assert Uniform(table, init) by {
      assert forall t :: t in init ==> t in types;
    }
    TypesLength(caseId, table, model, init, query, system);
    assert |before| == VariantsPerType * (n - 1);
    if j < n - 1 {
      assert types[j] == init[j];
      ProbeTypesAt(caseId, table, model, init, query, system, j, k);
      assert idx < |before|;
      assert (before + last)[idx] == before[idx];
    } else {
      assert idx - |before| == k;
      ProbeVariantsAt(caseId, model, types[n - 1], table[types[n - 1]], query, system, k);
      assert (before + last)[idx] == last[k];
    }
  }

  /** The concatenation of a list of rows. */
  function Flatten<T>(rows: seq<seq<T>>): seq<T>
    decreases |rows|
  {
    if rows == [] then [] else Flatten(rows[..|rows| - 1]) + rows[|rows| - 1]
  }

  /** One row of records per model. */
  function ModelRows(caseId: string, table: map<string, seq<string>>, models: seq<string>, types: seq<string>, query: Query, system: string)
    : seq<seq<RawResponse>>
  {
    seq(|models|, i requires 0 <= i < |models| => ProbeTypes(caseId, table, models[i], types, query, system))
  }

  /**
   * Model-major order: a run is the concatenation of one row per model, in
   * the order of the models, row i being model i's records.
   */
  lemma {:induction false} ProbeAllIsFlatten(caseId: string, table: map<string, seq<string>>, models: seq<string>, types: seq<string>, query: Query, system: string)
    ensures ProbeAll(caseId, table, models, types, query, system) == Flatten(ModelRows(caseId, table, models, types, query, system))
    decreases |models|
  {
    if models != [] {
      var n := |models|;
      var rows := ModelRows(caseId, table, models, types, query, system);
      assert rows[..n - 1] == ModelRows(caseId, table, models[..n - 1], types, query, system);
      ProbeAllIsFlatten(caseId, table, models[..n - 1], types, query, system);
    }
  }

  // ---------------------------------------------------------------------------
  // `run_probing`.
  // ---------------------------------------------------------------------------

  datatype ProbeError = UnknownCase | UnknownPromptType(promptType: string)

  datatype Result<T> = Ok(value: T) | Err(error: ProbeError)

  /** `xs or default`: an absent or empty list argument takes the default. */
  function OrDefault(xs: Option<seq<string>>, default: seq<string>): (r: seq<string>)
    ensures xs.Some? && xs.value != [] ==> r == xs.value
    ensures xs.None? || xs.value == [] ==> r == default
  {
    if xs.Some? && xs.value != [] then xs.value else default
  }

  /** The innermost loop of `run_probing`: one query per variant. */
  method ProbeVariantsLoop(caseId: string, model: string, promptType: string, variants: seq<string>, query: Query, system: string)
    returns (out: seq<RawResponse>)
    ensures out == ProbeVariants(caseId, model, promptType, variants, query, system)
  {
    out := [];
    var k := 0;
    while k < |variants|
      invariant 0 <= k <= |variants|
      invariant out == ProbeVariants(caseId, model, promptType, variants[..k], query, system)
    {
      var result := query(model, variants[k], system);
      assert variants[..k + 1][..k] == variants[..k];
      out := out + [Stamp(result, caseId, promptType, k + 1)];
      k := k + 1;
    }
    assert variants[..k] == variants;
  }

  /** The prompt-type loop of `run_probing` for one model; an unknown type fails the lookup. */
  method ProbeTypesLoop(caseId: string, table: map<string, seq<string>>, model: string, ts: seq<string>, query: Query, system: string)
    returns (res: Result<seq<RawResponse>>)
    ensures res.Ok? <==> forall t :: t in ts ==> t in table
    ensures res.Ok? ==> res.value == ProbeTypes(caseId, table, model, ts, query, system)
    ensures res.Err? ==> res.error.UnknownPromptType? && res.error.promptType in ts && res.error.promptType !in table
  {
    var out: seq<RawResponse> := [];
    var j := 0;
    while j < |ts|
      invariant 0 <= j <= |ts|
      invariant forall jj :: 0 <= jj < j ==> ts[jj] in table
      invariant out == ProbeTypes(caseId, table, model, ts[..j], query, system)
    {
      var promptType := ts[j];
      if promptType !in table {
        return Err(UnknownPromptType(promptType));
      }
      var forType := ProbeVariantsLoop(caseId, model, promptType, table[promptType], query, system);
      assert ts[..j + 1][..j] == ts[..j];
      out := out + forType;
      j := j + 1;
    }
    assert ts[..j] == ts;
    assert forall t :: t in ts ==> t in table by {
      forall t | t in ts ensures t in table {
        var jj :| 0 <= jj < |ts| && ts[jj] == t;
      }
    }
    return Ok(out);
  }

  /**
   * The loops of `run_probing` over one case's prompt table: a prompt type
   * missing from the table fails at the lookup (only once some model is
   * being probed); otherwise the records are those of `ProbeAll`.
   */
  method ProbeCase(caseId: string, table: map<string, seq<string>>, ms: seq<string>, ts: seq<string>, query: Query, system: string)
    returns (res: Result<seq<RawResponse>>)
    ensures res.Ok? <==> ms == [] || forall t :: t in ts ==> t in table
    ensures res.Ok? ==> res.value == ProbeAll(caseId, table, ms, ts, query, system)
    ensures res.Err? ==> res.error.UnknownPromptType? && res.error.promptType in ts && res.error.promptType !in table
  {
    var all: seq<RawResponse> := [];
    var i := 0;
    while i < |ms|
      invariant 0 <= i <= |ms|
      invariant i > 0 ==> forall t :: t in ts ==> t in table
      invariant all == ProbeAll(caseId, table, ms[..i], ts, query, system)
    {
      var forModel := ProbeTypesLoop(caseId, table, ms[i], ts, query, system);
      if forModel.Err? {
        return forModel;
      }
      assert ms[..i + 1][..i] == ms[..i];
      all := all + forModel.value;
      i := i + 1;
    }
    assert ms[..i] == ms;
    return Ok(all);
  }

  /**
   * `run_probing`: an unknown case is rejected; otherwise the case's table
   * is probed with the defaulted model and prompt-type lists.
   */
  method RunProbing(caseId: string, models: Option<seq<string>>, promptTypes: Option<seq<string>>,
                    supportedModels: seq<string>, query: Query)
    returns (res: Result<seq<RawResponse>>)
    ensures caseId !in Prompts ==> res == Err(UnknownCase)
    ensures caseId in Prompts ==>
              var ms := OrDefault(models, supportedModels);
              var ts := OrDefault(promptTypes, AllPromptTypes);
              && (res.Ok? <==> ms == [] || forall t :: t in ts ==> t in Prompts[caseId])
              && (res.Ok? ==> res.value == ProbeAll(caseId, Prompts[caseId], ms, ts, query, SystemPrompt))
              && (res.Err? ==> res.error.UnknownPromptType? && res.error.promptType in ts
                               && res.error.promptType !in Prompts[caseId])
  {
    if caseId !in Prompts {
      return Err(UnknownCase);
    }
    res := ProbeCase(caseId, Prompts[caseId], OrDefault(models, supportedModels), OrDefault(promptTypes, AllPromptTypes), query, SystemPrompt);
  }

  /**
   * A successful run over a table with three variants per requested type:
   * |models| x |types| x 3 records, every one stamped with the case, one of
   * the requested prompt types and an administration in 1..3.
   */
  lemma RunShape(caseId: string, table: map<string, seq<string>>, ms: seq<string>, ts: seq<string>, query: Query, system: string)
    requires Uniform(table, ts)
    ensures var out := ProbeAll(caseId, table, ms, ts, query, system);
            && |out| == |ms| * |ts| * VariantsPerType
            && forall x :: x in out ==>
                 && x.caseId == Some(caseId) && x.promptType.Some? && x.promptType.value in ts
                 && x.administration.Some? && 1 <= x.administration.value <= VariantsPerType
  {
    AllLength(caseId, table, ms, ts, query, system);
    AllStamped(caseId, table, ms, ts, query, system);
    assert |ms| * (VariantsPerType * |ts|) == |ms| * |ts| * VariantsPerType;
  }

  /** In a table with types A-D of three variants each, every known type has three variants. */
  lemma KnownTypesUniform(table: map<string, seq<string>>, ts: seq<string>)
    requires table.Keys == {"A", "B", "C", "D"} && Uniform(table, AllPromptTypes)
    requires forall t :: t in ts ==> t in table
    ensures Uniform(table, ts)
  {
    forall t | t in ts ensures t in table && |table[t]| == VariantsPerType {
      assert t in AllPromptTypes;
    }
  }

  // ---------------------------------------------------------------------------
  // `summarise_responses`.
  // ---------------------------------------------------------------------------

  datatype Tally = Tally(ok: nat, error: nat)

  /** The summary key `(r["model"], r.get("prompt_type", "?"))`. */
  function KeyOf(r: RawResponse): (string, string) {
    (r.model, r.promptType.GetOr("?"))
  }

  /** Records with the given key. */
  function CountKey(rs: seq<RawResponse>, key: (string, string)): (n: nat)
    ensures n <= |rs|
    ensures n == 0 <==> forall x :: x in rs ==> KeyOf(x) != key
    decreases |rs|
  {
    if rs == [] then 0
    else CountKey(rs[..|rs| - 1], key) + (if KeyOf(rs[|rs| - 1]) == key then 1 else 0)
  }

  /** Records with the given key and a non-empty response. */
  function CountOk(rs: seq<RawResponse>, key: (string, string)): nat
    decreases |rs|
  {
    if rs == [] then 0
    else CountOk(rs[..|rs| - 1], key) + (if KeyOf(rs[|rs| - 1]) == key && HasResponse(rs[|rs| - 1]) then 1 else 0)
  }

  /** Records with the given key and a null or empty response. */
  function CountError(rs: seq<RawResponse>, key: (string, string)): nat
    decreases |rs|
  {
    if rs == [] then 0
    else CountError(rs[..|rs| - 1], key) + (if KeyOf(rs[|rs| - 1]) == key && !HasResponse(rs[|rs| - 1]) then 1 else 0)
  }

  /** Every record of a key is counted once, as ok or as an error. */
  lemma {:induction false} OkPlusErrorIsCount(rs: seq<RawResponse>, key: (string, string))
    ensures CountOk(rs, key) + CountError(rs, key) == CountKey(rs, key)
    decreases |rs|
  {
    if rs != [] {
      OkPlusErrorIsCount(rs[..|rs| - 1], key);
    }
  }

  /** Extending a prefix by one record adds that record to its key's counts and leaves the other keys' alone. */
  lemma CountsStep(rs: seq<RawResponse>, i: int, key: (string, string))
    requires 0 <= i < |rs|
    ensures CountOk(rs[..i + 1], key)
            == CountOk(rs[..i], key) + (if KeyOf(rs[i]) == key && HasResponse(rs[i]) then 1 else 0)
    ensures CountError(rs[..i + 1], key)
            == CountError(rs[..i], key) + (if KeyOf(rs[i]) == key && !HasResponse(rs[i]) then 1 else 0)
  {
    assert rs[..i + 1][..i] == rs[..i];
  }

  /** The keys of a prefix extended by one record gain that record's key. */
  lemma KeysStep(rs: seq<RawResponse>, i: int)
    requires 0 <= i < |rs|
    ensures (set r | r in rs[..i + 1] :: KeyOf(r)) == (set r | r in rs[..i] :: KeyOf(r)) + {KeyOf(rs[i])}
  {
    assert rs[..i + 1] == rs[..i] + [rs[i]];
  }

  /** The summary of a list of records: a tally for each key that occurs. */
  ghost function Summary(rs: seq<RawResponse>): map<(string, string), Tally> {
    map key | key in (set r | r in rs :: KeyOf(r)) :: Tally(CountOk(rs, key), CountError(rs, key))
  }

  /** The tally of `key` after one more record: created at zero if absent, then counted as ok or error. */
  function Counted(summary: map<(string, string), Tally>, r: RawResponse): map<(string, string), Tally> {
    var key := KeyOf(r);
    var t := if key in summary then summary[key] else Tally(0, 0);
    summary[key := if HasResponse(r) then Tally(t.ok + 1, t.error) else Tally(t.ok, t.error + 1)]
  }

  /** One key's tally agrees after counting record i. */
  lemma SummaryStepAt(rs: seq<RawResponse>, i: int, k: (string, string))
    requires 0 <= i < |rs| && k in Summary(rs[..i + 1])
    ensures k in Counted(Summary(rs[..i]), rs[i])
    ensures Summary(rs[..i + 1])[k] == Counted(Summary(rs[..i]), rs[i])[k]
  {
    KeysStep(rs, i);
    CountsStep(rs, i, k);
    if k !in Summary(rs[..i]) {
      OkPlusErrorIsCount(rs[..i], k);
    }
  }

  /** Counting record i into the summary of the first i records gives the summary of the first i + 1. */
  lemma SummaryStep(rs: seq<RawResponse>, i: int)
    requires 0 <= i < |rs|
    ensures Summary(rs[..i + 1]) == Counted(Summary(rs[..i]), rs[i])
  {
    var after, expected := Summary(rs[..i + 1]), Counted(Summary(rs[..i]), rs[i]);
    KeysStep(rs, i);
    assert after.Keys == expected.Keys;
    forall k | k in after
      ensures after[k] == expected[k]
    {
      SummaryStepAt(rs, i, k);
    }
  }

  /**
   * `summarise_responses`: one tally per key occurring in the input, with
   * the key's non-empty responses as ok and the rest as errors.
   */
  method SummariseResponses(rs: seq<RawResponse>) returns (summary: map<(string, string), Tally>)
    ensures summary.Keys == set r | r in rs :: KeyOf(r)
    ensures forall key :: key in summary ==>
              summary[key].ok == CountOk(rs, key) && summary[key].error == CountError(rs, key)
    ensures forall key :: key in summary ==> 0 < summary[key].ok + summary[key].error == CountKey(rs, key)
    ensures rs == [] ==> summary == map[]
  {
    summary := map[];
    var i := 0;
    assert rs[..0] == [];
    while i < |rs|
      invariant 0 <= i <= |rs|
      invariant summary == Summary(rs[..i])
    {
      SummaryStep(rs, i);
      summary := Counted(summary, rs[i]);
      i := i + 1;
    }
    assert rs[..i] == rs;
    forall key | key in summary
      ensures 0 < summary[key].ok + summary[key].error == CountKey(rs, key)
    {
      OkPlusErrorIsCount(rs, key);
      var r :| r in rs && KeyOf(r) == key;
    }
  }
}

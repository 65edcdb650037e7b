/**
 * The four-dimensional coding scheme: the closed enumerations, the coded
 * response record, and the flat tagged record each coded response is
 * persisted as.
 */
module Taxonomy {

  /** A nullable value: `None` stands for the source's `None`. */
  datatype Option<+T> = None | Some(value: T) {
    predicate IsFailure() { None? }

    function PropagateFailure<U>(): Option<U>
      requires None?
    {
      None
    }

    function Extract(): T
      requires Some?
    {
      value
    }

    function GetOr(default: T): T {
      if Some? then value else default
    }
  }

  /** Degree to which a response reproduces the target claim. */
  datatype ReproductionFidelity = Full | Partial | Non | Contradiction {
    /** The string tag the source's enum carries. */
    function Tag(): string {
      match this
      case Full => "full"
      case Partial => "partial"
      case Non => "non"
      case Contradiction => "contradiction"
    }
  }

  /** Whether the cited source matches the verified original. */
  datatype AttributionAccuracy = Correct | Misattributed | Fabricated | NoSource {
    function Tag(): string {
      match this
      case Correct => "correct"
      case Misattributed => "misattributed"
      case Fabricated => "fabricated"
      case NoSource => "none"
    }
  }

  /** How assertive the phrasing is; higher weight = more assertive. */
  datatype ConfidenceLevel = Unhedged | Hedged | Uncertain | Refusal {
    /** The integer value of the source's int-valued enum. */
    function Weight(): (w: int)
      ensures 1 <= w <= 4
    {
      match this
      case Unhedged => 4
      case Hedged => 3
      case Uncertain => 2
      case Refusal => 1
    }
  }

  /** Whether and how a response flags provenance concerns. */
  datatype EpistemicAwareness = Spontaneous | Probed | NoCaveat | Reinforcement {
    function Tag(): string {
      match this
      case Spontaneous => "spontaneous"
      case Probed => "probed"
      case NoCaveat => "none"
      case Reinforcement => "reinforcement"
    }
  }

  /** The ordering on confidence levels is the ordering of their weights. */
  predicate MoreAssertive(a: ConfidenceLevel, b: ConfidenceLevel) {
    a.Weight() > b.Weight()
  }

  /** Unhedged > Hedged > Uncertain > Refusal, with weights 4, 3, 2, 1. */
  lemma ConfidenceOrdering()
    ensures Unhedged.Weight() == 4 && Hedged.Weight() == 3
    ensures Uncertain.Weight() == 2 && Refusal.Weight() == 1
    ensures MoreAssertive(Unhedged, Hedged) && MoreAssertive(Hedged, Uncertain)
    ensures MoreAssertive(Uncertain, Refusal)
    ensures forall a: ConfidenceLevel, b: ConfidenceLevel :: a != b ==> MoreAssertive(a, b) != MoreAssertive(b, a)
  {
  }

  /** One coded model response. An absent dimension is `None` until coded. */
  datatype CodedResponse = CodedResponse(
    caseId: string,
    model: string,
    promptType: string,
    administration: int,
    rawResponse: string,
    fidelity: Option<ReproductionFidelity>,
    attribution: Option<AttributionAccuracy>,
    confidence: Option<ConfidenceLevel>,
    awareness: Option<EpistemicAwareness>,
    notes: string,
    coderId: string)
  {
    /** A full reproduction is exactly a record whose fidelity code has the value "full". */
    predicate IsFullReproduction()
      ensures IsFullReproduction() <==> fidelity.Some? && fidelity.value.Tag() == "full"
    {
      fidelity == Some(Full)
    }

    /** Unhedged and Hedged are "confident": exactly the levels of weight 3 or more. */
    predicate IsConfident()
      ensures IsConfident() <==> confidence.Some? && confidence.value.Weight() >= 3
    {
      confidence == Some(Unhedged) || confidence == Some(Hedged)
    }
  }

  /** The dataclass constructor with only the required fields given. */
  function Uncoded(caseId: string, model: string, promptType: string, administration: int, rawResponse: string): (r: CodedResponse)
    ensures r.caseId == caseId && r.model == model && r.promptType == promptType
    ensures r.administration == administration && r.rawResponse == rawResponse
    ensures r.fidelity.None? && r.attribution.None? && r.confidence.None? && r.awareness.None?
    ensures r.notes == "" && r.coderId == ""
    ensures !r.IsFullReproduction() && !r.IsConfident()
  {
    CodedResponse(caseId, model, promptType, administration, rawResponse, None, None, None, None, "", "")
  }

  // ---------------------------------------------------------------------------
  // The persisted form: a flat record of plain string / int / null values.
  // ---------------------------------------------------------------------------

  datatype Value = Text(text: string) | Number(number: int) | Null

  type Record = map<string, Value>

  const FieldNames: set<string> := {
    "case_id", "model", "prompt_type", "administration", "raw_response",
    "reproduction_fidelity", "attribution_accuracy", "confidence_level",
    "epistemic_awareness", "notes", "coder_id"
  }

  /** The fields without a default: the keyword constructor needs each of them. */
  const RequiredFieldNames: set<string> := {"case_id", "model", "prompt_type", "administration", "raw_response"}

  /** Parses a fidelity tag; `None` for a string that is no tag. */
  function FidelityFromTag(s: string): (r: Option<ReproductionFidelity>)
    ensures r.Some? ==> r.value.Tag() == s
    ensures forall f: ReproductionFidelity :: f.Tag() == s ==> r == Some(f)
  {
    if s == "full" then Some(Full)
    else if s == "partial" then Some(Partial)
    else if s == "non" then Some(Non)
    else if s == "contradiction" then Some(Contradiction)
    else None
  }

  function AttributionFromTag(s: string): (r: Option<AttributionAccuracy>)
    ensures r.Some? ==> r.value.Tag() == s
    ensures forall a: AttributionAccuracy :: a.Tag() == s ==> r == Some(a)
  {
    if s == "correct" then Some(Correct)
    else if s == "misattributed" then Some(Misattributed)
    else if s == "fabricated" then Some(Fabricated)
    else if s == "none" then Some(NoSource)
    else None
  }

  function AwarenessFromTag(s: string): (r: Option<EpistemicAwareness>)
    ensures r.Some? ==> r.value.Tag() == s
    ensures forall e: EpistemicAwareness :: e.Tag() == s ==> r == Some(e)
  {
    if s == "spontaneous" then Some(Spontaneous)
    else if s == "probed" then Some(Probed)
    else if s == "none" then Some(NoCaveat)
    else if s == "reinforcement" then Some(Reinforcement)
    else None
  }

  /** The inverse of `Weight`: `None` for an integer outside 1..4. */
  function ConfidenceFromWeight(w: int): (r: Option<ConfidenceLevel>)
    ensures r.Some? <==> 1 <= w <= 4
    ensures r.Some? ==> r.value.Weight() == w
  {
    if w == 4 then Some(Unhedged)
    else if w == 3 then Some(Hedged)
    else if w == 2 then Some(Uncertain)
    else if w == 1 then Some(Refusal)
    else None
  }

  function EncodeFidelity(f: Option<ReproductionFidelity>): Value {
    if f.Some? then Text(f.value.Tag()) else Null
  }

  function EncodeAttribution(a: Option<AttributionAccuracy>): Value {
    if a.Some? then Text(a.value.Tag()) else Null
  }

  function EncodeConfidence(c: Option<ConfidenceLevel>): Value {
    if c.Some? then Number(c.value.Weight()) else Null
  }

  function EncodeAwareness(e: Option<EpistemicAwareness>): Value {
    if e.Some? then Text(e.value.Tag()) else Null
  }

  /** Decoders: the outer `None` is a value that is neither null nor a tag. */
  function DecodeFidelity(v: Value): (r: Option<Option<ReproductionFidelity>>)
    ensures forall f :: v == EncodeFidelity(f) ==> r == Some(f)
  {
    match v
    case Null => Some(None)
    case Text(s) => (var f := FidelityFromTag(s); if f.Some? then Some(f) else None)
    case Number(_) => None
  }

  function DecodeAttribution(v: Value): (r: Option<Option<AttributionAccuracy>>)
    ensures forall a :: v == EncodeAttribution(a) ==> r == Some(a)
  {
    match v
    case Null => Some(None)
    case Text(s) => (var a := AttributionFromTag(s); if a.Some? then Some(a) else None)
    case Number(_) => None
  }

  function DecodeConfidence(v: Value): (r: Option<Option<ConfidenceLevel>>)
    ensures forall c :: v == EncodeConfidence(c) ==> r == Some(c)
    ensures r.Some? && r.value.Some? ==> v == Number(r.value.value.Weight())
  {
    match v
    case Null => Some(None)
    case Number(w) => (var c := ConfidenceFromWeight(w); if c.Some? then Some(c) else None)
    case Text(_) => None
  }

  function DecodeAwareness(v: Value): (r: Option<Option<EpistemicAwareness>>)
    ensures forall e :: v == EncodeAwareness(e) ==> r == Some(e)
  {
    match v
    case Null => Some(None)
    case Text(s) => (var e := AwarenessFromTag(s); if e.Some? then Some(e) else None)
    case Number(_) => None
  }

  /** A string-valued keyword argument: `default` when the key is absent
    * (`None` as default marks a required argument). */
  function TextArg(d: Record, key: string, default: Option<string>): Option<string> {
    if key in d then (if d[key].Text? then Some(d[key].text) else None) else default
  }

  /** The persisted record of one coded response (each enum as its tag). */
  function ToRecord(r: CodedResponse): (d: Record)
    ensures d.Keys == FieldNames
    ensures d["case_id"] == Text(r.caseId) && d["model"] == Text(r.model)
    ensures d["administration"] == Number(r.administration)
    ensures d["confidence_level"] == (if r.confidence.Some? then Number(r.confidence.value.Weight()) else Null)
    ensures FromRecord(d) == Some(r)
  {
    map[
      "case_id" := Text(r.caseId),
      "model" := Text(r.model),
      "prompt_type" := Text(r.promptType),
      "administration" := Number(r.administration),
      "raw_response" := Text(r.rawResponse),
      "reproduction_fidelity" := EncodeFidelity(r.fidelity),
      "attribution_accuracy" := EncodeAttribution(r.attribution),
      "confidence_level" := EncodeConfidence(r.confidence),
      "epistemic_awareness" := EncodeAwareness(r.awareness),
      "notes" := Text(r.notes),
      "coder_id" := Text(r.coderId)
    ]
  }

  /**
   * `CodedResponse(**record)`: an unknown key or a missing required key
   * (case_id, model, prompt_type, administration, raw_response) fails, as
   * Python's keyword-argument binding does; absent optional keys take their
   * defaults. Enum tags are parsed back into enum values.
   */
  function FromRecord(d: Record): (r: Option<CodedResponse>)
    ensures r.Some? ==> RequiredFieldNames <= d.Keys <= FieldNames
    ensures r.Some? ==> d["case_id"] == Text(r.value.caseId) && d["model"] == Text(r.value.model)
    ensures r.Some? ==> d["prompt_type"] == Text(r.value.promptType) && d["raw_response"] == Text(r.value.rawResponse)
    ensures r.Some? ==> d["administration"] == Number(r.value.administration)
    ensures r.Some? && "notes" !in d ==> r.value.notes == ""
    ensures r.Some? && "coder_id" !in d ==> r.value.coderId == ""
    ensures r.Some? && "reproduction_fidelity" !in d ==> r.value.fidelity.None?
    ensures r.Some? && "attribution_accuracy" !in d ==> r.value.attribution.None?
    ensures r.Some? && "confidence_level" !in d ==> r.value.confidence.None?
    ensures r.Some? && "epistemic_awareness" !in d ==> r.value.awareness.None?
  {
    if !(d.Keys <= FieldNames) then None
    else
      var caseId :- TextArg(d, "case_id", None);
      var model :- TextArg(d, "model", None);
      var promptType :- TextArg(d, "prompt_type", None);
      var administration :- if "administration" in d && d["administration"].Number? then Some(d["administration"].number) else None;
      var rawResponse :- TextArg(d, "raw_response", None);
      var fidelity :- if "reproduction_fidelity" in d then DecodeFidelity(d["reproduction_fidelity"]) else Some(None);
      var attribution :- if "attribution_accuracy" in d then DecodeAttribution(d["attribution_accuracy"]) else Some(None);
      var confidence :- if "confidence_level" in d then DecodeConfidence(d["confidence_level"]) else Some(None);
      var awareness :- if "epistemic_awareness" in d then DecodeAwareness(d["epistemic_awareness"]) else Some(None);
      var notes :- TextArg(d, "notes", Some(""));
      var coderId :- TextArg(d, "coder_id", Some(""));
      Some(CodedResponse(caseId, model, promptType, administration, rawResponse,
                         fidelity, attribution, confidence, awareness, notes, coderId))
  }

  // ---------------------------------------------------------------------------
  // How `mean_confidence` reads the confidence of a record loaded back from
  // the persisted document without converting it into an enum value.
  // ---------------------------------------------------------------------------

  datatype ScoreLookup = Skipped | Score(score: int) | NoValueAttribute

  /**
   * `r.confidence_level.value if r.confidence_level`, applied to a field that
   * holds the raw persisted value: a falsy value (null, 0, "") is skipped;
   * any other plain int or string has no `.value` attribute.
   */
  function LoadedScoreAsWritten(v: Value): (s: ScoreLookup)
    ensures s != Skipped <==> v != Null && v != Number(0) && v != Text("")
    ensures !s.Score?
  {
    match v
    case Null => Skipped
    case Number(n) => if n == 0 then Skipped else NoValueAttribute
    case Text(t) => if t == "" then Skipped else NoValueAttribute
  }

  /** The same lookup on a field that holds a confidence level. */
  function ScoreOf(c: Option<ConfidenceLevel>): (s: ScoreLookup)
    ensures c.None? <==> s == Skipped
    ensures c.Some? ==> s == Score(c.value.Weight()) && 1 <= s.score <= 4
  {
    if c.Some? then Score(c.value.Weight()) else Skipped
  }

  /** Every coded confidence, once persisted and reloaded as a raw value, makes the lookup fail. */
  lemma PersistedConfidenceLacksValue(r: CodedResponse)
    requires r.confidence.Some?
    ensures LoadedScoreAsWritten(ToRecord(r)["confidence_level"]) == NoValueAttribute
    ensures ScoreOf(r.confidence).Score?
  {
    var w := r.confidence.value.Weight();
    assert ToRecord(r)["confidence_level"] == Number(w);
    assert w != 0;
  }

  /** Decoding the persisted value first restores the score that was saved. */
  lemma PersistedConfidenceDecodes(r: CodedResponse)
    ensures var c := DecodeConfidence(ToRecord(r)["confidence_level"]);
            c == Some(r.confidence) && ScoreOf(c.value) == ScoreOf(r.confidence)
  {
  }
}

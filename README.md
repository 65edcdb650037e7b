# Narrative-laundering pipeline: a Dafny model of its coding core

The repository studies how large language models reproduce "laundered"
claims: a statistic or framing that circulates far beyond its primary
source (the "95% of AI projects fail" MIT figure, and the "NATO expansion
caused the war" framing of Russia's invasion of Ukraine). Its core is:

- **The coding framework** (`src/utils/coding_framework.py`). It defines four
  coding dimensions: reproduction fidelity, attribution accuracy, a 1–4
  confidence level and epistemic awareness. A coded response is one record,
  and a case's aggregate offers rates, the mean confidence, persistence and
  the per-model summary table.
- **Phase 3 probing** (`src/agents/phase3_model_probing.py`). Each case has
  a table of prompt variants: types A–D, three variants each. A run queries
  every model on every variant, stamps each answer with the case, the prompt
  type and the administration number, and a summary counts ok and error
  answers per model and prompt type.
- **The Phase 4 confidence proxy** (`src/agents/phase4_confidence_proxy.py`).
  Pattern-count classifiers code each raw answer on the four dimensions, one
  classifier per case study. The processing loop codes a run's answers into a
  case aggregate, and the summary statistics give one row per model.
- **Phase 2 prevalence combination** (`src/agents/phase2_corpus_prevalence.py`).
  An estimate record holds web-search, Factiva and GDELT results. Factiva
  results are entered by hand. The combined derivative-to-primary ratio is a
  weighted mean of the per-source ratios: GDELT 0.4, Factiva 0.4, web 0.2.

The Dafny modules follow that structure:

- `Taxonomy` (taxonomy.dfy): the enumerations, `CodedResponse`, and the record
  encoding.
- `CaseAggregate` (case_results.dfy): the `CaseResults` class and its
  statistics.
- `Classifier` (classifier.dfy): the pattern tables and the analysers.
- `Probing` (probing.dfy): the prompt tables, the run's enumeration and its
  loops, and the summary.
- `Ingestion` (ingestion.dfy): the coding loop and the summary statistics.
- `Prevalence` (prevalence.dfy): the estimate class, Factiva entry and the
  combined ratio.

Three things are parameters of the model:

- **Regular-expression search** is an oracle `Matcher` (pattern, text),
  case-insensitive as every search in the source is.
- **A model query** is an oracle `Query` (model, prompt, system prompt).
- **The supported-model list** is passed in where the source imports it.

Python floats are exact `real`s.

## Model

Lemmas without a row are proof steps for the rows above them:
- `WhereAppend`, `WhereSingleton`, `WhereFull` and `WhereEmpty` support the filter and rate lemmas.
- `SumBounds` and `RatioBounds` support the mean's bounds.
- `KeysStep`, `CountsStep` and `SummaryStepAt` support `SummaryStep`.
- `WeightedSumBounds`, `ScaledSumBounds`, `TermBounds` and `QuotientBounds` support `CombineWithinBounds`.

| member | source | states |
|---|---|---|
| Taxonomy.ConfidenceLevel.Weight | src/utils/coding_framework.py:32-36 | every confidence level scores between 1 and 4 |
| Taxonomy.ConfidenceOrdering | src/utils/coding_framework.py:32-36 | Unhedged 4, Hedged 3, Uncertain 2, Refusal 1; "more assertive" is a strict order: each step holds, and for distinct levels exactly one direction holds |
| Taxonomy.CodedResponse.IsFullReproduction | src/utils/coding_framework.py:72-73 | a record is a full reproduction exactly when its fidelity code is set and has the value "full" |
| Taxonomy.CodedResponse.IsConfident | src/utils/coding_framework.py:75-76 | confident exactly when a confidence level is set with score at least 3 (Hedged or Unhedged) |
| Taxonomy.Uncoded | src/utils/coding_framework.py:46-61 | a record built with only the required fields stores the given case, model, prompt type, administration and text; it has no codes and empty notes and coder, and is neither a full reproduction nor confident |
| Taxonomy.FidelityFromTag | src/utils/coding_framework.py:18-22 | the lookup by value finds a fidelity only under its own tag, and finds every fidelity under its tag |
| Taxonomy.AttributionFromTag | src/utils/coding_framework.py:25-29 | the lookup by value is the inverse of the attribution tags |
| Taxonomy.AwarenessFromTag | src/utils/coding_framework.py:39-43 | the lookup by value is the inverse of the awareness tags |
| Taxonomy.ConfidenceFromWeight | src/utils/coding_framework.py:32-36 | a score names a level exactly when it is in 1..4, and that level has the score |
| Taxonomy.DecodeFidelity | src/utils/coding_framework.py:63-70 | decoding undoes the persisted encoding of an optional fidelity (its value, or null) |
| Taxonomy.DecodeAttribution | src/utils/coding_framework.py:63-70 | decoding undoes the persisted encoding of an optional attribution |
| Taxonomy.DecodeConfidence | src/utils/coding_framework.py:63-70 | decoding undoes the persisted encoding of an optional confidence; a decoded level came from its own integer score |
| Taxonomy.DecodeAwareness | src/utils/coding_framework.py:63-70 | decoding undoes the persisted encoding of an optional awareness |
| Taxonomy.ToRecord | src/utils/coding_framework.py:63-70 | the persisted record has exactly the dataclass's field names, carries the case, model, administration and the confidence as its integer score (or null), and reading it back gives the same record |
| Taxonomy.FromRecord | src/utils/coding_framework.py:133 | a record accepted by the keyword constructor has all five required fields and only known field names; the built record carries the case, model, prompt type, administration and text given; an absent notes or coder field gives "" and an absent code gives none |
| Taxonomy.LoadedScoreAsWritten | src/utils/coding_framework.py:95-98 | as written, a loaded confidence passes the truthiness filter exactly when it is non-null and non-zero, and never yields a score (a plain int has no `.value`) |
| Taxonomy.ScoreOf | src/utils/coding_framework.py:95-98 | for an in-memory record the score is skipped exactly when no level is set, and is the level's 1–4 weight otherwise |
| Taxonomy.PersistedConfidenceLacksValue | src/utils/coding_framework.py:95-98 | for any record with a confidence, the saved then loaded value fails at `.value`, where the in-memory record scores |
| Taxonomy.PersistedConfidenceDecodes | src/utils/coding_framework.py:127-135 | decoding the saved confidence while loading restores the level, and so the score the in-memory record had |
| CaseAggregate.Filter | src/utils/coding_framework.py:108-114 | with neither argument given the list is unchanged; filtering never adds records |
| CaseAggregate.FilterMembers | src/utils/coding_framework.py:108-114 | a record survives exactly when it is in the list and matches every given model and prompt type |
| CaseAggregate.FilterAppend | src/utils/coding_framework.py:108-114 | filtering preserves order: appending a record appends it to the filtered list exactly when it is selected |
| CaseAggregate.ReproductionRate | src/utils/coding_framework.py:88-93 | the Full fraction of the filtered records, 0 when none match, always in [0, 1] |
| CaseAggregate.ReproductionRateExtremes | src/utils/coding_framework.py:88-93 | the rate is 1 exactly when some record matches and all matching are full reproductions, and 0 exactly when none matching is |
| CaseAggregate.CorrectAttributionRate | src/utils/coding_framework.py:100-106 | the Correct fraction of the records filtered by model only, 0 when none match, in [0, 1] |
| CaseAggregate.CorrectAttributionRateExtremes | src/utils/coding_framework.py:100-106 | the rate is 1 exactly when some record matches and all are Correct, and 0 exactly when none is |
| CaseAggregate.Scores | src/utils/coding_framework.py:97 | the collected scores lie in 1..4, and there are none exactly when no record has a confidence level |
| CaseAggregate.ScoresAreLevelWeights | src/utils/coding_framework.py:97 | the scores are, in order, the weights of exactly the records that carry a confidence level |
| CaseAggregate.MeanConfidence | src/utils/coding_framework.py:95-98 | the mean score of the filtered records that have a level, in [1, 4]; 0 when none has one |
| CaseAggregate.DecodeAll | src/utils/coding_framework.py:132-134 | loading succeeds exactly when every record decodes, and keeps their number |
| CaseAggregate.EncodeAll | src/utils/coding_framework.py:120 | one persisted record per response, in order |
| CaseAggregate.DecodeEncodeAll | src/utils/coding_framework.py:116-135 | loading what was saved gives back the same responses |
| CaseAggregate.CaseResults.constructor | src/utils/coding_framework.py:79-83 | a new aggregate has the case and no responses |
| CaseAggregate.CaseResults.Add | src/utils/coding_framework.py:85-86 | the record is appended and the case is unchanged |
| CaseAggregate.CaseResults.ToDict | src/utils/coding_framework.py:116-121 | the document carries the case, the response count equal to the number of persisted records, and records that load back to the responses |
| CaseAggregate.CaseResults.Load | src/utils/coding_framework.py:127-135 | a fresh aggregate for the document's case whose responses are the decoded records, exactly when all decode |
| CaseAggregate.ModelRowProperties | src/utils/coding_framework.py:138-152 | every rate column lies in [0, 1] and the mean confidence in [0, 4]; the C column is one minus the C reproduction rate, so 1 for a model with no C records; the D column is the attribution rate over all prompt types |
| CaseAggregate.SummaryTable | src/utils/coding_framework.py:138-152 | exactly one row per listed model, each that model's row |
| Classifier.CountPatternMatches | src/agents/phase4_confidence_proxy.py:100-102 | at most the number of patterns; 0 exactly when no pattern matches, all exactly when every one does |
| Classifier.CountIsMatchingPositions | src/agents/phase4_confidence_proxy.py:100-102 | the count is the number of pattern positions that match |
| Classifier.CountDependsOnListedPatterns | src/agents/phase4_confidence_proxy.py:100-102 | two searches that agree on the listed patterns give the same count |
| Classifier.ExtractConfidenceLevel | src/agents/phase4_confidence_proxy.py:105-114 | Unhedged exactly with no hedging match, Hedged with 1 or 2, Uncertain with 3 or more; never Refusal |
| Classifier.ConfidenceIgnoresReinforcement | src/agents/phase4_confidence_proxy.py:105-114 | the level depends only on the hedging patterns |
| Classifier.ExtractEpistemicAwareness | src/agents/phase4_confidence_proxy.py:117-126 | Reinforcement exactly when reinforcements outnumber caveats; otherwise a caveat gives Spontaneous under A/B and Probed under C/D; NoCaveat in every other case |
| Classifier.AnalyseMitResponse | src/agents/phase4_confidence_proxy.py:129-159 | fidelity Full iff claim and misattribution, Partial iff claim without it, Non iff no claim; attribution Misattributed iff a misattribution, Correct iff the right source without one, else none; confidence and awareness from the extractors |
| Classifier.AnalyseRussiaResponse | src/agents/phase4_confidence_proxy.py:162-203 | fidelity Full iff NATO is a primary cause, Partial iff only the claim, else Non; attribution Correct iff source and information-operations context, Misattributed iff source alone, else none; a noted information operation decides awareness under A–D, otherwise reinforcement or none |
| Classifier.AnalyserFor | src/agents/phase4_confidence_proxy.py:206-209 | exactly the two case identifiers have a classifier |
| Classifier.Analyse | src/agents/phase4_confidence_proxy.py:237 | the automated classifiers never code Contradiction, Fabricated or Refusal, and the confidence is the extracted level |
| Ingestion.CodeOne | src/agents/phase4_confidence_proxy.py:235-250 | the coded record has the case, model and text; the record's prompt type and administration, defaulting to A and 1; the automated coder; and as its four codes the fidelity, attribution, confidence and awareness the case's classifier gives for that text and prompt type |
| Ingestion.CodeAllIsCodingOfResponded | src/agents/phase4_confidence_proxy.py:232-251 | the coded records are, in order, the codings of exactly the raw records with a non-empty response |
| Ingestion.CodedRecordsAreAutomated | src/agents/phase4_confidence_proxy.py:232-251 | every coded record carries the case, the automated coder and all four codes |
| Ingestion.ProcessRawResponses | src/agents/phase4_confidence_proxy.py:229-251 | fails exactly for a case without a classifier; otherwise a fresh aggregate for the case holding the codings of the answered records |
| Ingestion.ComputeSummaryStats | src/agents/phase4_confidence_proxy.py:258-270 | one entry per listed model, each that model's summary row |
| Probing.MitPromptsShape | src/agents/phase3_model_probing.py:29-77 | the MIT table has prompt types A–D with three variants each |
| Probing.RussiaPromptsShape | src/agents/phase3_model_probing.py:79-127 | the Russia table has prompt types A–D with three variants each |
| Probing.PromptsCases | src/agents/phase3_model_probing.py:129-132 | exactly the two case identifiers have a table, each its own |
| Probing.ProbeVariants | src/agents/phase3_model_probing.py:180-194 | one record per variant |
| Probing.VariantsStamped | src/agents/phase3_model_probing.py:191-194 | every record carries the case, the prompt type and an administration in 1..the number of variants |
| Probing.ProbeVariantsAt | src/agents/phase3_model_probing.py:180-194 | the k-th record is the answer to the k-th variant for this model with the system prompt, stamped with administration k + 1 |
| Probing.TypesLength | src/agents/phase3_model_probing.py:178-194 | over types with three variants each, a model gets three records per type |
| Probing.TypesStamped | src/agents/phase3_model_probing.py:178-194 | every record of a model carries the case, one of the requested types and an administration in 1..3 |
| Probing.ProbeTypesAt | src/agents/phase3_model_probing.py:178-194 | record 3j + k of a model is the answer to variant k of the j-th type, stamped with that type and administration k + 1 |
| Probing.AllLength | src/agents/phase3_model_probing.py:171 | a run has models × (3 × types) records |
| Probing.AllStamped | src/agents/phase3_model_probing.py:177-194 | every record of a run carries the case, a requested type and an administration in 1..3 |
| Probing.ProbeAllIsFlatten | src/agents/phase3_model_probing.py:177-194 | the run's records are model-major: the concatenation, in model order, of each model's records |
| Probing.OrDefault | src/agents/phase3_model_probing.py:157-158 | a given non-empty list is kept; a missing or empty one is replaced by the default |
| Probing.ProbeVariantsLoop | src/agents/phase3_model_probing.py:180-194 | the innermost loop builds exactly the per-variant records |
| Probing.ProbeTypesLoop | src/agents/phase3_model_probing.py:178-194 | succeeds exactly when every requested type is in the table, with the per-model records; otherwise names a missing requested type |
| Probing.ProbeCase | src/agents/phase3_model_probing.py:177-194 | succeeds exactly when there is no model or every type is known, with the run's records; otherwise names a missing requested type |
| Probing.RunProbing | src/agents/phase3_model_probing.py:142-209 | an unknown case is rejected; otherwise the case's table is probed with the defaulted models and prompt types and the system prompt |
| Probing.RunShape | src/agents/phase3_model_probing.py:171-194 | a run over three-variant types has models × types × 3 records, each stamped with the case, a requested type and an administration in 1..3 |
| Probing.KnownTypesUniform | src/agents/phase3_model_probing.py:155-158 | in a table of types A–D with three variants each, any list of known types has three variants per type |
| Probing.CountKey | src/agents/phase3_model_probing.py:216 | at most the number of records, and 0 exactly when no record has the key |
| Probing.OkPlusErrorIsCount | src/agents/phase3_model_probing.py:219-222 | every record of a key is counted once, as ok or as an error |
| Probing.SummaryStep | src/agents/phase3_model_probing.py:215-222 | counting one more record into the summary of a prefix gives the summary of the longer prefix |
| Probing.SummariseResponses | src/agents/phase3_model_probing.py:212-223 | one tally per key that occurs; ok counts the key's non-empty answers and error the rest; every tally is positive and sums to the key's records; no records, no tallies |
| Prevalence.PrevalenceEstimate.constructor | src/agents/phase2_corpus_prevalence.py:72-85 | the required fields as given, empty result lists and maps, combined ratio 0 |
| Prevalence.AddFactivaResult | src/agents/phase2_corpus_prevalence.py:322-336 | exactly one Factiva record with the given fields and source type "factiva" is appended; nothing else changes |
| Prevalence.Weight | src/agents/phase2_corpus_prevalence.py:372-373 | GDELT and Factiva weigh 0.4 and web search 0.2; any other key weighs 0 |
| Prevalence.Contributions | src/agents/phase2_corpus_prevalence.py:346-367 | a source has a ratio exactly when it has results and the primary count is positive; the ratio is its mean count over the primary count |
| Prevalence.TotalWeightPositive | src/agents/phase2_corpus_prevalence.py:374-375 | with any contribution the total weight is positive, so the zero-weight branch is never taken |
| Prevalence.CombineSingleSource | src/agents/phase2_corpus_prevalence.py:370-375 | with a single source the combined ratio is that source's ratio |
| Prevalence.CombineWithinBounds | src/agents/phase2_corpus_prevalence.py:370-375 | the combined ratio lies between any lower and upper bound of the contributions |
| Prevalence.CombinedRatio | src/agents/phase2_corpus_prevalence.py:339-379 | returns the contributions and their weighted mean; with no results or no positive primary count, the stored ratio and no contributions |
| Prevalence.StoreCombinedRatio | src/agents/phase2_corpus_prevalence.py:541-544 | the caller stores the combined ratio and contributions; nothing else changes |

## Left out

- Regular expressions: matching is the `Matcher` oracle. The source lowercases the text and also searches case-insensitive, which is folded into the oracle. A pattern's own meaning (for example the word boundary in `RT\b`) is not modelled.
- I/O: reading and writing JSON files, directory creation, default file paths, console output and the rate-limit sleep between queries are not modelled; `save`/`load` are modelled as the document value they write and read.
- `query_model`, the cache and `src/utils/llm_client.py` are not part of this model. A query is a pure function of model, prompt and system prompt, so the points in time at which queries happen (an unknown prompt type fails only when the loop reaches it, after the earlier types' queries for that model) are not expressed.
- SUPPORTED_MODELS is a parameter of `RunProbing`, `ComputeSummaryStats` and `SummaryTable`, not a constant.
- Ingestion.ComputeSummaryStats: gives the numbers; the percent and "/4" string formatting of each entry is not modelled.
- Floating point: rates, means and ratios are exact reals. Rounding and the integer-versus-float distinction of the Python result (the fallback `0` when the total weight is zero) are not modelled.
- Raw records: a missing key and a JSON null are both `None`. So `r.get("prompt_type", "A")` on a key that is present but null, which gives `None` rather than "A", is not distinguished. A raw record without a `model` key, a `KeyError` in the source, cannot be represented. Nor can one without a `response` key: `summarise_responses` raises `KeyError` on it (`r["response"]`), while `Probing.SummariseResponses` counts it as an error.
- Taxonomy.FromRecord: stricter than Python's keyword constructor. It requires values of the right kind (a text where a string is expected, an integer or null where a code is), and it decodes codes to the enumerations; the source passes whatever JSON gives.
- Taxonomy.ToRecord: models the record as written to disk, with each enumeration as its value, rather than the in-memory `asdict`, which keeps the enumeration objects.
- Probing.ProbeAllIsFlatten: the position of each record in a whole run is given by the model-major concatenation together with `ProbeTypesAt` and `AllLength`, not by one index formula over all models.
- CaseAggregate.ModelRowProperties: states what the code computes. The "type_c_hedged_or_less" column is 1.0 for a model with no type C records, and "type_d_correct_source" is the attribution rate over all prompt types, although the column name suggests prompt type D only.
- Phases 1 and 5, the simulation, the reporting scripts, the pre-populated estimates, and the web, GDELT and Factiva look-ups of phase 2 are outside this core. Only the estimate records, `add_factiva_result`, `compute_combined_ratio` and its caller's store are modelled.
- Assertion failures and missing dictionary keys are modelled as error results (`Err(UnknownCase)`, `Err(UnknownPromptType(..))`, `None`), not as exceptions.

## Findings

| source | as written | input that shows it | evidently intended | confidence | as-written member | corrected member |
|---|---|---|---|---|---|---|
| src/utils/coding_framework.py:95-98 | `mean_confidence` reads `r.confidence_level.value`, but `load` (lines 127-135) passes the JSON integer straight to the constructor, so after a save and load every set confidence level is a plain int | any saved aggregate with a coded record, such as confidence level 3, loaded and then asked for its mean confidence: `(3).value` raises AttributeError | loading decodes the integer back to its `ConfidenceLevel`, so the mean after a round trip equals the mean before | not executed | Taxonomy.PersistedConfidenceLacksValue | Taxonomy.PersistedConfidenceDecodes |

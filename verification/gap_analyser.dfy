/** The gap-analysis enrichment (langchain_gap_analyser.py, lines 96-167): one LLM call per
    opportunity, results gathered in input order and stored on the record under `ai_gap_analysis`. */
module GapAnalyser {
  import opened Python
  import opened Gather
  import Extractor

  const DefaultModel := "x-ai/grok-4-fast"

  /** The outcome of one `llm.ainvoke`: the reply's `content`, or the message of what it raised. */
  datatype LlmOutcome = Reply(text: string) | CallFailed(message: string)

  /** The LLM provider: the outcome of the call with the given model for the i-th item of a batch. */
  type Provider = (string, nat) -> LlmOutcome

  /** `json.loads`: the decoded value, or None when it raises. */
  type Decoder = string -> Option<Json>

  const MissingApiKey := PyError(ValueError, "OPENROUTER_API_KEY not set in environment variables")
  /** What the handler's read of the reply (langchain_gap_analyser.py:149) raises when `ainvoke`
      raised before `response` was assigned. */
  const UnboundResponse := PyError(UnboundLocalError,
    "cannot access local variable 'response' where it is not associated with a value")

  /** The fallback item for model text that does not decode. */
  function Placeholder(solution: Json, gapAnalysis: string): Json {
    JObject([("ai solution", solution), ("gap_analysis", JStr(gapAnalysis)), ("pain_points", JArray([]))])
  }

  /** `process_opportunity` as written. The prompt reads `opp["solution"]` and `opp['why']` before
      the call; the decoded reply is the item verbatim; a reply that does not decode gives the
      placeholder with the stripped text; a failed call raises from inside the handler. */
  function ProcessOpportunity(opp: Json, outcome: LlmOutcome, decode: Decoder): Result<Json> {
    var solution :- Subscript(opp, "solution");
    var why :- Subscript(opp, "why");
    match outcome
    case CallFailed(_) => Err(UnboundResponse)
    case Reply(text) =>
      match decode(text)
      case Some(v) => Ok(v)
      case None => Ok(Placeholder(solution, Strip(text)))
  }

  /** `process_opportunity` as evidently intended (with `response = None` before the `try`, as the
      email generator has it): a failed call gives the `"N/A"` placeholder. */
  function ProcessOpportunityIntended(opp: Json, outcome: LlmOutcome, decode: Decoder): Result<Json> {
    var solution :- Subscript(opp, "solution");
    var why :- Subscript(opp, "why");
    match outcome
    case CallFailed(_) => Ok(Placeholder(solution, "N/A"))
    case Reply(text) =>
      match decode(text)
      case Some(v) => Ok(v)
      case None => Ok(Placeholder(solution, Strip(text)))
  }

  /** An opportunity the prompt can be built from. */
  predicate Promptable(opp: Json) {
    opp.JObject? && "solution" in KeysOf(opp.fields) && "why" in KeysOf(opp.fields)
  }

  /** Per item: a prompt error, then the three outcomes of the call. */
  lemma {:induction false} ProcessOpportunityCases(opp: Json, outcome: LlmOutcome, decode: Decoder)
    ensures !Promptable(opp) ==> (ProcessOpportunity(opp, outcome, decode).Err? &&
      ProcessOpportunity(opp, outcome, decode).error.kind in {KeyError, TypeError})
    ensures Promptable(opp) && outcome.Reply? && decode(outcome.text).Some? ==>
      ProcessOpportunity(opp, outcome, decode) == Ok(decode(outcome.text).value)
    ensures Promptable(opp) && outcome.Reply? && decode(outcome.text).None? ==>
      ProcessOpportunity(opp, outcome, decode) ==
        Ok(Placeholder(Lookup(opp.fields, "solution").value, Strip(outcome.text)))
    ensures Promptable(opp) && outcome.CallFailed? ==>
      ProcessOpportunity(opp, outcome, decode) == Err(UnboundResponse)
  {
  }

  /** The correction changes nothing for a call that returned: both versions agree on every reply. */
  lemma {:induction false} FixAgreesOnReplies(opp: Json, text: string, decode: Decoder)
    ensures ProcessOpportunity(opp, Reply(text), decode) == ProcessOpportunityIntended(opp, Reply(text), decode)
  {
  }

  /** As intended, a well-formed opportunity always yields an item; a failed call yields the
      `"N/A"` placeholder. */
  lemma {:induction false} ProcessOpportunityIntendedCases(opp: Json, outcome: LlmOutcome, decode: Decoder)
    ensures ProcessOpportunityIntended(opp, outcome, decode).Ok? <==> Promptable(opp)
    ensures Promptable(opp) && outcome.CallFailed? ==>
      ProcessOpportunityIntended(opp, outcome, decode) == Ok(Placeholder(Lookup(opp.fields, "solution").value, "N/A"))
  {
  }

  function Run(model: string, provider: Provider, decode: Decoder): (nat, Json) -> Result<Json> {
    (i: nat, opp: Json) => ProcessOpportunity(opp, provider(model, i), decode)
  }

  function RunIntended(model: string, provider: Provider, decode: Decoder): (nat, Json) -> Result<Json> {
    (i: nat, opp: Json) => ProcessOpportunityIntended(opp, provider(model, i), decode)
  }

  /** The opportunities (langchain_gap_analyser.py:154), `[]` when the record has none. */
  function Opportunities(data: Fields): Json {
    GetDefault(data, "ai_opportunities", JArray([]))
  }

  /** The gathered results of `process_opportunity` (as written) over the opportunities. */
  function GapResults(data: Fields, model: string, provider: Provider, decode: Decoder): Result<seq<Json>> {
    var opps :- Iter(Opportunities(data));
    GatherAll(opps, Run(model, provider, decode))
  }

  /** The whole of `generate_gap_analysis_async` on the dict's entries: the new entries. */
  function GapAnalysisOf(data: Fields, env: Environment, provider: Provider, decode: Decoder): Result<Fields> {
    if Unset(GetEnv(env, "OPENROUTER_API_KEY")) then Err(MissingApiKey)
    else
      var results :- GapResults(data, GetEnvOr(env, "OPENROUTER_MODEL", DefaultModel), provider, decode);
      Ok(Update(data, "ai_gap_analysis", JArray(results)))
  }

  /** `generate_gap_analysis_async(data)`: updates `data` in place and returns the same object. */
  method GenerateGapAnalysis(data: PyDict, env: Environment, provider: Provider, decode: Decoder)
    returns (r: Result<PyDict>)
    modifies data
    ensures GapAnalysisOf(old(data.entries), env, provider, decode).Ok? ==>
      r == Ok(data) && data.entries == GapAnalysisOf(old(data.entries), env, provider, decode).value
    ensures GapAnalysisOf(old(data.entries), env, provider, decode).Err? ==>
      r == Err(GapAnalysisOf(old(data.entries), env, provider, decode).error) &&
      data.entries == old(data.entries)
  {
    var model := GetEnvOr(env, "OPENROUTER_MODEL", DefaultModel);
    var apiKey := GetEnv(env, "OPENROUTER_API_KEY");
    if Unset(apiKey) {
      return Err(MissingApiKey);
    }
    var results := GapResults(data.entries, model, provider, decode);
    if results.Err? {
      return Err(results.error);
    }
    data.entries := Update(data.entries, "ai_gap_analysis", JArray(results.value));
    r := Ok(data);
  }

  /** When the batch completes, every call returned: one result per opportunity, in input order;
      an absent list gives `[]`. */
  lemma {:induction false} OneResultPerOpportunity(data: Fields, model: string, provider: Provider, decode: Decoder)
    requires GapResults(data, model, provider, decode).Ok?
    ensures var rs := GapResults(data, model, provider, decode).value;
      var opps := Iter(Opportunities(data)).value;
      |rs| == |opps| &&
      (forall i :: 0 <= i < |opps| ==>
        provider(model, i).Reply? && rs[i] == ProcessOpportunity(opps[i], provider(model, i), decode).value) &&
      ("ai_opportunities" !in KeysOf(data) ==> rs == [])
  {
    var opps := Iter(Opportunities(data)).value;
    var run := Run(model, provider, decode);
    forall i | 0 <= i < |opps|
      ensures provider(model, i).Reply? && run(i, opps[i]) == ProcessOpportunity(opps[i], provider(model, i), decode)
    {
      assert run(i, opps[i]).Ok?;
      ProcessOpportunityCases(opps[i], provider(model, i), decode);
    }
  }

  /** Only `ai_gap_analysis` is added or overwritten; every other key keeps its value and its place. */
  lemma {:induction false} OnlyGapKeyChanges(data: Fields, env: Environment, provider: Provider, decode: Decoder)
    requires GapAnalysisOf(data, env, provider, decode).Ok?
    ensures var out := GapAnalysisOf(data, env, provider, decode).value;
      var rs := GapResults(data, GetEnvOr(env, "OPENROUTER_MODEL", DefaultModel), provider, decode).value;
      Lookup(out, "ai_gap_analysis") == Some(JArray(rs)) &&
      (forall k :: k != "ai_gap_analysis" ==> Lookup(out, k) == Lookup(data, k)) &&
      (forall k :: k in KeysOf(data) ==> k in KeysOf(out)) &&
      |KeysOf(out)| <= |KeysOf(data)| + 1
  {
  }

  /** A missing API key raises before any opportunity is processed. */
  lemma {:induction false} MissingKeyFailsFirst(data: Fields, env: Environment, p1: Provider, p2: Provider, decode: Decoder)
    requires Unset(GetEnv(env, "OPENROUTER_API_KEY"))
    ensures GapAnalysisOf(data, env, p1, decode) == GapAnalysisOf(data, env, p2, decode) == Err(MissingApiKey)
  {
  }

  /** As written: with well-formed opportunities, a single failed call aborts the whole batch with
      `UnboundLocalError` instead of producing a placeholder. */
  lemma {:induction false} CallFailureAbortsBatch(opps: seq<Json>, model: string, provider: Provider,
                                                  decode: Decoder, i: nat)
    requires forall j :: 0 <= j < |opps| ==> Promptable(opps[j])
    requires i < |opps| && provider(model, i).CallFailed?
    ensures GatherAll(opps, Run(model, provider, decode)) == Err(UnboundResponse)
  {
    var run := Run(model, provider, decode);
    forall j | 0 <= j < |opps| ensures run(j, opps[j]).Ok? || run(j, opps[j]) == Err(UnboundResponse) {
      ProcessOpportunityCases(opps[j], provider(model, j), decode);
    }
    ProcessOpportunityCases(opps[i], provider(model, i), decode);
    assert !run(i, opps[i]).Ok?;
    UniformFailure(opps, run, UnboundResponse);
  }

  /** As intended: with well-formed opportunities the batch always yields one item per opportunity,
      in order, even when every call fails (each then becomes the `"N/A"` placeholder). */
  lemma {:induction false} IntendedBatchComplete(opps: seq<Json>, model: string, provider: Provider,
                                                 decode: Decoder)
    requires forall j :: 0 <= j < |opps| ==> Promptable(opps[j])
    ensures var r := GatherAll(opps, RunIntended(model, provider, decode));
      r.Ok? && |r.value| == |opps| &&
      forall j :: 0 <= j < |opps| && provider(model, j).CallFailed? ==>
        r.value[j] == Placeholder(Lookup(opps[j].fields, "solution").value, "N/A")
  {
    var run := RunIntended(model, provider, decode);
    forall j | 0 <= j < |opps| ensures run(j, opps[j]).Ok? {
      assert run(j, opps[j]) == ProcessOpportunityIntended(opps[j], provider(model, j), decode);
      assert Subscript(opps[j], "solution").Ok? && Subscript(opps[j], "why").Ok?;
    }
  }

  /** A failed call for one of the opportunities: the key is set, the list iterates, every
      opportunity can be prompted, and the call for the i-th one raises. */
  predicate CallFailsFor(data: Fields, env: Environment, provider: Provider, i: nat) {
    !Unset(GetEnv(env, "OPENROUTER_API_KEY")) &&
    Iter(Opportunities(data)).Ok? &&
    (forall j :: 0 <= j < |Iter(Opportunities(data)).value| ==> Promptable(Iter(Opportunities(data)).value[j])) &&
    i < |Iter(Opportunities(data)).value| &&
    provider(GetEnvOr(env, "OPENROUTER_MODEL", DefaultModel), i).CallFailed?
  }

  /** As written, one failed call makes `generate_gap_analysis_async` raise `UnboundLocalError`,
      whatever the other calls return. */
  lemma {:induction false} CallFailureAbortsStage(data: Fields, env: Environment, provider: Provider,
                                                  decode: Decoder, i: nat)
    requires CallFailsFor(data, env, provider, i)
    ensures GapAnalysisOf(data, env, provider, decode) == Err(UnboundResponse)
  {
    CallFailureAbortsBatch(Iter(Opportunities(data)).value, GetEnvOr(env, "OPENROUTER_MODEL", DefaultModel),
                           provider, decode, i);
  }

  /** The gathered results of `process_opportunity` as intended. */
  function GapResultsIntended(data: Fields, model: string, provider: Provider, decode: Decoder): Result<seq<Json>> {
    var opps :- Iter(Opportunities(data));
    GatherAll(opps, RunIntended(model, provider, decode))
  }

  /** `generate_gap_analysis_async` as intended, with `process_opportunity` corrected. */
  function GapAnalysisIntendedOf(data: Fields, env: Environment, provider: Provider, decode: Decoder): Result<Fields> {
    if Unset(GetEnv(env, "OPENROUTER_API_KEY")) then Err(MissingApiKey)
    else
      var results :- GapResultsIntended(data, GetEnvOr(env, "OPENROUTER_MODEL", DefaultModel), provider, decode);
      Ok(Update(data, "ai_gap_analysis", JArray(results)))
  }

  /** As intended, with the key set and well-formed opportunities the stage always succeeds: it
      stores one item per opportunity, and each failed call's item is the `"N/A"` placeholder. */
  lemma {:induction false} IntendedStageComplete(data: Fields, env: Environment, provider: Provider, decode: Decoder)
    requires !Unset(GetEnv(env, "OPENROUTER_API_KEY")) && Iter(Opportunities(data)).Ok?
    requires forall j :: 0 <= j < |Iter(Opportunities(data)).value| ==> Promptable(Iter(Opportunities(data)).value[j])
    ensures GapAnalysisIntendedOf(data, env, provider, decode).Ok?
    ensures var opps := Iter(Opportunities(data)).value;
      var model := GetEnvOr(env, "OPENROUTER_MODEL", DefaultModel);
      var out := GapAnalysisIntendedOf(data, env, provider, decode).value;
      Lookup(out, "ai_gap_analysis").Some? && Lookup(out, "ai_gap_analysis").value.JArray? &&
      |Lookup(out, "ai_gap_analysis").value.items| == |opps| &&
      forall j :: 0 <= j < |opps| && provider(model, j).CallFailed? ==>
        Lookup(out, "ai_gap_analysis").value.items[j] == Placeholder(Lookup(opps[j].fields, "solution").value, "N/A")
  {
    var opps := Iter(Opportunities(data)).value;
    var model := GetEnvOr(env, "OPENROUTER_MODEL", DefaultModel);
    IntendedBatchComplete(opps, model, provider, decode);
    var rs := GatherAll(opps, RunIntended(model, provider, decode)).value;
    assert GapAnalysisIntendedOf(data, env, provider, decode) == Ok(Update(data, "ai_gap_analysis", JArray(rs)));
  }

  /** `run_full_pipeline`: extract the record, then enrich it. */
  function FullPipelineOf(env: Environment, analysisId: string, up: Extractor.Upstream,
                          provider: Provider, decode: Decoder): Result<Fields> {
    var record :- Extractor.MainExtractorOf(env, analysisId, up);
    GapAnalysisOf(record.fields, env, provider, decode)
  }

  /** On success `run_full_pipeline` returns the six record entries, unchanged and in order, with
      `ai_gap_analysis` appended, holding the gathered results. */
  lemma {:induction false} FullPipelineKeys(env: Environment, analysisId: string, up: Extractor.Upstream,
                                            provider: Provider, decode: Decoder)
    requires FullPipelineOf(env, analysisId, up, provider, decode).Ok?
    ensures Extractor.MainExtractorOf(env, analysisId, up).Ok?
    ensures var record := Extractor.MainExtractorOf(env, analysisId, up).value.fields;
      var out := FullPipelineOf(env, analysisId, up, provider, decode).value;
      var model := GetEnvOr(env, "OPENROUTER_MODEL", DefaultModel);
      GapResults(record, model, provider, decode).Ok? &&
      out == record + [("ai_gap_analysis", JArray(GapResults(record, model, provider, decode).value))] &&
      KeysOf(out) == Extractor.RecordKeys + ["ai_gap_analysis"]
  {
    var record := Extractor.MainExtractorOf(env, analysisId, up).value.fields;
    var model := GetEnvOr(env, "OPENROUTER_MODEL", DefaultModel);
    var rs := GapResults(record, model, provider, decode).value;
    GapKeyNotRecordKey();
    UpdateAppends(record, "ai_gap_analysis", JArray(rs));
    KeysAppend(record, Extractor.RecordKeys, "ai_gap_analysis", JArray(rs));
  }

  lemma {:induction false} GapKeyNotRecordKey()
    ensures "ai_gap_analysis" !in Extractor.RecordKeys
  {
    var ks := Extractor.RecordKeys;
    assert |"ai_gap_analysis"| == 15;
    assert |ks[0]| == 7 && |ks[1]| == 5 && |ks[2]| == 16 && |ks[3]| == 21 && |ks[4]| == 17 && |ks[5]| == 5;
  }

  lemma {:induction false} KeysAppend(f: Fields, ks: seq<string>, k: string, v: Json)
    requires KeysOf(f) == ks
    ensures KeysOf(f + [(k, v)]) == ks + [k]
  {
    var g := f + [(k, v)];
    forall i | 0 <= i < |g| ensures KeysOf(g)[i] == (ks + [k])[i] {
      if i < |f| {
        assert g[i] == f[i];
      }
    }
  }

  method RunFullPipeline(env: Environment, analysisId: string, up: Extractor.Upstream,
                         provider: Provider, decode: Decoder) returns (r: Result<PyDict>)
    ensures FullPipelineOf(env, analysisId, up, provider, decode).Ok? ==>
      r.Ok? && fresh(r.value) && r.value.entries == FullPipelineOf(env, analysisId, up, provider, decode).value
    ensures FullPipelineOf(env, analysisId, up, provider, decode).Err? ==>
      r == Err(FullPipelineOf(env, analysisId, up, provider, decode).error)
  {
    var output := Extractor.MainExtractor(env, analysisId, up);
    if output.Err? {
      return Err(output.error);
    }
    var data := new PyDict(output.value.fields);
    r := GenerateGapAnalysis(data, env, provider, decode);
  }
}

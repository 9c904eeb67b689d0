/** `run_email_generation_pipeline` (langchain_email_generator.py, lines 170-190): extraction and gap
    analysis, then an optional model override written into the process environment, then the email
    stage; credit exhaustion reported as a `ValueError` is re-raised as the credits error. */
module Pipeline {
  import opened Python
  import Extractor
  import GapAnalyser
  import EmailGenerator

  /** The outside world the pipeline talks to: the analysis API, the LLM provider of each stage and
      `json.loads`. */
  datatype Services = Services(upstream: Extractor.Upstream, gapProvider: GapAnalyser.Provider,
                               emailProvider: GapAnalyser.Provider, decode: GapAnalyser.Decoder)

  /** A message that the `except ValueError` clause treats as credit exhaustion. */
  predicate CreditMarked(message: string) {
    Contains(message, "INSUFFICIENT_CREDITS_ERROR") || Contains(message, "Insufficient credits")
  }

  /** The `except ValueError` clause: a marked ValueError becomes the credits error; every other
      exception is re-raised as it is. */
  function Reclassify(e: PyError): (r: PyError)
    ensures r == e || r == EmailGenerator.CreditsError
  {
    if IsValueError(e.kind) && CreditMarked(e.message) then EmailGenerator.CreditsError else e
  }

  /** A string contains itself. */
  lemma {:induction false} ContainsSelf(s: string)
    ensures Contains(s, s)
  {
    assert s[0..|s|] == s;
    assert OccursAt(s, s, 0);
  }

  /** The credits error comes out exactly for a marked ValueError (the credits error itself among
      them), and is idempotent: re-classifying changes nothing. */
  lemma {:induction false} ReclassifyMeaning(e: PyError)
    ensures Reclassify(e) == EmailGenerator.CreditsError <==>
      (IsValueError(e.kind) && CreditMarked(e.message)) || e == EmailGenerator.CreditsError
    ensures !(IsValueError(e.kind) && CreditMarked(e.message)) ==> Reclassify(e) == e
    ensures Reclassify(Reclassify(e)) == Reclassify(e)
  {
    ContainsSelf("INSUFFICIENT_CREDITS_ERROR");
    assert CreditMarked(EmailGenerator.CreditsError.message);
  }

  /** The override of langchain_email_generator.py:175-176: a truthy custom model is written into
      the environment as `OPENROUTER_MODEL`. */
  function Override(env: Environment, customModel: Option<string>): (r: Environment)
    ensures customModel.Some? && customModel.value != [] ==> GetEnvOr(r, "OPENROUTER_MODEL", GapAnalyser.DefaultModel) == customModel.value
    ensures forall k :: k != "OPENROUTER_MODEL" ==> GetEnv(r, k) == GetEnv(env, k)
    ensures customModel.None? || customModel.value == [] ==> r == env
  {
    if customModel.Some? && customModel.value != [] then env["OPENROUTER_MODEL" := customModel.value] else env
  }

  /** What one call leaves behind: its result and the process environment afterwards. */
  datatype Outcome = Outcome(result: Result<Fields>, env: Environment)

  /** One call of `run_email_generation_pipeline(analysis_id, custom_model)`. */
  function PipelineOf(env: Environment, analysisId: string, customModel: Option<string>, s: Services): Outcome {
    match GapAnalyser.FullPipelineOf(env, analysisId, s.upstream, s.gapProvider, s.decode)
    case Err(e) => Outcome(Err(Reclassify(e)), env)
    case Ok(enriched) =>
      var env' := Override(env, customModel);
      match EmailGenerator.EmailsOf(enriched, env', s.emailProvider, s.decode)
      case Err(e) => Outcome(Err(Reclassify(e)), env')
      case Ok(out) => Outcome(Ok(out), env')
  }

  /** A failure before the override leaves the environment alone, whatever model was asked for. */
  lemma {:induction false} EarlyFailureKeepsEnv(env: Environment, analysisId: string, customModel: Option<string>, s: Services)
    requires GapAnalyser.FullPipelineOf(env, analysisId, s.upstream, s.gapProvider, s.decode).Err?
    ensures PipelineOf(env, analysisId, customModel, s) ==
      Outcome(Err(Reclassify(GapAnalyser.FullPipelineOf(env, analysisId, s.upstream, s.gapProvider, s.decode).error)), env)
  {
  }

  /** Once the extraction succeeded, the override stays in the environment even if the email stage
      fails, and the email output reports the requested model. */
  lemma {:induction false} OverrideApplies(env: Environment, analysisId: string, c: string, s: Services)
    requires c != []
    requires GapAnalyser.FullPipelineOf(env, analysisId, s.upstream, s.gapProvider, s.decode).Ok?
    ensures var run := PipelineOf(env, analysisId, Some(c), s);
      run.env == env["OPENROUTER_MODEL" := c] &&
      (run.result.Ok? ==> Lookup(run.result.value, "model_used") == Some(JStr(c)))
  {
    var enriched := GapAnalyser.FullPipelineOf(env, analysisId, s.upstream, s.gapProvider, s.decode).value;
    var env' := OverrideSets(env, c);
    AfterExtraction(env, analysisId, Some(c), s);
    if EmailGenerator.EmailsOf(enriched, env', s.emailProvider, s.decode).Ok? {
      EmailGenerator.ModelUsed(enriched, env', s.emailProvider, s.decode);
    }
  }

  /** A non-empty custom model is written into the environment and is the model the email stage uses. */
  lemma {:induction false} OverrideSets(env: Environment, c: string) returns (env': Environment)
    requires c != []
    ensures env' == Override(env, Some(c)) == env["OPENROUTER_MODEL" := c]
    ensures EmailGenerator.EmailModel(env') == c
  {
    env' := env["OPENROUTER_MODEL" := c];
  }

  /** Once extraction and gap analysis succeeded, the call runs the email stage under the override. */
  lemma {:induction false} AfterExtraction(env: Environment, analysisId: string, customModel: Option<string>, s: Services)
    requires GapAnalyser.FullPipelineOf(env, analysisId, s.upstream, s.gapProvider, s.decode).Ok?
    ensures var enriched := GapAnalyser.FullPipelineOf(env, analysisId, s.upstream, s.gapProvider, s.decode).value;
      var env' := Override(env, customModel);
      var out := EmailGenerator.EmailsOf(enriched, env', s.emailProvider, s.decode);
      PipelineOf(env, analysisId, customModel, s).env == env' &&
      (out.Ok? ==> PipelineOf(env, analysisId, customModel, s).result == Ok(out.value)) &&
      (out.Err? ==> PipelineOf(env, analysisId, customModel, s).result == Err(Reclassify(out.error)))
  {
  }

  /** The override is sticky: after a call with a custom model, a later call without one behaves
      exactly as if that model were passed again, in the gap stage as in the email stage. */
  lemma {:induction false} OverridePersists(env: Environment, id1: string, id2: string, c: string, s1: Services, s2: Services)
    requires c != []
    requires GapAnalyser.FullPipelineOf(env, id1, s1.upstream, s1.gapProvider, s1.decode).Ok?
    ensures var after := PipelineOf(env, id1, Some(c), s1).env;
      PipelineOf(after, id2, None, s2) == PipelineOf(after, id2, Some(c), s2) &&
      GetEnvOr(after, "OPENROUTER_MODEL", GapAnalyser.DefaultModel) == c
  {
    OverrideApplies(env, id1, c, s1);
    var after := env["OPENROUTER_MODEL" := c];
    assert after["OPENROUTER_MODEL" := c] == after;
    assert Override(after, Some(c)) == Override(after, None);
    SameOverrideSameRun(after, id2, None, Some(c), s2);
  }

  /** Two calls whose overrides leave the same environment behave the same. */
  lemma {:induction false} SameOverrideSameRun(env: Environment, analysisId: string, m1: Option<string>,
                                               m2: Option<string>, s: Services)
    requires Override(env, m1) == Override(env, m2)
    ensures PipelineOf(env, analysisId, m1, s) == PipelineOf(env, analysisId, m2, s)
  {
  }

  /** A credits error from the email stage reaches the caller as the credits error. */
  lemma {:induction false} EmailCreditsSurface(env: Environment, analysisId: string, customModel: Option<string>, s: Services)
    requires GapAnalyser.FullPipelineOf(env, analysisId, s.upstream, s.gapProvider, s.decode).Ok?
    requires EmailGenerator.EmailsOf(GapAnalyser.FullPipelineOf(env, analysisId, s.upstream, s.gapProvider, s.decode).value,
                                     Override(env, customModel), s.emailProvider, s.decode) == Err(EmailGenerator.CreditsError)
    ensures PipelineOf(env, analysisId, customModel, s).result == Err(EmailGenerator.CreditsError)
  {
    ReclassifyMeaning(EmailGenerator.CreditsError);
  }

  /** As written, a failed gap-analysis call reaches the caller as `UnboundLocalError`: it is not
      a ValueError, so it is re-raised unchanged rather than as the credits error, the email stage
      never runs and the environment is left alone. */
  lemma {:induction false} GapCallFailureSurfaces(env: Environment, analysisId: string, customModel: Option<string>,
                                                  s: Services, i: nat)
    requires Extractor.MainExtractorOf(env, analysisId, s.upstream).Ok?
    requires GapAnalyser.CallFailsFor(Extractor.MainExtractorOf(env, analysisId, s.upstream).value.fields, env, s.gapProvider, i)
    ensures PipelineOf(env, analysisId, customModel, s) == Outcome(Err(GapAnalyser.UnboundResponse), env)
    ensures PipelineOf(env, analysisId, customModel, s).result != Err(EmailGenerator.CreditsError)
  {
    var record := Extractor.MainExtractorOf(env, analysisId, s.upstream).value;
    GapAnalyser.CallFailureAbortsStage(record.fields, env, s.gapProvider, s.decode, i);
    assert GapAnalyser.FullPipelineOf(env, analysisId, s.upstream, s.gapProvider, s.decode) == Err(GapAnalyser.UnboundResponse);
    assert Reclassify(GapAnalyser.UnboundResponse) == GapAnalyser.UnboundResponse;
  }

  /** A process: the environment that `os.environ` assignments change for every later call. */
  class Process {
    var env: Environment

    constructor (env: Environment)
      ensures this.env == env
    {
      this.env := env;
    }

    /** `run_email_generation_pipeline(analysis_id, custom_model)` */
    method RunEmailGenerationPipeline(analysisId: string, customModel: Option<string>, s: Services)
      returns (r: Result<PyDict>)
      modifies this
      ensures env == PipelineOf(old(env), analysisId, customModel, s).env
      ensures PipelineOf(old(env), analysisId, customModel, s).result.Ok? ==>
        r.Ok? && fresh(r.value) && r.value.entries == PipelineOf(old(env), analysisId, customModel, s).result.value
      ensures PipelineOf(old(env), analysisId, customModel, s).result.Err? ==>
        r == Err(PipelineOf(old(env), analysisId, customModel, s).result.error)
    {
      var enriched := GapAnalyser.RunFullPipeline(env, analysisId, s.upstream, s.gapProvider, s.decode);
      if enriched.Err? {
        return Err(Reclassify(enriched.error));
      }
      if customModel.Some? && customModel.value != [] {
        env := env["OPENROUTER_MODEL" := customModel.value];
      }
      var result := EmailGenerator.GenerateEmailAndSubject(enriched.value, env, s.emailProvider, s.decode);
      if result.Err? {
        return Err(Reclassify(result.error));
      }
      r := result;
    }
  }
}

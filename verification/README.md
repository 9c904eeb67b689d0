# Email Generator pipeline — a Dafny model

This project models the back end of the Email Generator app. The pipeline has three stages:

1. **Extraction** (`inital_analysis_data_extractor.py`). It checks that the upstream "initial analysis" of a
   company is complete. It then fetches the analysis document and projects it onto a six-key record:
   company, about, AI opportunities, pain points and goals, value-proposition angles, messaging hooks.
2. **Gap analysis** (`langchain_gap_analyser.py`). For each AI opportunity it asks an LLM for a gap analysis
   and pain points. The results are stored on the record, in place, under `ai_gap_analysis`.
3. **Email generation** (`langchain_email_generator.py`). For each gap item it asks an LLM for a cold email.
   It parses the reply defensively and substitutes a fallback email when the reply is unusable. When the
   provider reports exhausted credits, the whole batch is aborted.

`run_email_generation_pipeline` runs the three stages in order. When a model override is given, it is
written into the process environment, so it stays in force for later calls as well.

The model is organised in six modules, one per file:

- `python.dfy` (`Python`) holds the slice of Python's value model the code relies on:
  - JSON-shaped values. A dict is an association list, so insertion order and iteration over keys are faithful.
  - Exceptions, as `Result` values.
  - Truthiness, `in`, `dict.get`, subscripting and iteration.
  - The string builtins `strip` (with Python's full whitespace set), `replace`, `find`, `rfind` and slicing.
  - `os.getenv`.
  - A mutable dict object, `PyDict`.
- `gather.dfy` (`Gather`) models `asyncio.gather`. Results come back in argument order. When items fail, the
  first failing item in input order is reported.
- `extractor.dfy` (`Extractor`) models the extraction stage. It is imperative, like the source: `CheckStatus`
  with its `FLAG` variable, `Collect` (the four `for … append` loops) and `GetInitialAnalysisData`. Each of
  them is proved equal to a specification function, and the lemmas state what those functions mean.
- `gap_analyser.dfy` (`GapAnalyser`) models the gap-analysis stage. `GenerateGapAnalysis` updates a `PyDict`
  in place and returns the same object.
- `email_generator.dfy` (`EmailGenerator`) covers `safe_parse_json`, `normalize_email_output`,
  `generate_for_gap` and the batch assembly.
- `pipeline.dfy` (`Pipeline`) has a `Process` class whose `env` field is the process environment that
  `os.environ[...] = ...` changes.

Outside effects are parameters:

- the answer of the status request and of the document fetch (`Extractor.Upstream`);
- the outcome of each LLM call, given by a model name and the item's position (`GapAnalyser.Provider`);
- `json.loads` (`GapAnalyser.Decoder`, which gives None when it raises).

In a few places the code does less than its own comments, docstrings and neighbouring code suggest.
The model follows the code there:

- **Unparsable gap-analysis reply.** The handler's `getattr(response, 'content', 'N/A')`
  (`langchain_gap_analyser.py:149`) suggests an `"N/A"` placeholder. Whenever that line runs without
  raising, `response` holds the reply, so the placeholder carries the stripped reply text
  (`GapAnalyser.ProcessOpportunityCases`).
- **Failed gap-analysis call.** The batch does not continue with a placeholder. As written, the handler
  raises `UnboundLocalError`, gather aborts the stage, and `run_email_generation_pipeline` re-raises that
  error unchanged, not as the credits error (`GapAnalyser.CallFailureAbortsStage`,
  `Pipeline.GapCallFailureSurfaces`; see Findings).
- **Empty email fields.** The docstring of `normalize_email_output` (`langchain_email_generator.py:36-39`)
  shows every email with a `subject_line` and an `email_body`. The code can produce an empty `email_body`,
  from a blank reply or from a parsed dict without that key. A parsed dict may also lack `subject_line`;
  only the absence of raw newlines is guaranteed (`EmailGenerator.EmailsAreFlat`).
- **No early stop on credit exhaustion.** One item's credits error does not stop the others inside the
  batch: `asyncio.gather` does not cancel the sibling tasks, and only `asyncio.run`
  (`langchain_email_generator.py:166`) cancels those still pending once the stage has raised. The model
  states only which error the batch raises (`EmailGenerator.BatchCreditFailure`), not which calls were issued.
- **The override outlives the run.** The comment at `langchain_email_generator.py:174` calls the override
  temporary. The code leaves it in `os.environ` for every later call, including the next gap-analysis
  stage (`Pipeline.OverridePersists`).

## Model

| member | source | states |
|---|---|---|
| Extractor.StatusUrlParts | inital_analysis_data_extractor.py:20 | the status URL is the base, a slash, the analysis id and `/files/initial_analysis`, each at its own position |
| Extractor.StatusUrlInjective | inital_analysis_data_extractor.py:20 | different analysis ids give different status URLs |
| Extractor.CompletionFlagMeaning | inital_analysis_data_extractor.py:31-34 | the or-chain is true exactly when `overall_status` is `initial_complete`, or both keys are present and `status` or `overall_status` is `completed`; it raises exactly when it reads an absent key or the data is not a dict |
| Extractor.StatusUrl | inital_analysis_data_extractor.py:20 | the status URL; its meaning is stated by `StatusUrlParts` and `StatusUrlInjective` |
| Extractor.CompletionFlag | inital_analysis_data_extractor.py:31-34 | the completion test; its meaning is stated by `CompletionFlagMeaning` |
| Extractor.StatusCheckOf | inital_analysis_data_extractor.py:26-48 | `get_inital_analysis_status`; its meaning is stated by `StatusCheckMeaning` |
| Extractor.CheckStatus | inital_analysis_data_extractor.py:26-48 | the imperative status check with its `FLAG` variable computes `StatusCheckOf` |
| Extractor.StatusCheckMeaning | inital_analysis_data_extractor.py:26-48 | completed iff the answer is 200 and its body reports completion, and then the data is that body; a non-200 answer returns `False`; a 200 answer whose decoded body does not report completion returns `False`, unless the or-chain reads a missing key or a non-dict, and then its `KeyError` (for a dict) or `TypeError` propagates; a failed request or an undecodable body leaves `FLAG` unbound and raises `UnboundLocalError` |
| Extractor.OpportunityOf | inital_analysis_data_extractor.py:63-67 | the projection of one hypothesis succeeds iff the item is a dict (`item.get`) |
| Extractor.AngleOf | inital_analysis_data_extractor.py:73-74 | the projection of one angle succeeds iff the item is a dict |
| Extractor.PainPointOf | inital_analysis_data_extractor.py:80-84 | the projection of one pain point succeeds iff the item is a dict |
| Extractor.HookOf | inital_analysis_data_extractor.py:90-91 | the projection of one contact succeeds iff the item is a dict |
| Extractor.ProjectedMeaning | inital_analysis_data_extractor.py:59-91 | a section loop succeeds iff the section is a list of dicts, or the empty `{}`/`""` default; a list yields one projected entry per item in order; the default yields `[]` |
| Extractor.Collect | inital_analysis_data_extractor.py:63-67 | the `for … append` loop returns the projected list, or the first item's exception, exactly as the specification of one section loop says |
| Extractor.Record | inital_analysis_data_extractor.py:93-100 | `json_output` has exactly the six keys in source order, each bound to its value |
| Extractor.RecordOf | inital_analysis_data_extractor.py:55-102 | a successful projection is a dict with exactly the six record keys |
| Extractor.RecordShape | inital_analysis_data_extractor.py:55-56 | `company` is `doc.get("company", {}).get("name", "")` and `about` is `doc.get("more_info", {})` |
| Extractor.RecordParts | inital_analysis_data_extractor.py:55-100 | a successful record is assembled from the company name, `more_info` and the four section loops' results |
| Extractor.RecordSucceeds | inital_analysis_data_extractor.py:52-100 | projection succeeds iff the document and its company entry are dicts and each of the four sections is walkable |
| Extractor.OpportunitiesInOrder | inital_analysis_data_extractor.py:59-67 | one `{"solution", "why"}` per hypothesis in document order, from `hypothesis` and `why` with `""` defaults; an absent section gives `[]` |
| Extractor.AnglesInOrder | inital_analysis_data_extractor.py:70-74 | one angle per item in order, `""` when missing; an absent section gives `[]` |
| Extractor.PainPointsInOrder | inital_analysis_data_extractor.py:78-84 | one `{"pain_point", "goal"}` per item in order, from `item` and `why`; an absent section gives `[]` |
| Extractor.HooksInOrder | inital_analysis_data_extractor.py:87-91 | one messaging hook per contact in order, `""` when missing; an absent section gives `[]` |
| Extractor.AnalysisDataOf | inital_analysis_data_extractor.py:50-53 | following `presigned_url` and projecting yields, on success, a dict with exactly the six record keys |
| Extractor.GetInitialAnalysisData | inital_analysis_data_extractor.py:50-102 | the imperative extraction (lookups, four loops, record) computes `AnalysisDataOf` |
| Extractor.MainExtractorOf | inital_analysis_data_extractor.py:9-24 | on success `main_extractor` returns a dict with exactly the six record keys |
| Extractor.MainExtractor | inital_analysis_data_extractor.py:9-24 | the method computes `MainExtractorOf` |
| Extractor.MissingTokenFailsFirst | inital_analysis_data_extractor.py:11-14 | an unset or empty bearer token raises `ValueError` before any request, whatever the upstream would answer |
| Extractor.ExtractionNeedsCompletion | inital_analysis_data_extractor.py:20-23 | the document is fetched only after a completed check on the status URL with the bearer header; a bare `False` makes the tuple unpacking raise `TypeError`; a raised check propagates |
| Gather.GatherAll | langchain_gap_analyser.py:154-155 | gather succeeds iff every item does, giving one result per item in argument order; on failure the error is that of the first failing item |
| Gather.GatherStep | langchain_gap_analyser.py:155 | gathering one more item extends the earlier results by that item's result |
| Gather.FirstFailure | langchain_email_generator.py:154 | the earliest failing item decides the exception gather raises |
| Gather.UniformFailure | langchain_email_generator.py:154 | if every item either succeeds or raises the same exception, a failing batch raises that exception |
| GapAnalyser.ProcessOpportunityCases | langchain_gap_analyser.py:119-152 | as written, a missing `solution`/`why` raises `KeyError` or `TypeError`; a decoded reply is the item verbatim; an undecodable reply gives the placeholder with the stripped reply text; a failed call raises `UnboundLocalError` |
| GapAnalyser.ProcessOpportunityIntendedCases | langchain_gap_analyser.py:142-152 | corrected, a well-formed opportunity always yields an item, and a failed call yields the `"N/A"` placeholder |
| GapAnalyser.FixAgreesOnReplies | langchain_gap_analyser.py:142-150 | the correction changes nothing when the call returned |
| GapAnalyser.GenerateGapAnalysis | langchain_gap_analyser.py:96-158 | on success `data` itself is updated to `GapAnalysisOf` (the code as written) and returned; on failure, including a failed call, `data` is left unchanged and the exception is returned |
| GapAnalyser.OneResultPerOpportunity | langchain_gap_analyser.py:154-157 | a batch that completes had every call return; it holds one result per opportunity in input order, each the as-written `process_opportunity` result for that opportunity; no `ai_opportunities` gives `[]` |
| GapAnalyser.OnlyGapKeyChanges | langchain_gap_analyser.py:157 | only `ai_gap_analysis` is set, to the gathered results; every other key keeps its value, no key is lost and at most one is added |
| GapAnalyser.MissingKeyFailsFirst | langchain_gap_analyser.py:99-102 | an unset or empty API key raises `ValueError` before any call, whatever the provider would do |
| GapAnalyser.CallFailureAbortsBatch | langchain_gap_analyser.py:142-155 | as written, one failed call among well-formed opportunities makes the whole batch raise `UnboundLocalError` |
| GapAnalyser.IntendedBatchComplete | langchain_gap_analyser.py:142-155 | corrected, well-formed opportunities always give a complete batch; each failed call yields the `"N/A"` placeholder |
| GapAnalyser.CallFailureAbortsStage | langchain_gap_analyser.py:96-157 | as written, with the key set and well-formed opportunities, one failed call makes the whole stage raise `UnboundLocalError` |
| GapAnalyser.IntendedStageComplete | langchain_gap_analyser.py:96-157 | corrected, with the key set and well-formed opportunities, the stage always succeeds and stores one item per opportunity, the `"N/A"` placeholder for each failed call |
| GapAnalyser.ProcessOpportunity | langchain_gap_analyser.py:119-152 | `process_opportunity` as written; its meaning is stated by `ProcessOpportunityCases` |
| GapAnalyser.ProcessOpportunityIntended | langchain_gap_analyser.py:142-152 | `process_opportunity` corrected; its meaning is stated by `ProcessOpportunityIntendedCases` and `FixAgreesOnReplies` |
| GapAnalyser.GapAnalysisOf | langchain_gap_analyser.py:96-158 | `generate_gap_analysis_async` as written; its meaning is stated by `MissingKeyFailsFirst`, `OneResultPerOpportunity`, `OnlyGapKeyChanges` and `CallFailureAbortsStage` |
| GapAnalyser.GapAnalysisIntendedOf | langchain_gap_analyser.py:96-158 | the same stage with the corrected `process_opportunity`; its meaning is stated by `IntendedStageComplete` |
| GapAnalyser.Placeholder | langchain_gap_analyser.py:146-150 | the handler's fallback item; what goes into it is stated by `ProcessOpportunityCases` (the stripped reply text), `ProcessOpportunityIntendedCases` and `IntendedStageComplete` (`"N/A"`) |
| GapAnalyser.FullPipelineOf | langchain_gap_analyser.py:163-167 | `run_full_pipeline`; its meaning is stated by `FullPipelineKeys`, `Pipeline.EarlyFailureKeepsEnv` and `Pipeline.GapCallFailureSurfaces` |
| GapAnalyser.FullPipelineKeys | langchain_gap_analyser.py:157-167 | on success the result is the extracted record's six entries, unchanged and in order, with `ai_gap_analysis` appended holding the gathered results |
| GapAnalyser.RunFullPipeline | langchain_gap_analyser.py:163-167 | `run_full_pipeline` returns a new dict whose entries are the extracted record with `ai_gap_analysis` set by the as-written stage, or the exception of extraction or of that stage (`UnboundLocalError` after a failed call) |
| EmailGenerator.SafeParseJson | langchain_email_generator.py:13-33 | `safe_parse_json`; its meaning is stated by `SafeParseBlank`, `SafeParseWhole`, `SafeParseRecovers` and `SafeParseNoSpan` |
| EmailGenerator.Recover | langchain_email_generator.py:25-33 | the recovery branch; its meaning is stated by `RecoverSpan`, `SafeParseRecovers` and `SafeParseNoSpan` |
| EmailGenerator.SafeParseBlank | langchain_email_generator.py:18-19 | empty or all-whitespace text gives None whatever `json.loads` would say |
| EmailGenerator.SafeParseWhole | langchain_email_generator.py:21-22 | text that decodes as a whole is returned as decoded |
| EmailGenerator.SafeParseRecovers | langchain_email_generator.py:23-30 | otherwise the span from the first `{` through the last `}` is decoded, and None is returned when that raises |
| EmailGenerator.RecoverSpan | langchain_email_generator.py:26-30 | `find`/`rfind` plus the slice select exactly that span |
| EmailGenerator.SafeParseNoSpan | langchain_email_generator.py:26-33 | when no `}` follows the first `{`, the slice is empty (the `end != -1` test never fails) and the result is None |
| EmailGenerator.NormalizeEmailOutput | langchain_email_generator.py:35-55 | normalisation fails exactly when `in` is applied to a truthy bool or int, and then with `TypeError` |
| EmailGenerator.NormalizeDict | langchain_email_generator.py:40-55 | a dict: empty gives no emails; one holding `emails` is returned as is; one holding `subject_line` and `email_body` is wrapped; anything else gives no emails |
| EmailGenerator.NormalizeList | langchain_email_generator.py:52-53 | a non-empty list of dicts with `subject_line` becomes the `emails` list |
| EmailGenerator.NormalizeShape | langchain_email_generator.py:35-55 | an input holding `"emails"` is returned unchanged, whatever it is; any other input comes back as a dict whose only key is `emails` holding a list; a falsy input gives `{"emails": []}`; normalising twice changes nothing |
| EmailGenerator.NormalizeUnmatched | langchain_email_generator.py:43-55 | a list or str that holds no `"emails"`, not both `"subject_line"` and `"email_body"`, and is not a non-empty list of email dicts gives `{"emails": []}` |
| EmailGenerator.EmailsObjectNormal | langchain_email_generator.py:157 | the batch output `{"emails": [...]}` passes through unchanged |
| EmailGenerator.Flatten | langchain_email_generator.py:137 | a flattened body holds no newline and neither starts nor ends with whitespace |
| EmailGenerator.CreditExhausted | langchain_email_generator.py:141 | the credit-marker test; its meaning is stated by `Unmarked`, `OwnErrorsUnmarked` and `GenerateForGapErrors` |
| EmailGenerator.TryGenerate | langchain_email_generator.py:129-137 | the `try` block; its meaning is stated by `OwnErrorsUnmarked`, `UnusableFallsBack` and `ParsedEmailKept` |
| EmailGenerator.UseParsed | langchain_email_generator.py:134-137 | the use of the parsed reply; its meaning is stated by `ParsedEmailKept` and `UnusableFallsBack` |
| EmailGenerator.Handle | langchain_email_generator.py:139-149 | the `except` handler; its meaning is stated by `FallbackOnCallFailure`, `FallbackOnUnusableReply` and `GenerateForGapErrors` |
| EmailGenerator.GenerateForGap | langchain_email_generator.py:100-151 | `generate_for_gap`; its meaning is stated by `GenerateForGapErrors`, `FallbackOnCallFailure`, `FallbackOnUnusableReply`, `ParsedEmailKept` and `EmailsAreFlat` |
| EmailGenerator.Fallback | langchain_email_generator.py:145-149 | the fallback email; its meaning is stated by `FallbackOnCallFailure`, `FallbackOnUnusableReply` and `FallbackFlat` |
| EmailGenerator.SliceError | langchain_email_generator.py:118 | slicing `pain_points` when it is neither a list nor a str raises `TypeError`; when it does is stated by `GenerateForGapErrors` |
| EmailGenerator.Unmarked | langchain_email_generator.py:141 | a message that contains neither `E` nor `I` holds neither credit marker |
| EmailGenerator.OwnErrorsUnmarked | langchain_email_generator.py:134-141 | the exceptions the `try` block raises itself (no valid JSON, no `get`, no `replace`) never hold a credit marker |
| EmailGenerator.GenerateForGapErrors | langchain_email_generator.py:100-151 | a gap item that is not a dict, or whose `pain_points` cannot be sliced, raises `AttributeError`/`TypeError`; otherwise the item fails iff the call failed with a credit marker, and then with `INSUFFICIENT_CREDITS_ERROR` |
| EmailGenerator.FallbackOnCallFailure | langchain_email_generator.py:139-149 | a failed call without a credit marker gives subject "Quick AI Insight for You" and body "Unable to generate email." |
| EmailGenerator.FallbackOnUnusableReply | langchain_email_generator.py:131-149 | a reply that gives no dict with a str `email_body` gives the fallback email whose body is the flattened reply |
| EmailGenerator.UnusableFallsBack | langchain_email_generator.py:134-149 | an unusable parse ends in the fallback built from `raw_output` |
| EmailGenerator.ParsedEmailKept | langchain_email_generator.py:137 | a usable parsed dict is kept: its body is flattened, every other key keeps its value and no key is lost |
| EmailGenerator.EmailsAreFlat | langchain_email_generator.py:128-151 | every email produced, fallback or not, is a dict whose `email_body` is a str with no newline and no surrounding whitespace |
| EmailGenerator.Finalize | langchain_email_generator.py:156-159 | the normalise call and the two item assignments; their meaning is stated by `FinalizeOk`, `FinishKeys` and `EmailsOutputShape` |
| EmailGenerator.FinishKeys | langchain_email_generator.py:157-159 | setting `company` and then `model_used` on `{"emails": ...}` appends both keys, in that order |
| EmailGenerator.EmailsOutputShape | langchain_email_generator.py:153-161 | the output has exactly the keys `emails`, `company`, `model_used`; it holds one email per gap item in input order, the record's company (default `""`) and the model from the environment |
| EmailGenerator.EmailsMissingKeyFailsFirst | langchain_email_generator.py:57-63 | an unset or empty API key makes the email stage raise `ValueError` before any call, whatever the record or the provider |
| EmailGenerator.BatchCreditFailure | langchain_email_generator.py:139-154 | with the key set and every prompt buildable, the batch fails iff some call failed with a credit marker, and then with `INSUFFICIENT_CREDITS_ERROR` |
| EmailGenerator.EmailsOf | langchain_email_generator.py:57-161 | `generate_email_and_subject_async`; its meaning is stated by `EmailsMissingKeyFailsFirst`, `EmailsOutputShape` and `BatchCreditFailure` |
| EmailGenerator.GenerateEmailAndSubject | langchain_email_generator.py:57-166 | the method returns a new dict equal to `EmailsOf`, or its exception; `data` is only read |
| Pipeline.CreditMarked | langchain_email_generator.py:184 | the marker test of the `except ValueError` clause; its meaning is stated by `ReclassifyMeaning` |
| Pipeline.Reclassify | langchain_email_generator.py:182-186 | the clause re-raises the exception unchanged or raises the credits error |
| Pipeline.ReclassifyMeaning | langchain_email_generator.py:182-190 | the credits error comes out exactly for a `ValueError` carrying either marker (the credits error among them); every other exception is re-raised unchanged; re-classifying is idempotent |
| Pipeline.Override | langchain_email_generator.py:175-176 | a non-empty custom model becomes `OPENROUTER_MODEL`; no other variable changes; no or an empty custom model changes nothing |
| Pipeline.PipelineOf | langchain_email_generator.py:170-190 | one call of `run_email_generation_pipeline`; its meaning is stated by `EarlyFailureKeepsEnv`, `OverrideApplies`, `OverridePersists`, `EmailCreditsSurface` and `GapCallFailureSurfaces` |
| Pipeline.EarlyFailureKeepsEnv | langchain_email_generator.py:171-176 | a failure in extraction or gap analysis leaves the environment unchanged, whatever model was asked for |
| Pipeline.OverrideApplies | langchain_email_generator.py:172-178 | after extraction succeeds the override is in the environment even if email generation fails, and the output reports the requested model |
| Pipeline.OverridePersists | langchain_email_generator.py:175-178 | after a call with a custom model, a later call without one behaves exactly like a call with that model again, in the gap stage as in the email stage |
| Pipeline.EmailCreditsSurface | langchain_email_generator.py:178-185 | a credits error from email generation reaches the caller as the credits error |
| Pipeline.GapCallFailureSurfaces | langchain_email_generator.py:170-190 | after a successful extraction, one failed gap-analysis call among well-formed opportunities reaches the caller as `UnboundLocalError`, not as the credits error, and the environment is unchanged |
| Pipeline.Process.RunEmailGenerationPipeline | langchain_email_generator.py:170-190 | the method returns `PipelineOf`'s result (with the gap stage as written) and leaves `PipelineOf`'s environment in the process |
| Python.Strip | langchain_email_generator.py:18 | `strip` gives an infix of its input with only whitespace before and after it; the result is empty iff the input is all whitespace, and otherwise starts and ends on non-whitespace |
| Python.Find | langchain_email_generator.py:26 | `find` is -1 iff the character is absent, else its first index |
| Python.RFind | langchain_email_generator.py:27 | `rfind` is -1 iff the character is absent, else its last index |
| Python.SliceIndex | langchain_email_generator.py:29 | a slice bound in range is kept; a negative one counts from the end; one past either end is clamped to `0` or the length |
| Python.Slice | langchain_email_generator.py:29 | with bounds in range `s[start:stop]` is the infix between them; a stop past the end gives the rest; crossed bounds or a start past the end give `""` |
| Python.Update | langchain_email_generator.py:137 | item assignment binds the key, leaves every other key alone, and keeps an existing key in place or appends a new one |
| Python.UpdateAppends | langchain_email_generator.py:158-159 | assigning a key the dict lacks appends the pair |
| Python.In | langchain_email_generator.py:44 | `in` tests dict keys, list elements or substrings, and raises `TypeError` on anything else |
| Python.Iter | langchain_email_generator.py:153 | iterating a list yields its elements, a dict its keys, a str its characters; anything else raises `TypeError` |
| Python.Subscript | langchain_gap_analyser.py:122-123 | `v[k]` succeeds iff v is a dict holding k, and then gives k's value; otherwise it raises `KeyError` on a dict and `TypeError` on anything else |
| Python.Truthy | langchain_email_generator.py:40 | `bool(v)`; `TruthyMeaning` states that the falsy values are exactly None, False, 0, `""`, `[]` and `{}` |
| Python.TruthyMeaning | langchain_email_generator.py:40 | the falsy values are exactly None, False, 0, `""`, `[]` and `{}` (used at lines 40, 134 and 175) |
| Python.Replace | langchain_email_generator.py:137 | `replace` keeps the length and swaps every occurrence of the character, and only those |
| Python.Contains | langchain_email_generator.py:141 | substring `in`; its meaning is stated by `FirstCharAbsent` and `Pipeline.ContainsSelf` |
| Python.GetEnvOr | langchain_email_generator.py:58 | `os.getenv` with a default gives the variable's value when it is set, else the default |
| Python.Get | langchain_email_generator.py:101-104 | `get` succeeds iff the value is a dict, and then gives the key's value or the default |
| Python.FirstCharAbsent | langchain_email_generator.py:141 | a string without a marker's first character does not contain the marker |

## Left out

- `app.py` and `static/app.js` are not part of this model.
- Prompts, system messages, temperatures, the `print` diagnostics, `load_dotenv` and `OPENROUTER_BASE_URL` are left out. None of them affects a result; the base URL only reaches the LLM client.
- The LLM client is modelled only by the outcome of each call. Each outcome is a function of the model name and the item's position. Client construction errors are left out.
- The values read only for prompts (`company`, `ai_solution`, `gap_analysis`, `why`) are left out. Only the exceptions their reads can raise are modelled.
- `json.loads` is a parameter, so nothing is assumed about which texts decode. `RecursionError` on deeply nested input is left out. Lemmas that need `json.loads("")` to raise take it as a precondition.
- JSON floats are left out of the value model.
- HTTP is modelled only by the outcome of each request. Requests' `JSONDecodeError` is treated as a `RequestException`, as in `requests` 2.27 and later.
- `asyncio.run` and the event loop are left out. Concurrent tasks, and the race on the shared model override across tasks, are left out; calls on one `Process` are sequential.
- Gather.GatherAll: when several items fail, Python raises the exception of the item that fails first in time. The model reports the first failing item in input order. The lemmas that decide the error (`UniformFailure`, `BatchCreditFailure`, `CallFailureAbortsBatch`) hold in every order, because there all failures are the same exception.
- EmailGenerator.SliceError: on Python 3.12 and later, slicing a dict raises `KeyError`, not `TypeError`.
- Exceptions raised by the LLM client are modelled by their message only (`str(e)`), because the `except Exception` handler looks at nothing else.

## Findings

| source | as written | input that shows it | evidently intended | confidence | as-written member | corrected member |
|---|---|---|---|---|---|---|
| langchain_gap_analyser.py:142-150 | `response` is first assigned inside the `try`. When `llm.ainvoke` raises, the handler's `getattr(response, 'content', 'N/A')` raises `UnboundLocalError`, and gather aborts the whole batch. | opportunities that have `solution` and `why`, one of whose calls fails, e.g. with HTTP 402 | `response = None` before the `try`, as the email generator has it: the item becomes the placeholder with `gap_analysis` `"N/A"` and the batch continues | high; not executed | GapAnalyser.CallFailureAbortsStage | GapAnalyser.IntendedStageComplete |

The gap-analysis stage of the model (`GapResults`, `GapAnalysisOf`, `GenerateGapAnalysis`, `FullPipelineOf`,
`RunFullPipeline` and the pipeline) follows the code as written, with `ProcessOpportunity`. The corrected stage
is kept alongside it as `ProcessOpportunityIntended`, `GapResultsIntended` and `GapAnalysisIntendedOf`.

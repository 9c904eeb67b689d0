/** Fetching and projecting the upstream "initial analysis" record (inital_analysis_data_extractor.py).
    The HTTP calls are inputs: `statusAt(url, authorization)` is what `requests.get` on the status
    URL gives, `fetch(url)` is what `requests.get(url).json()` gives for the presigned URL. */
module Extractor {
  import opened Python
  import opened Gather

  const DefaultBaseUrl := "https://biz-api.log1.com/api/v1/analyze"
  const StatusSuffix := "/files/initial_analysis"

  /** The status request: it raised a RequestException, or it answered with a status code and a
      body; `body` is None when `.json()` raised (requests' JSONDecodeError is a RequestException). */
  datatype StatusOutcome = RequestFailed(message: string) | Responded(code: int, body: Option<Json>)

  /** What `get_inital_analysis_status` does: raise, return `False`, or return `(True, status_data)`. */
  datatype StatusCheck = Raised(error: PyError) | NotCompleted | Completed(data: Json)

  datatype Upstream = Upstream(statusAt: (string, string) -> StatusOutcome, fetch: Json -> Result<Json>)

  const MissingToken := PyError(ValueError, "API_BEARER_TOKEN is not set in environment variables")
  /** The test of `FLAG` (inital_analysis_data_extractor.py:43) when no branch assigned it. */
  const UnboundFlag := PyError(UnboundLocalError,
    "cannot access local variable 'FLAG' where it is not associated with a value")
  /** Unpacking a bare `False` into two names (inital_analysis_data_extractor.py:22). */
  const UnpackFalse := PyError(TypeError, "cannot unpack non-iterable bool object")

  // ---------- status check ----------

  function StatusUrl(base: string, analysisId: string): string {
    base + "/" + analysisId + StatusSuffix
  }

  /** The status URL is the base, a slash, the id and the fixed suffix, so it determines the id. */
  lemma {:induction false} StatusUrlParts(base: string, analysisId: string)
    ensures var url := StatusUrl(base, analysisId);
      |url| == |base| + 1 + |analysisId| + |StatusSuffix| &&
      url[..|base|] == base && url[|base|] == '/' &&
      url[|base| + 1..|url| - |StatusSuffix|] == analysisId &&
      url[|url| - |StatusSuffix|..] == StatusSuffix
  {
    var url := StatusUrl(base, analysisId);
    assert url == base + ("/" + analysisId + StatusSuffix);
    assert url[|base| + 1..] == analysisId + StatusSuffix;
  }

  lemma {:induction false} StatusUrlInjective(base: string, id1: string, id2: string)
    requires StatusUrl(base, id1) == StatusUrl(base, id2)
    ensures id1 == id2
  {
    StatusUrlParts(base, id1);
    StatusUrlParts(base, id2);
  }

  /** The completion test of inital_analysis_data_extractor.py:31: the overall status is
      `initial_complete`, or the status is `completed`, or the overall status is `completed`. The
      terms are evaluated left to right, each subscript raising when its key is missing. */
  function CompletionFlag(statusData: Json): Result<bool> {
    var overall :- Subscript(statusData, "overall_status");
    if overall == JStr("initial_complete") then Ok(true)
    else
      var status :- Subscript(statusData, "status");
      Ok(status == JStr("completed") || overall == JStr("completed"))
  }

  /** The completion condition spelled out on the dict. */
  predicate ReportsCompletion(statusData: Json) {
    statusData.JObject? &&
    var f := statusData.fields;
    Lookup(f, "overall_status") == Some(JStr("initial_complete")) ||
    (Lookup(f, "overall_status").Some? && Lookup(f, "status").Some? &&
     (Lookup(f, "status") == Some(JStr("completed")) || Lookup(f, "overall_status") == Some(JStr("completed"))))
  }

  /** The or-chain raises exactly when it reads a key that is absent (or the data is not a dict). */
  lemma {:induction false} CompletionFlagMeaning(statusData: Json)
    ensures CompletionFlag(statusData) == Ok(true) <==> ReportsCompletion(statusData)
    ensures CompletionFlag(statusData).Err? <==>
      !statusData.JObject? || Lookup(statusData.fields, "overall_status").None? ||
      (Lookup(statusData.fields, "overall_status") != Some(JStr("initial_complete")) &&
       Lookup(statusData.fields, "status").None?)
  {
  }

  function StatusCheckOf(response: StatusOutcome): StatusCheck {
    match response
    case RequestFailed(_) => Raised(UnboundFlag)
    case Responded(code, body) =>
      if code != 200 then NotCompleted
      else
        match body
        case None => Raised(UnboundFlag)
        case Some(data) =>
          match CompletionFlag(data)
          case Err(e) => Raised(e)
          case Ok(done) => if done then Completed(data) else NotCompleted
  }

  /** `get_inital_analysis_status`: FLAG is set only on a 200 answer whose body decodes. */
  method CheckStatus(response: StatusOutcome) returns (r: StatusCheck)
    ensures r == StatusCheckOf(response)
  {
    var flag: Option<int> := None;
    var statusData := JNull;
    match response {
      case RequestFailed(_) =>
      case Responded(code, body) =>
        if code != 200 {
          return NotCompleted;
        }
        if body.Some? {
          statusData := body.value;
          var overall := Subscript(statusData, "overall_status");
          if overall.Err? {
            return Raised(overall.error);
          }
          if overall.value == JStr("initial_complete") {
            flag := Some(1);
          } else {
            var status := Subscript(statusData, "status");
            if status.Err? {
              return Raised(status.error);
            }
            if status.value == JStr("completed") || overall.value == JStr("completed") {
              flag := Some(1);
            } else {
              flag := Some(0);
            }
          }
        }
    }
    if flag.None? {
      return Raised(UnboundFlag);
    }
    if flag.value != 1 {
      return NotCompleted;
    }
    return Completed(statusData);
  }

  // ---------- projection of the analysis document ----------

  /** One AI opportunity (inital_analysis_data_extractor.py:63-67): the hypothesis as `solution` and
      its reason as `why`, each `""` when missing. */
  function OpportunityOf(item: Json): (r: Result<Json>)
    ensures r.Ok? <==> item.JObject?
  {
    match item
    case JObject(f) => Ok(JObject([("solution", GetDefault(f, "hypothesis", JStr(""))), ("why", GetDefault(f, "why", JStr("")))]))
    case _ => Err(AttributeErrorOf(item, "get"))
  }

  /** One value-proposition angle (inital_analysis_data_extractor.py:73-74), `""` when missing. */
  function AngleOf(item: Json): (r: Result<Json>)
    ensures r.Ok? <==> item.JObject?
  {
    Get(item, "angle", JStr(""))
  }

  /** One pain point (inital_analysis_data_extractor.py:80-84): the item as `pain_point` and its
      reason as `goal`, each `""` when missing. */
  function PainPointOf(item: Json): (r: Result<Json>)
    ensures r.Ok? <==> item.JObject?
  {
    match item
    case JObject(f) => Ok(JObject([("pain_point", GetDefault(f, "item", JStr(""))), ("goal", GetDefault(f, "why", JStr("")))]))
    case _ => Err(AttributeErrorOf(item, "get"))
  }

  /** One contact's messaging hook (inital_analysis_data_extractor.py:90-91), `""` when missing. */
  function HookOf(item: Json): (r: Result<Json>)
    ensures r.Ok? <==> item.JObject?
  {
    Get(item, "messaging_hook", JStr(""))
  }

  function Ignoring(project: Json -> Result<Json>): (nat, Json) -> Result<Json> {
    (i: nat, x: Json) => project(x)
  }

  /** One section loop: an empty list, then each item's projection appended in turn. */
  function Projected(section: Json, project: Json -> Result<Json>): Result<seq<Json>> {
    var items :- Iter(section);
    GatherAll(items, Ignoring(project))
  }

  /** A section the loop can walk: a list of dicts, or an empty dict or str (the `{}` default). */
  predicate Walkable(section: Json) {
    (section.JArray? && forall k :: 0 <= k < |section.items| ==> section.items[k].JObject?) ||
    section == JObject([]) || section == JStr("")
  }

  /** For a projection defined on exactly the dicts, the loop succeeds iff the section is walkable,
      and then yields one projected entry per item, in order. */
  lemma {:induction false} ProjectedMeaning(section: Json, project: Json -> Result<Json>)
    requires forall x :: project(x).Ok? <==> x.JObject?
    ensures Projected(section, project).Ok? <==> Walkable(section)
    ensures section.JArray? && Projected(section, project).Ok? ==>
      (|Projected(section, project).value| == |section.items| &&
       forall k :: 0 <= k < |section.items| ==>
         Projected(section, project).value[k] == project(section.items[k]).value)
    ensures section == JObject([]) || section == JStr("") ==> Projected(section, project) == Ok([])
  {
    var run := Ignoring(project);
    match section
    case JObject(f) =>
      if f != [] {
        var items := Iter(section).value;
        assert !run(0, items[0]).Ok?;
      }
    case JStr(s) =>
      if s != [] {
        var items := Iter(section).value;
        assert !run(0, items[0]).Ok?;
      }
    case JArray(a) =>
      assert forall k :: 0 <= k < |a| ==> (run(k, a[k]).Ok? <==> a[k].JObject?);
    case _ =>
  }

  /** One loop of `get_inital_analysis_data`. */
  method Collect(section: Json, project: Json -> Result<Json>) returns (r: Result<seq<Json>>)
    ensures r == Projected(section, project)
  {
    var it := Iter(section);
    if it.Err? {
      return Err(it.error);
    }
    var items := it.value;
    var run := Ignoring(project);
    var out: seq<Json> := [];
    var i := 0;
    while i < |items|
      invariant 0 <= i <= |items|
      invariant GatherAll(items[..i], run) == Ok(out)
    {
      var p := project(items[i]);
      GatherStep(items, run, i);
      if p.Err? {
        assert forall j :: 0 <= j < i ==> items[..i][j] == items[j];
        FirstFailure(items, run, i);
        return Err(p.error);
      }
      out := out + [p.value];
      i := i + 1;
    }
    assert items[..i] == items;
    r := Ok(out);
  }

  /** The section under `key`, `{}` when absent. */
  function Section(doc: Fields, key: string): Json {
    GetDefault(doc, key, JObject([]))
  }

  const RecordKeys := ["company", "about", "ai_opportunities", "pain_points_and_goals",
                       "value_prop_angles", "hooks"]

  /** No two record keys are equal: they differ in length or in their first letter. */
  lemma {:induction false} RecordKeysDistinct(f: Fields)
    requires KeysOf(f) == RecordKeys
    ensures DistinctKeys(f)
  {
    var ks := RecordKeys;
    assert |ks[0]| == 7 && |ks[1]| == 5 && |ks[2]| == 16 && |ks[3]| == 21 && |ks[4]| == 17 && |ks[5]| == 5;
    assert ks[1][0] == 'a' && ks[5][0] == 'h';
    forall a, b | 0 <= a < b < |f| ensures f[a].0 != f[b].0 {
      assert f[a].0 == ks[a] && f[b].0 == ks[b];
    }
  }

  /** `json_output`: the six keys in this order. */
  function Record(company: Json, about: Json, opportunities: seq<Json>, pains: seq<Json>,
                  angles: seq<Json>, hooks: seq<Json>): (r: Json)
    ensures r.JObject? && KeysOf(r.fields) == RecordKeys
    ensures Lookup(r.fields, "company") == Some(company)
    ensures Lookup(r.fields, "about") == Some(about)
    ensures Lookup(r.fields, "ai_opportunities") == Some(JArray(opportunities))
    ensures Lookup(r.fields, "pain_points_and_goals") == Some(JArray(pains))
    ensures Lookup(r.fields, "value_prop_angles") == Some(JArray(angles))
    ensures Lookup(r.fields, "hooks") == Some(JArray(hooks))
  {
    var f := [
      ("company", company),
      ("about", about),
      ("ai_opportunities", JArray(opportunities)),
      ("pain_points_and_goals", JArray(pains)),
      ("value_prop_angles", JArray(angles)),
      ("hooks", JArray(hooks))];
    assert KeysOf(f) == RecordKeys;
    RecordKeysDistinct(f);
    LookupDistinct(f, 0); LookupDistinct(f, 1); LookupDistinct(f, 2);
    LookupDistinct(f, 3); LookupDistinct(f, 4); LookupDistinct(f, 5);
    JObject(f)
  }

  /** The company name (inital_analysis_data_extractor.py:55): the `name` of the `company` entry,
      with an empty dict and then `""` as defaults. */
  function CompanyName(doc: Fields): Result<Json> {
    Get(GetDefault(doc, "company", JObject([])), "name", JStr(""))
  }

  /** The six-key record projected from the fetched document, or the exception the projection
      raises; the steps run in the order of the source. */
  function RecordOf(doc: Json): (r: Result<Json>)
    ensures r.Ok? ==> r.value.JObject? && KeysOf(r.value.fields) == RecordKeys
  {
    match doc
    case JObject(f) =>
      var name :- CompanyName(f);
      var opportunities :- Projected(Section(f, "ai_opportunity_hypotheses"), OpportunityOf);
      var angles :- Projected(Section(f, "value_prop_angles"), AngleOf);
      var pains :- Projected(Section(f, "pain_points_and_goals"), PainPointOf);
      var hooks :- Projected(Section(f, "icps_to_contact"), HookOf);
      Ok(Record(name, GetDefault(f, "more_info", JObject([])), opportunities, pains, angles, hooks))
    case _ => Err(AttributeErrorOf(doc, "get"))
  }

  /** The record is a dict of exactly the six keys; `company` is the document's company name or
      `""`, `about` its `more_info` or `{}`. */
  lemma {:induction false} RecordShape(doc: Json)
    requires RecordOf(doc).Ok?
    ensures var rec := RecordOf(doc).value;
      rec.JObject? && KeysOf(rec.fields) == RecordKeys &&
      doc.JObject? &&
      Lookup(rec.fields, "company") ==
        Some(GetDefault(GetDefault(doc.fields, "company", JObject([])).fields, "name", JStr(""))) &&
      Lookup(rec.fields, "about") == Some(GetDefault(doc.fields, "more_info", JObject([])))
  {
    RecordParts(doc);
  }

  /** What a successful projection is made of. */
  lemma {:induction false} RecordParts(doc: Json)
    requires RecordOf(doc).Ok?
    ensures doc.JObject? && CompanyName(doc.fields).Ok?
    ensures var f := doc.fields;
      Projected(Section(f, "ai_opportunity_hypotheses"), OpportunityOf).Ok? &&
      Projected(Section(f, "value_prop_angles"), AngleOf).Ok? &&
      Projected(Section(f, "pain_points_and_goals"), PainPointOf).Ok? &&
      Projected(Section(f, "icps_to_contact"), HookOf).Ok? &&
      RecordOf(doc) == Ok(Record(CompanyName(f).value, GetDefault(f, "more_info", JObject([])),
                                 Projected(Section(f, "ai_opportunity_hypotheses"), OpportunityOf).value,
                                 Projected(Section(f, "pain_points_and_goals"), PainPointOf).value,
                                 Projected(Section(f, "value_prop_angles"), AngleOf).value,
                                 Projected(Section(f, "icps_to_contact"), HookOf).value))
  {
    var f := doc.fields;
    var opportunities := Projected(Section(f, "ai_opportunity_hypotheses"), OpportunityOf).value;
    var angles := Projected(Section(f, "value_prop_angles"), AngleOf).value;
    var pains := Projected(Section(f, "pain_points_and_goals"), PainPointOf).value;
    var hooks := Projected(Section(f, "icps_to_contact"), HookOf).value;
    assert RecordOf(doc) == Ok(Record(CompanyName(f).value, GetDefault(f, "more_info", JObject([])),
                                      opportunities, pains, angles, hooks));
  }

  /** Projection succeeds iff the document and its company entry are dicts and every section is
      walkable: extraction is lenient about missing fields only. */
  lemma {:induction false} RecordSucceeds(doc: Json)
    ensures RecordOf(doc).Ok? <==>
      doc.JObject? && GetDefault(doc.fields, "company", JObject([])).JObject? &&
      Walkable(Section(doc.fields, "ai_opportunity_hypotheses")) &&
      Walkable(Section(doc.fields, "value_prop_angles")) &&
      Walkable(Section(doc.fields, "pain_points_and_goals")) &&
      Walkable(Section(doc.fields, "icps_to_contact"))
  {
    if RecordOf(doc).Ok? {
      RecordParts(doc);
    }
    if doc.JObject? {
      ProjectedMeaning(Section(doc.fields, "ai_opportunity_hypotheses"), OpportunityOf);
      ProjectedMeaning(Section(doc.fields, "value_prop_angles"), AngleOf);
      ProjectedMeaning(Section(doc.fields, "pain_points_and_goals"), PainPointOf);
      ProjectedMeaning(Section(doc.fields, "icps_to_contact"), HookOf);
    }
  }

  /** `ai_opportunities` holds one `{"solution", "why"}` per hypothesis, in document order, with
      `""` for a missing sub-field; an absent section (the `{}` default) gives `[]`. */
  lemma {:induction false} OpportunitiesInOrder(section: Json)
    requires Projected(section, OpportunityOf).Ok?
    ensures var ops := Projected(section, OpportunityOf).value;
      (section.JArray? ==> (|ops| == |section.items| &&
        forall k :: 0 <= k < |ops| ==>
          ops[k] == JObject([
            ("solution", GetDefault(section.items[k].fields, "hypothesis", JStr(""))),
            ("why", GetDefault(section.items[k].fields, "why", JStr("")))]))) &&
      (!section.JArray? ==> ops == [])
  {
    ProjectedMeaning(section, OpportunityOf);
  }

  /** `value_prop_angles`: one angle per source item, in order, `""` when missing. */
  lemma {:induction false} AnglesInOrder(section: Json)
    requires Projected(section, AngleOf).Ok?
    ensures var out := Projected(section, AngleOf).value;
      (section.JArray? ==> (|out| == |section.items| &&
        forall k :: 0 <= k < |out| ==> out[k] == GetDefault(section.items[k].fields, "angle", JStr("")))) &&
      (!section.JArray? ==> out == [])
  {
    ProjectedMeaning(section, AngleOf);
  }

  /** `pain_points_and_goals`: one `{"pain_point", "goal"}` per source item, in order. */
  lemma {:induction false} PainPointsInOrder(section: Json)
    requires Projected(section, PainPointOf).Ok?
    ensures var out := Projected(section, PainPointOf).value;
      (section.JArray? ==> (|out| == |section.items| &&
        forall k :: 0 <= k < |out| ==>
          out[k] == JObject([
            ("pain_point", GetDefault(section.items[k].fields, "item", JStr(""))),
            ("goal", GetDefault(section.items[k].fields, "why", JStr("")))]))) &&
      (!section.JArray? ==> out == [])
  {
    ProjectedMeaning(section, PainPointOf);
  }

  /** `hooks`: one messaging hook per contact, in order, `""` when missing. */
  lemma {:induction false} HooksInOrder(section: Json)
    requires Projected(section, HookOf).Ok?
    ensures var out := Projected(section, HookOf).value;
      (section.JArray? ==> (|out| == |section.items| &&
        forall k :: 0 <= k < |out| ==> out[k] == GetDefault(section.items[k].fields, "messaging_hook", JStr("")))) &&
      (!section.JArray? ==> out == [])
  {
    ProjectedMeaning(section, HookOf);
  }

  /** `get_inital_analysis_data`: follow the presigned URL, then project. */
  function AnalysisDataOf(fileData: Json, fetch: Json -> Result<Json>): (r: Result<Json>)
    ensures r.Ok? ==> r.value.JObject? && KeysOf(r.value.fields) == RecordKeys
  {
    var url :- Get(fileData, "presigned_url", JNull);
    var doc :- fetch(url);
    RecordOf(doc)
  }

  method GetInitialAnalysisData(fileData: Json, fetch: Json -> Result<Json>) returns (r: Result<Json>)
    ensures r == AnalysisDataOf(fileData, fetch)
  {
    var url := Get(fileData, "presigned_url", JNull);
    if url.Err? {
      return Err(url.error);
    }
    var fetched := fetch(url.value);
    if fetched.Err? {
      return Err(fetched.error);
    }
    var doc := fetched.value;
    if !doc.JObject? {
      return Err(AttributeErrorOf(doc, "get"));
    }
    var company := GetDefault(doc.fields, "company", JObject([]));
    var name := Get(company, "name", JStr(""));
    if name.Err? {
      return Err(name.error);
    }
    var about := GetDefault(doc.fields, "more_info", JObject([]));
    var opportunities := Collect(Section(doc.fields, "ai_opportunity_hypotheses"), OpportunityOf);
    if opportunities.Err? {
      return Err(opportunities.error);
    }
    var angles := Collect(Section(doc.fields, "value_prop_angles"), AngleOf);
    if angles.Err? {
      return Err(angles.error);
    }
    var pains := Collect(Section(doc.fields, "pain_points_and_goals"), PainPointOf);
    if pains.Err? {
      return Err(pains.error);
    }
    var hooks := Collect(Section(doc.fields, "icps_to_contact"), HookOf);
    if hooks.Err? {
      return Err(hooks.error);
    }
    r := Ok(Record(name.value, about, opportunities.value, pains.value, angles.value, hooks.value));
  }

  // ---------- main_extractor ----------

  function MainExtractorOf(env: Environment, analysisId: string, up: Upstream): (r: Result<Json>)
    ensures r.Ok? ==> r.value.JObject? && KeysOf(r.value.fields) == RecordKeys
  {
    var base := GetEnvOr(env, "API_BASE_URL", DefaultBaseUrl);
    var token := GetEnv(env, "API_BEARER_TOKEN");
    if Unset(token) then Err(MissingToken)
    else
      match StatusCheckOf(up.statusAt(StatusUrl(base, analysisId), "Bearer " + token.value))
      case Raised(e) => Err(e)
      case NotCompleted => Err(UnpackFalse)
      case Completed(data) => AnalysisDataOf(data, up.fetch)
  }

  method MainExtractor(env: Environment, analysisId: string, up: Upstream) returns (r: Result<Json>)
    ensures r == MainExtractorOf(env, analysisId, up)
  {
    var base := GetEnvOr(env, "API_BASE_URL", DefaultBaseUrl);
    var token := GetEnv(env, "API_BEARER_TOKEN");
    if Unset(token) {
      return Err(MissingToken);
    }
    var url := StatusUrl(base, analysisId);
    var check := CheckStatus(up.statusAt(url, "Bearer " + token.value));
    match check {
      case Raised(e) => r := Err(e);
      case NotCompleted => r := Err(UnpackFalse);
      case Completed(data) => r := GetInitialAnalysisData(data, up.fetch);
    }
  }

  /** A missing bearer token fails before any request: the outcome does not depend on upstream. */
  lemma {:induction false} MissingTokenFailsFirst(env: Environment, analysisId: string, up1: Upstream, up2: Upstream)
    requires Unset(GetEnv(env, "API_BEARER_TOKEN"))
    ensures MainExtractorOf(env, analysisId, up1) == MainExtractorOf(env, analysisId, up2) == Err(MissingToken)
  {
  }

  /** The completion decision: complete iff the answer is 200 and its body reports completion;
      a non-200 answer is a plain "not completed", a failed request or undecodable body raises. */
  lemma {:induction false} StatusCheckMeaning(response: StatusOutcome)
    ensures StatusCheckOf(response).Completed? <==>
      (response.Responded? && response.code == 200 && response.body.Some? &&
       ReportsCompletion(response.body.value))
    ensures StatusCheckOf(response).Completed? ==> StatusCheckOf(response).data == response.body.value
    ensures response.Responded? && response.code != 200 ==> StatusCheckOf(response) == NotCompleted
    ensures response.RequestFailed? ==> StatusCheckOf(response) == Raised(UnboundFlag)
    ensures response.Responded? && response.code == 200 && response.body.None? ==>
      StatusCheckOf(response) == Raised(UnboundFlag)
    ensures response.Responded? && response.code == 200 && response.body.Some? ==>
      (CompletionFlag(response.body.value) == Ok(false) ==> StatusCheckOf(response) == NotCompleted) &&
      (CompletionFlag(response.body.value).Err? ==>
        StatusCheckOf(response) == Raised(CompletionFlag(response.body.value).error))
    ensures (response.Responded? && response.code == 200 && response.body.Some? &&
             response.body.value.JObject? && !ReportsCompletion(response.body.value)) ==>
      StatusCheckOf(response) == NotCompleted ||
      (StatusCheckOf(response).Raised? && StatusCheckOf(response).error.kind == KeyError)
  {
    if response.Responded? && response.code == 200 && response.body.Some? {
      CompletionFlagMeaning(response.body.value);
    }
  }

  /** Extraction reaches the document only after a completed status check on the status URL;
      any other outcome (including the bare `False`) makes `main_extractor` raise. */
  lemma {:induction false} ExtractionNeedsCompletion(env: Environment, analysisId: string, up: Upstream)
    requires !Unset(GetEnv(env, "API_BEARER_TOKEN"))
    ensures var check := StatusCheckOf(up.statusAt(
        StatusUrl(GetEnvOr(env, "API_BASE_URL", DefaultBaseUrl), analysisId),
        "Bearer " + GetEnv(env, "API_BEARER_TOKEN").value));
      (check.Completed? ==> MainExtractorOf(env, analysisId, up) == AnalysisDataOf(check.data, up.fetch)) &&
      (check == NotCompleted ==> MainExtractorOf(env, analysisId, up) == Err(UnpackFalse)) &&
      (check.Raised? ==> MainExtractorOf(env, analysisId, up) == Err(check.error))
  {
  }
}

/** The cold-email stage (langchain_email_generator.py, lines 13-161): tolerant parsing of the model's
    reply, normalisation of the output shape, one email per gap item with a fallback email on
    failure, and the credit-exhaustion error that aborts the batch. */
module EmailGenerator {
  import opened Python
  import opened Gather
  import GapAnalyser

  const FallbackSubject := "Quick AI Insight for You"
  const Unavailable := "Unable to generate email."
  /** The error raised when the provider reports exhausted credits. */
  const CreditsError := PyError(ValueError, "INSUFFICIENT_CREDITS_ERROR")
  /** Raised inside the `try` when the reply parses to nothing truthy. */
  const NoValidJson := PyError(ValueError, "Model did not return valid JSON")

  // ---------- safe_parse_json ----------

  /** `safe_parse_json(text)`, with `JNull` standing for `None`: blank text gives None; otherwise the
      whole text is decoded, and failing that the recovery below. */
  function SafeParseJson(text: string, decode: GapAnalyser.Decoder): Json {
    if text == [] || Strip(text) == [] then JNull
    else
      match decode(text)
      case Some(v) => v
      case None => Recover(text, decode)
  }

  /** The recovery: decode the span from the first `{` up to the last `}`; None when that raises. */
  function Recover(text: string, decode: GapAnalyser.Decoder): Json {
    var start := Find(text, '{');
    var stop := RFind(text, '}') + 1;
    if start != -1 && stop != -1 then decode(Slice(text, start, stop)).GetOr(JNull)
    else JNull
  }

  /** Blank text gives None whatever the decoder would say. */
  lemma {:induction false} SafeParseBlank(text: string, d1: GapAnalyser.Decoder, d2: GapAnalyser.Decoder)
    requires AllSpace(text)
    ensures SafeParseJson(text, d1) == SafeParseJson(text, d2) == JNull
  {
  }

  /** Text that decodes as a whole is returned as decoded. */
  lemma {:induction false} SafeParseWhole(text: string, decode: GapAnalyser.Decoder)
    requires !AllSpace(text) && decode(text).Some?
    ensures SafeParseJson(text, decode) == decode(text).value
  {
  }

  /** Recovery decodes exactly the span from the first `{` through the last `}`. */
  lemma {:induction false} SafeParseRecovers(text: string, decode: GapAnalyser.Decoder, i: nat, j: nat)
    requires !AllSpace(text) && decode(text).None?
    requires i < |text| && text[i] == '{' && '{' !in text[..i]
    requires i < j < |text| && text[j] == '}' && '}' !in text[j + 1..]
    ensures SafeParseJson(text, decode) == decode(text[i..j + 1]).GetOr(JNull)
  {
    assert SafeParseJson(text, decode) == Recover(text, decode);
    RecoverSpan(text, decode, i, j);
  }

  lemma {:induction false} RecoverSpan(text: string, decode: GapAnalyser.Decoder, i: nat, j: nat)
    requires i < |text| && text[i] == '{' && '{' !in text[..i]
    requires i < j < |text| && text[j] == '}' && '}' !in text[j + 1..]
    ensures Recover(text, decode) == decode(text[i..j + 1]).GetOr(JNull)
  {
    assert Slice(text, i, j + 1) == text[i..j + 1];
  }

  /** When no `}` follows the first `{`, the slice is empty and, since `json.loads("")` raises,
      the result is None (the `end != -1` test never fails: `rfind` gives at least -1). */
  lemma {:induction false} SafeParseNoSpan(text: string, decode: GapAnalyser.Decoder)
    requires decode([]) == None && decode(text).None?
    requires forall i, j :: 0 <= i <= j < |text| && text[i] == '{' ==> text[j] != '}'
    ensures SafeParseJson(text, decode) == JNull
  {
    var start := Find(text, '{');
    var stop := RFind(text, '}') + 1;
    if start != -1 {
      assert stop <= start;
      assert Slice(text, start, stop) == [];
    }
    assert SafeParseJson(text, decode) == JNull || SafeParseJson(text, decode) == Recover(text, decode);
  }

  // ---------- normalize_email_output ----------

  /** `{"emails": v}` */
  function EmailsObject(v: Json): Json {
    JObject([("emails", v)])
  }

  /** An email dict for case 3 of `normalize_email_output` (langchain_email_generator.py:52): a dict
      holding `subject_line`. */
  predicate IsEmailDict(e: Json) {
    e.JObject? && "subject_line" in KeysOf(e.fields)
  }

  /** `normalize_email_output(parsed)`: falsy gives no emails; anything holding `"emails"` is
      returned as it is; a single email is wrapped; a list of emails becomes the `emails` list;
      anything else gives no emails. `in` on a truthy bool or int raises. */
  function NormalizeEmailOutput(parsed: Json): (r: Result<Json>)
    ensures r.Ok? <==> !Truthy(parsed) || parsed.JObject? || parsed.JArray? || parsed.JStr?
    ensures r.Err? ==> r.error.kind == TypeError
  {
    if !Truthy(parsed) then Ok(EmailsObject(JArray([])))
    else
      var hasEmails :- In("emails", parsed);
      if hasEmails then Ok(parsed)
      else
        var single := In("subject_line", parsed) == Ok(true) && In("email_body", parsed) == Ok(true);
        if single then Ok(EmailsObject(JArray([parsed])))
        else if parsed.JArray? && forall i :: 0 <= i < |parsed.items| ==> IsEmailDict(parsed.items[i]) then
          Ok(EmailsObject(parsed))
        else Ok(EmailsObject(JArray([])))
  }

  /** A dict is normalised by its keys alone. */
  lemma {:induction false} NormalizeDict(parsed: Json)
    requires parsed.JObject?
    ensures var ks := KeysOf(parsed.fields);
      NormalizeEmailOutput(parsed) ==
        if parsed.fields == [] then Ok(EmailsObject(JArray([])))
        else if "emails" in ks then Ok(parsed)
        else if "subject_line" in ks && "email_body" in ks then Ok(EmailsObject(JArray([parsed])))
        else Ok(EmailsObject(JArray([])))
  {
  }

  /** A non-empty list of email dicts (none of them the string "emails") becomes the emails list. */
  lemma {:induction false} NormalizeList(items: seq<Json>)
    requires items != [] && forall i :: 0 <= i < |items| ==> IsEmailDict(items[i])
    ensures NormalizeEmailOutput(JArray(items)) == Ok(EmailsObject(JArray(items)))
  {
    assert JStr("emails") !in items by {
      forall i | 0 <= i < |items| ensures items[i] != JStr("emails") { assert IsEmailDict(items[i]); }
    }
    assert JStr("subject_line") !in items by {
      forall i | 0 <= i < |items| ensures items[i] != JStr("subject_line") { assert IsEmailDict(items[i]); }
    }
  }

  /** An input that holds "emails" is passed through whatever it is; any other comes back as a
      dict whose only key is `emails`, holding a list, and a falsy one as `{"emails": []}`;
      normalising twice changes nothing. */
  lemma {:induction false} NormalizeShape(parsed: Json)
    requires NormalizeEmailOutput(parsed).Ok?
    ensures In("emails", parsed) == Ok(true) ==> NormalizeEmailOutput(parsed) == Ok(parsed)
    ensures In("emails", parsed) != Ok(true) ==> var out := NormalizeEmailOutput(parsed).value;
      out.JObject? && KeysOf(out.fields) == ["emails"] && out.fields[0].1.JArray?
    ensures !Truthy(parsed) ==> NormalizeEmailOutput(parsed) == Ok(EmailsObject(JArray([])))
    ensures NormalizeEmailOutput(NormalizeEmailOutput(parsed).value) == NormalizeEmailOutput(parsed)
  {
    if In("emails", parsed) != Ok(true) {
      var xs := NormalizeWraps(parsed);
      EmailsObjectNormal(xs);
      assert KeysOf(EmailsObject(JArray(xs)).fields) == ["emails"];
    }
  }

  /** A list or string that holds none of `"emails"`, both `"subject_line"` and `"email_body"`, or
      a non-empty run of email dicts gives `{"emails": []}`. */
  lemma {:induction false} NormalizeUnmatched(parsed: Json)
    requires parsed.JArray? || parsed.JStr?
    requires In("emails", parsed) != Ok(true)
    requires !(In("subject_line", parsed) == Ok(true) && In("email_body", parsed) == Ok(true))
    requires !(parsed.JArray? && parsed.items != [] && forall i :: 0 <= i < |parsed.items| ==> IsEmailDict(parsed.items[i]))
    ensures NormalizeEmailOutput(parsed) == Ok(EmailsObject(JArray([])))
  {
  }

  /** Without `"emails"` in it, the input is wrapped into `{"emails": xs}` for some list xs. */
  lemma {:induction false} NormalizeWraps(parsed: Json) returns (xs: seq<Json>)
    requires NormalizeEmailOutput(parsed).Ok? && In("emails", parsed) != Ok(true)
    ensures NormalizeEmailOutput(parsed) == Ok(EmailsObject(JArray(xs)))
  {
    if !Truthy(parsed) {
      xs := [];
    } else if In("subject_line", parsed) == Ok(true) && In("email_body", parsed) == Ok(true) {
      xs := [parsed];
    } else if parsed.JArray? && forall i :: 0 <= i < |parsed.items| ==> IsEmailDict(parsed.items[i]) {
      xs := parsed.items;
    } else {
      xs := [];
    }
  }

  /** The batch output `{"emails": [...]}` is passed through unchanged. */
  lemma {:induction false} EmailsObjectNormal(emails: seq<Json>)
    ensures NormalizeEmailOutput(EmailsObject(JArray(emails))) == Ok(EmailsObject(JArray(emails)))
  {
    assert KeysOf(EmailsObject(JArray(emails)).fields) == ["emails"];
  }

  // ---------- generate_for_gap ----------

  /** The markers of an exhausted provider account in an exception message. */
  predicate CreditExhausted(message: string) {
    Contains(message, "Error code: 402") || Contains(message, "Insufficient credits")
  }

  /** A body flattened as at langchain_email_generator.py:137: newlines become spaces, then the
      surrounding whitespace is stripped. */
  function Flatten(s: string): (r: string)
    ensures '\n' !in r
    ensures r != [] ==> !IsSpace(r[0]) && !IsSpace(r[|r| - 1])
  {
    var t := Replace(s, '\n', ' ');
    assert '\n' !in t;
    Strip(t)
  }

  /** The email produced when a reply cannot be used. */
  function Fallback(text: string): Json {
    JObject([("subject_line", JStr(FallbackSubject)), ("email_body", JStr(Flatten(text)))])
  }

  /** How the `try` block of `generate_for_gap` ends: with the email, or with the exception it raised
      and the value of `raw_output` if it was assigned. */
  datatype Attempt = Produced(email: Json) | Failed(error: PyError, rawOutput: Option<string>)

  /** The `try` block: the call, the stripped reply, then what is done with its parse. */
  function TryGenerate(outcome: GapAnalyser.LlmOutcome, decode: GapAnalyser.Decoder): Attempt {
    match outcome
    case CallFailed(message) => Failed(PyError(ProviderError, message), None)
    case Reply(text) =>
      var raw := Strip(text);
      UseParsed(raw, SafeParseJson(raw, decode))
  }

  /** The rest of the `try` block once `raw_output` and `parsed` are known: the truthiness test and
      the flattening of `email_body` (a non-dict has no `get`, a non-str body has no `replace`). */
  function UseParsed(raw: string, parsed: Json): Attempt {
    if !Truthy(parsed) then Failed(NoValidJson, Some(raw))
    else
      match parsed
      case JObject(f) =>
        (match GetDefault(f, "email_body", JStr(""))
         case JStr(body) => Produced(JObject(Update(f, "email_body", JStr(Flatten(body)))))
         case other => Failed(AttributeErrorOf(other, "replace"), Some(raw)))
      case _ => Failed(AttributeErrorOf(parsed, "get"), Some(raw))
  }

  /** The `except` handler: a credit marker in the message raises the credits error; anything else
      gives the fallback email built from `raw_output` when it exists. */
  function Handle(a: Attempt): Result<Json> {
    match a
    case Produced(email) => Ok(email)
    case Failed(e, raw) =>
      if CreditExhausted(e.message) then Err(CreditsError)
      else Ok(Fallback(raw.GetOr(Unavailable)))
  }

  /** The error of slicing `pain_points` (langchain_email_generator.py:118) when it cannot be sliced. */
  function SliceError(v: Json): (r: PyError)
    ensures r.kind == TypeError
  {
    match v
    case JObject(_) => PyError(TypeError, "unhashable type: 'slice'")
    case _ => PyError(TypeError, "'" + TypeName(v) + "' object is not subscriptable")
  }

  /** A gap item the prompt can be built from: a dict whose `pain_points` (default `[]`) slices. */
  predicate PromptBuilds(gapItem: Json) {
    gapItem.JObject? &&
    (GetDefault(gapItem.fields, "pain_points", JArray([])).JArray? ||
     GetDefault(gapItem.fields, "pain_points", JArray([])).JStr?)
  }

  /** `generate_for_gap(gap_item)`: the prompt is built outside the `try`, so its errors propagate. */
  function GenerateForGap(gapItem: Json, outcome: GapAnalyser.LlmOutcome, decode: GapAnalyser.Decoder): Result<Json> {
    match gapItem
    case JObject(f) =>
      var painPoints := GetDefault(f, "pain_points", JArray([]));
      if !(painPoints.JArray? || painPoints.JStr?) then Err(SliceError(painPoints))
      else Handle(TryGenerate(outcome, decode))
    case _ => Err(AttributeErrorOf(gapItem, "get"))
  }

  /** Neither marker starts with a letter that occurs in the message. */
  lemma {:induction false} Unmarked(message: string)
    requires 'E' !in message && 'I' !in message
    ensures !CreditExhausted(message)
  {
    FirstCharAbsent(message, "Error code: 402");
    FirstCharAbsent(message, "Insufficient credits");
  }

  lemma {:induction false} NoCapitals(typeName: string, attribute: string)
    requires 'E' !in typeName && 'I' !in typeName && 'E' !in attribute && 'I' !in attribute
    ensures var m := "'" + typeName + "' object has no attribute '" + attribute + "'";
      'E' !in m && 'I' !in m
  {
  }

  /** The `AttributeError`s of the `try` block carry no credit marker. */
  lemma {:induction false} AttributeErrorUnmarked(v: Json, attribute: string)
    requires attribute == "get" || attribute == "replace"
    ensures !CreditExhausted(AttributeErrorOf(v, attribute).message)
  {
    var m := AttributeErrorOf(v, attribute).message;
    NoCapitals(TypeName(v), attribute);
    Unmarked(m);
  }

  lemma {:induction false} NoValidJsonUnmarked(e: PyError)
    requires e == NoValidJson
    ensures !CreditExhausted(e.message)
  {
    NoValidJsonNoE(e);
    NoValidJsonNoI(e);
    Unmarked(e.message);
  }

  lemma {:induction false} NoValidJsonNoE(e: PyError)
    requires e == NoValidJson
    ensures 'E' !in e.message
  {
  }

  lemma {:induction false} NoValidJsonNoI(e: PyError)
    requires e == NoValidJson
    ensures 'I' !in e.message
  {
  }

  /** No exception that the `try` block raises itself carries a credit marker. */
  lemma {:induction false} OwnErrorsUnmarked(raw: string, parsed: Json)
    requires UseParsed(raw, parsed).Failed?
    ensures !CreditExhausted(UseParsed(raw, parsed).error.message)
  {
    var e := UseParsed(raw, parsed).error;
    if !Truthy(parsed) {
      assert e == NoValidJson;
      NoValidJsonUnmarked(e);
    } else if parsed.JObject? {
      var body := GetDefault(parsed.fields, "email_body", JStr(""));
      assert e == AttributeErrorOf(body, "replace");
      AttributeErrorUnmarked(body, "replace");
    } else {
      assert e == AttributeErrorOf(parsed, "get");
      AttributeErrorUnmarked(parsed, "get");
    }
  }

  /** Once the prompt builds, the item's result is the handler applied to the `try` block. */
  lemma {:induction false} OnceBuilt(gapItem: Json, outcome: GapAnalyser.LlmOutcome, decode: GapAnalyser.Decoder)
    requires PromptBuilds(gapItem)
    ensures GenerateForGap(gapItem, outcome, decode) == Handle(TryGenerate(outcome, decode))
  {
  }

  /** Errors of one item: a prompt that cannot be built raises AttributeError or TypeError; once
      built, the only error is the credits error, exactly when the call failed with a marked message. */
  lemma {:induction false} GenerateForGapErrors(gapItem: Json, outcome: GapAnalyser.LlmOutcome, decode: GapAnalyser.Decoder)
    ensures !PromptBuilds(gapItem) ==> (GenerateForGap(gapItem, outcome, decode).Err? &&
      GenerateForGap(gapItem, outcome, decode).error.kind in {AttributeError, TypeError})
    ensures PromptBuilds(gapItem) ==>
      (GenerateForGap(gapItem, outcome, decode).Err? <==> outcome.CallFailed? && CreditExhausted(outcome.message))
    ensures GenerateForGap(gapItem, outcome, decode).Err? && PromptBuilds(gapItem) ==>
      GenerateForGap(gapItem, outcome, decode).error == CreditsError
  {
    if PromptBuilds(gapItem) {
      OnceBuilt(gapItem, outcome, decode);
      if outcome.Reply? {
        var raw := Strip(outcome.text);
        var parsed := SafeParseJson(raw, decode);
        if UseParsed(raw, parsed).Failed? {
          OwnErrorsUnmarked(raw, parsed);
        }
      }
    }
  }

  /** A failed call without a credit marker gives the fallback email with the fixed text. */
  lemma {:induction false} FallbackOnCallFailure(gapItem: Json, message: string, decode: GapAnalyser.Decoder)
    requires PromptBuilds(gapItem) && !CreditExhausted(message)
    ensures GenerateForGap(gapItem, GapAnalyser.CallFailed(message), decode) == Ok(Fallback(Unavailable))
  {
    OnceBuilt(gapItem, GapAnalyser.CallFailed(message), decode);
  }

  /** A parse the `try` block cannot use ends in the fallback built from `raw_output`. */
  lemma {:induction false} UnusableFallsBack(raw: string, parsed: Json)
    requires !UsableEmail(parsed)
    ensures Handle(UseParsed(raw, parsed)) == Ok(Fallback(raw))
  {
    assert UseParsed(raw, parsed).Failed? && UseParsed(raw, parsed).rawOutput == Some(raw);
    OwnErrorsUnmarked(raw, parsed);
  }

  /** A reply that yields no dict with a str `email_body` gives the fallback email holding the
      stripped reply itself. */
  lemma {:induction false} FallbackOnUnusableReply(gapItem: Json, text: string, decode: GapAnalyser.Decoder)
    requires PromptBuilds(gapItem) && !UsableEmail(SafeParseJson(Strip(text), decode))
    ensures GenerateForGap(gapItem, GapAnalyser.Reply(text), decode) == Ok(Fallback(Strip(text)))
  {
    OnceBuilt(gapItem, GapAnalyser.Reply(text), decode);
    var raw := Strip(text);
    var parsed := SafeParseJson(raw, decode);
    assert TryGenerate(GapAnalyser.Reply(text), decode) == UseParsed(raw, parsed);
    UnusableFallsBack(raw, parsed);
  }

  /** A parse the `try` block keeps: a non-empty dict whose `email_body` (default `""`) is a str. */
  predicate UsableEmail(parsed: Json) {
    parsed.JObject? && parsed.fields != [] && GetDefault(parsed.fields, "email_body", JStr("")).JStr?
  }

  /** A usable parse is kept: the body is flattened and every other key keeps its value and place. */
  lemma {:induction false} ParsedEmailKept(gapItem: Json, text: string, decode: GapAnalyser.Decoder)
    requires PromptBuilds(gapItem) && UsableEmail(SafeParseJson(Strip(text), decode))
    ensures var f := SafeParseJson(Strip(text), decode).fields;
      var r := GenerateForGap(gapItem, GapAnalyser.Reply(text), decode);
      r.Ok? && r.value.JObject? &&
      Lookup(r.value.fields, "email_body") == Some(JStr(Flatten(GetDefault(f, "email_body", JStr("")).s))) &&
      (forall k :: k != "email_body" ==> Lookup(r.value.fields, k) == Lookup(f, k)) &&
      (forall k :: k in KeysOf(f) ==> k in KeysOf(r.value.fields))
  {
    OnceBuilt(gapItem, GapAnalyser.Reply(text), decode);
    var raw := Strip(text);
    var parsed := SafeParseJson(raw, decode);
    UsableKept(raw, parsed);
    assert TryGenerate(GapAnalyser.Reply(text), decode) == UseParsed(raw, parsed);
  }

  /** A usable parse is produced with its body flattened. */
  lemma {:induction false} UsableKept(raw: string, parsed: Json)
    requires UsableEmail(parsed)
    ensures var f := parsed.fields;
      UseParsed(raw, parsed) == Produced(JObject(Update(f, "email_body", JStr(Flatten(GetDefault(f, "email_body", JStr("")).s)))))
  {
    assert Truthy(parsed);
  }

  /** An email whose body is a single line without surrounding whitespace. */
  predicate FlatEmail(email: Json) {
    email.JObject? &&
    match Lookup(email.fields, "email_body")
    case Some(JStr(b)) => '\n' !in b && (b != [] ==> !IsSpace(b[0]) && !IsSpace(b[|b| - 1]))
    case _ => false
  }

  lemma {:induction false} FallbackFlat(text: string)
    ensures FlatEmail(Fallback(text))
  {
    var b := Flatten(text);
    var f := [("subject_line", JStr(FallbackSubject)), ("email_body", JStr(b))];
    assert f[0].0 != "email_body" by { assert |f[0].0| == 12 && |"email_body"| == 10; }
    assert f[1..] == [("email_body", JStr(b))];
    assert Lookup(f, "email_body") == Some(JStr(b));
  }

  /** An email the `try` block produces has its body flattened. */
  lemma {:induction false} ProducedFlat(raw: string, parsed: Json)
    requires UseParsed(raw, parsed).Produced?
    ensures FlatEmail(UseParsed(raw, parsed).email)
  {
    match parsed
    case JObject(f) =>
      match GetDefault(f, "email_body", JStr(""))
      case JStr(body) =>
        var b := Flatten(body);
        assert UseParsed(raw, parsed) == Produced(JObject(Update(f, "email_body", JStr(b))));
        FlatBody(f, b);
  }

  /** Storing a flattened body makes a flat email. */
  lemma {:induction false} FlatBody(f: Fields, b: string)
    requires '\n' !in b && (b != [] ==> !IsSpace(b[0]) && !IsSpace(b[|b| - 1]))
    ensures FlatEmail(JObject(Update(f, "email_body", JStr(b))))
  {
    assert Lookup(Update(f, "email_body", JStr(b)), "email_body") == Some(JStr(b));
  }

  lemma {:induction false} TryFlat(outcome: GapAnalyser.LlmOutcome, decode: GapAnalyser.Decoder)
    requires TryGenerate(outcome, decode).Produced?
    ensures FlatEmail(TryGenerate(outcome, decode).email)
  {
    var raw := Strip(outcome.text);
    ProducedFlat(raw, SafeParseJson(raw, decode));
  }

  /** The handler keeps a flat email flat and builds flat fallbacks. */
  lemma {:induction false} HandleFlat(a: Attempt)
    requires Handle(a).Ok? && (a.Produced? ==> FlatEmail(a.email))
    ensures FlatEmail(Handle(a).value)
  {
    match a
    case Produced(email) =>
    case Failed(e, raw) =>
      var text := raw.GetOr(Unavailable);
      assert Handle(a) == Ok(Fallback(text));
      FallbackFlat(text);
  }

  /** Every email produced, fallback or not, is a dict whose `email_body` is flat. */
  lemma {:induction false} EmailsAreFlat(gapItem: Json, outcome: GapAnalyser.LlmOutcome, decode: GapAnalyser.Decoder)
    requires GenerateForGap(gapItem, outcome, decode).Ok?
    ensures FlatEmail(GenerateForGap(gapItem, outcome, decode).value)
  {
    OnceBuilt(gapItem, outcome, decode);
    var a := TryGenerate(outcome, decode);
    if a.Produced? {
      TryFlat(outcome, decode);
    }
    HandleFlat(a);
  }

  // ---------- generate_email_and_subject_async ----------

  function RunEmail(model: string, provider: GapAnalyser.Provider, decode: GapAnalyser.Decoder): (nat, Json) -> Result<Json> {
    (i: nat, item: Json) => GenerateForGap(item, provider(model, i), decode)
  }

  /** The gap items (langchain_email_generator.py:153), `[]` when the record has none. */
  function GapItems(data: Fields): Json {
    GetDefault(data, "ai_gap_analysis", JArray([]))
  }

  function EmailModel(env: Environment): string {
    GetEnvOr(env, "OPENROUTER_MODEL", GapAnalyser.DefaultModel)
  }

  /** The gathered results of `generate_for_gap` over the gap items. */
  function EmailResults(data: Fields, model: string, provider: GapAnalyser.Provider, decode: GapAnalyser.Decoder): Result<seq<Json>> {
    var items :- Iter(GapItems(data));
    GatherAll(items, RunEmail(model, provider, decode))
  }

  /** The emails normalised as one `emails` dict, then `company` and `model_used` set on it
      (langchain_email_generator.py:157-159). */
  function Finalize(data: Fields, emails: seq<Json>, model: string): Result<Fields> {
    match NormalizeEmailOutput(EmailsObject(JArray(emails)))
    case Err(e) => Err(e)
    case Ok(JObject(f)) =>
      Ok(Update(Update(f, "company", GetDefault(data, "company", JStr(""))), "model_used", JStr(model)))
    case Ok(finalOutput) =>
      Err(PyError(TypeError, "'" + TypeName(finalOutput) + "' object does not support item assignment"))
  }

  /** `generate_email_and_subject_async(data)`: the new dict it returns. */
  function EmailsOf(data: Fields, env: Environment, provider: GapAnalyser.Provider, decode: GapAnalyser.Decoder): Result<Fields> {
    var model := EmailModel(env);
    if Unset(GetEnv(env, "OPENROUTER_API_KEY")) then Err(GapAnalyser.MissingApiKey)
    else
      var emails :- EmailResults(data, model, provider, decode);
      Finalize(data, emails, model)
  }

  lemma {:induction false} FinalizeOk(data: Fields, emails: seq<Json>, model: string)
    ensures Finalize(data, emails, model) ==
      Ok(Update(Update([("emails", JArray(emails))], "company", GetDefault(data, "company", JStr(""))), "model_used", JStr(model)))
  {
    EmailsObjectNormal(emails);
    assert NormalizeEmailOutput(EmailsObject(JArray(emails))) == Ok(JObject([("emails", JArray(emails))]));
  }

  /** Setting `company` and then `model_used` on `{"emails": ...}` appends both keys in that order. */
  lemma {:induction false} FinishKeys(emails: seq<Json>, company: Json, model: string)
    ensures var out := Update(Update([("emails", JArray(emails))], "company", company), "model_used", JStr(model));
      KeysOf(out) == ["emails", "company", "model_used"] &&
      Lookup(out, "emails") == Some(JArray(emails)) && Lookup(out, "company") == Some(company) &&
      Lookup(out, "model_used") == Some(JStr(model))
  {
    FinishKeysDistinct();
    ThreeKeys("emails", "company", "model_used", JArray(emails), company, JStr(model));
  }

  /** Two assignments of new keys to a one-entry dict. */
  lemma {:induction false} ThreeKeys(k1: string, k2: string, k3: string, v1: Json, v2: Json, v3: Json)
    requires k1 != k2 && k1 != k3 && k2 != k3
    ensures var out := Update(Update([(k1, v1)], k2, v2), k3, v3);
      KeysOf(out) == [k1, k2, k3] &&
      Lookup(out, k1) == Some(v1) && Lookup(out, k2) == Some(v2) && Lookup(out, k3) == Some(v3)
  {
    AppendTwo(k1, k2, k3, v1, v2, v3);
    ThreeEntries(k1, k2, k3, v1, v2, v3);
  }

  lemma {:induction false} AppendTwo(k1: string, k2: string, k3: string, v1: Json, v2: Json, v3: Json)
    requires k1 != k2 && k1 != k3 && k2 != k3
    ensures Update(Update([(k1, v1)], k2, v2), k3, v3) == [(k1, v1), (k2, v2), (k3, v3)]
  {
    assert KeysOf([(k1, v1)]) == [k1];
    UpdateAppends([(k1, v1)], k2, v2);
    assert [(k1, v1)] + [(k2, v2)] == [(k1, v1), (k2, v2)];
    assert KeysOf([(k1, v1), (k2, v2)]) == [k1, k2];
    UpdateAppends([(k1, v1), (k2, v2)], k3, v3);
  }

  lemma {:induction false} ThreeEntries(k1: string, k2: string, k3: string, v1: Json, v2: Json, v3: Json)
    requires k1 != k2 && k1 != k3 && k2 != k3
    ensures var out := [(k1, v1), (k2, v2), (k3, v3)];
      KeysOf(out) == [k1, k2, k3] &&
      Lookup(out, k1) == Some(v1) && Lookup(out, k2) == Some(v2) && Lookup(out, k3) == Some(v3)
  {
    var out := [(k1, v1), (k2, v2), (k3, v3)];
    var tail := [(k2, v2), (k3, v3)];
    assert out[1..] == tail && tail[1..] == [(k3, v3)];
    assert Lookup(out, k1) == Some(v1);
    assert Lookup(tail, k2) == Some(v2) && Lookup(tail, k3) == Lookup([(k3, v3)], k3);
    assert KeysOf(out)[0] == k1 && KeysOf(out)[1] == k2 && KeysOf(out)[2] == k3;
  }

  lemma {:induction false} FinishKeysDistinct()
    ensures "emails" != "company" && "emails" != "model_used" && "company" != "model_used"
  {
    assert |"emails"| == 6 && |"company"| == 7 && |"model_used"| == 10;
  }

  /** The keys of the output and the values of `company` and `model_used`. */
  lemma {:induction false} EmailsOutputKeys(data: Fields, env: Environment, provider: GapAnalyser.Provider,
                                            decode: GapAnalyser.Decoder)
    requires EmailsOf(data, env, provider, decode).Ok?
    ensures var out := EmailsOf(data, env, provider, decode).value;
      KeysOf(out) == ["emails", "company", "model_used"] &&
      Lookup(out, "company") == Some(GetDefault(data, "company", JStr(""))) &&
      Lookup(out, "model_used") == Some(JStr(EmailModel(env))) &&
      Lookup(out, "emails") == Some(JArray(EmailResults(data, EmailModel(env), provider, decode).value))
  {
    var model := EmailModel(env);
    var emails := EmailResults(data, model, provider, decode).value;
    FinalizeOk(data, emails, model);
    FinishKeys(emails, GetDefault(data, "company", JStr("")), model);
  }

  /** The output reports the model read from the environment. */
  lemma {:induction false} ModelUsed(data: Fields, env: Environment, provider: GapAnalyser.Provider,
                                     decode: GapAnalyser.Decoder)
    requires EmailsOf(data, env, provider, decode).Ok?
    ensures Lookup(EmailsOf(data, env, provider, decode).value, "model_used") == Some(JStr(EmailModel(env)))
  {
    EmailsOutputKeys(data, env, provider, decode);
  }

  /** The output has exactly the keys `emails`, `company`, `model_used`, in that order: one email per
      gap item in input order, the record's company (default `""`) and the model in use. */
  lemma {:induction false} EmailsOutputShape(data: Fields, env: Environment, provider: GapAnalyser.Provider,
                                             decode: GapAnalyser.Decoder)
    requires EmailsOf(data, env, provider, decode).Ok?
    ensures var out := EmailsOf(data, env, provider, decode).value;
      var items := Iter(GapItems(data)).value;
      KeysOf(out) == ["emails", "company", "model_used"] &&
      Lookup(out, "company") == Some(GetDefault(data, "company", JStr(""))) &&
      Lookup(out, "model_used") == Some(JStr(EmailModel(env))) &&
      exists emails :: (Lookup(out, "emails") == Some(JArray(emails)) && |emails| == |items| &&
        forall i :: 0 <= i < |items| ==>
          emails[i] == GenerateForGap(items[i], provider(EmailModel(env), i), decode).value)
  {
    var model := EmailModel(env);
    EmailsOutputKeys(data, env, provider, decode);
    EmailsInOrder(data, model, provider, decode);
  }

  /** The gathered emails: one per gap item, in input order. */
  lemma {:induction false} EmailsInOrder(data: Fields, model: string, provider: GapAnalyser.Provider, decode: GapAnalyser.Decoder)
    requires EmailResults(data, model, provider, decode).Ok?
    ensures var emails := EmailResults(data, model, provider, decode).value;
      var items := Iter(GapItems(data)).value;
      |emails| == |items| &&
      forall i :: 0 <= i < |items| ==> emails[i] == GenerateForGap(items[i], provider(model, i), decode).value
  {
    var items := Iter(GapItems(data)).value;
    var run := RunEmail(model, provider, decode);
    forall i | 0 <= i < |items|
      ensures run(i, items[i]) == GenerateForGap(items[i], provider(model, i), decode)
    {
    }
  }

  /** A missing API key raises `ValueError` before any email is generated, whatever the record
      holds and whatever the provider would do. */
  lemma {:induction false} EmailsMissingKeyFailsFirst(d1: Fields, d2: Fields, env: Environment,
                                                      p1: GapAnalyser.Provider, p2: GapAnalyser.Provider,
                                                      decode: GapAnalyser.Decoder)
    requires Unset(GetEnv(env, "OPENROUTER_API_KEY"))
    ensures EmailsOf(d1, env, p1, decode) == EmailsOf(d2, env, p2, decode) == Err(GapAnalyser.MissingApiKey)
  {
  }

  /** With every prompt buildable and the key set, the batch fails exactly when some call failed with
      a credit marker, and then with the credits error. */
  lemma {:induction false} BatchCreditFailure(data: Fields, env: Environment, provider: GapAnalyser.Provider,
                                              decode: GapAnalyser.Decoder)
    requires !Unset(GetEnv(env, "OPENROUTER_API_KEY"))
    requires Iter(GapItems(data)).Ok?
    requires forall i :: 0 <= i < |Iter(GapItems(data)).value| ==> PromptBuilds(Iter(GapItems(data)).value[i])
    ensures var items := Iter(GapItems(data)).value;
      EmailsOf(data, env, provider, decode).Err? <==>
        exists i :: (0 <= i < |items| && provider(EmailModel(env), i).CallFailed? &&
                     CreditExhausted(provider(EmailModel(env), i).message))
    ensures EmailsOf(data, env, provider, decode).Err? ==> EmailsOf(data, env, provider, decode).error == CreditsError
  {
    var model := EmailModel(env);
    var items := Iter(GapItems(data)).value;
    var run := RunEmail(model, provider, decode);
    forall i | 0 <= i < |items|
      ensures run(i, items[i]).Ok? || run(i, items[i]) == Err(CreditsError)
      ensures run(i, items[i]).Err? <==> provider(model, i).CallFailed? && CreditExhausted(provider(model, i).message)
    {
      GenerateForGapErrors(items[i], provider(model, i), decode);
    }
    UniformFailure(items, run, CreditsError);
    if GatherAll(items, run).Ok? {
      EmailsObjectNormal(GatherAll(items, run).value);
    }
  }

  /** `generate_email_and_subject(data)`: builds `{"emails": ...}`, then sets `company` and
      `model_used` on it in place; `data` itself is only read. */
  method GenerateEmailAndSubject(data: PyDict, env: Environment, provider: GapAnalyser.Provider,
                                 decode: GapAnalyser.Decoder) returns (r: Result<PyDict>)
    ensures EmailsOf(data.entries, env, provider, decode).Ok? ==>
      r.Ok? && fresh(r.value) && r.value.entries == EmailsOf(data.entries, env, provider, decode).value
    ensures EmailsOf(data.entries, env, provider, decode).Err? ==>
      r == Err(EmailsOf(data.entries, env, provider, decode).error)
  {
    var model := EmailModel(env);
    if Unset(GetEnv(env, "OPENROUTER_API_KEY")) {
      return Err(GapAnalyser.MissingApiKey);
    }
    var items := Iter(GapItems(data.entries));
    if items.Err? {
      return Err(items.error);
    }
    var emails := GatherAll(items.value, RunEmail(model, provider, decode));
    if emails.Err? {
      return Err(emails.error);
    }
    assert EmailResults(data.entries, model, provider, decode) == emails;
    FinalizeOk(data.entries, emails.value, model);
    var finalOutput := new PyDict([("emails", JArray(emails.value))]);
    finalOutput.entries := Update(finalOutput.entries, "company", GetDefault(data.entries, "company", JStr("")));
    finalOutput.entries := Update(finalOutput.entries, "model_used", JStr(model));
    r := Ok(finalOutput);
  }
}

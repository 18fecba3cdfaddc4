/** Completion requests and responses: the record a caller fills in, the map it
    serialises to, and the typed response built from the service's JSON. */
module Completion {
  import opened Values

  /** The parameters of one completion request, with the defaults the record
      declares for every field but the prompt. */
  datatype CompletionRequest = CompletionRequest(
    prompt: Prompt,
    maximumTokens: int := 64,
    temperature: Double := Zero,
    topK: int := 0,
    topP: Double := Zero,
    presencePenalty: Double := Zero,
    frequencyPenalty: Double := Zero,
    repetitionPenaltiesIncludePrompt: bool := false,
    useMultiplicativePresencePenalty: bool := false,
    penaltyBias: Option<string> := None,
    penaltyExceptions: Option<seq<string>> := None,
    penaltyExceptionsIncludeStopSequences: Option<bool> := None,
    bestOf: Option<int> := None,
    n: int := 1,
    logitBias: Option<map<int, Double>> := None,
    logProbs: Option<int> := None,
    stopSequences: Option<seq<string>> := None,
    tokens: bool := false,
    disableOptimizations: bool := false
  )

  /** The field names of a completion request, as its dict keys. */
  const RequestFields: set<string> := {
    "prompt", "maximum_tokens", "temperature", "top_k", "top_p",
    "presence_penalty", "frequency_penalty", "repetition_penalties_include_prompt",
    "use_multiplicative_presence_penalty", "penalty_bias", "penalty_exceptions",
    "penalty_exceptions_include_stop_sequences", "best_of", "n", "logit_bias",
    "log_probs", "stop_sequences", "tokens", "disable_optimizations"
  }

  /** `request._asdict()`: one entry per field, the prompt still a Prompt object. */
  function AsDict(r: CompletionRequest): map<string, Value> {
    map[
      "prompt" := PromptObject(r.prompt),
      "maximum_tokens" := Data(Int(r.maximumTokens)),
      "temperature" := Data(Float(r.temperature)),
      "top_k" := Data(Int(r.topK)),
      "top_p" := Data(Float(r.topP)),
      "presence_penalty" := Data(Float(r.presencePenalty)),
      "frequency_penalty" := Data(Float(r.frequencyPenalty)),
      "repetition_penalties_include_prompt" := Data(Bool(r.repetitionPenaltiesIncludePrompt)),
      "use_multiplicative_presence_penalty" := Data(Bool(r.useMultiplicativePresencePenalty)),
      "penalty_bias" := OptStr(r.penaltyBias),
      "penalty_exceptions" := OptStrs(r.penaltyExceptions),
      "penalty_exceptions_include_stop_sequences" := OptBool(r.penaltyExceptionsIncludeStopSequences),
      "best_of" := OptInt(r.bestOf),
      "n" := Data(Int(r.n)),
      "logit_bias" := OptIntKeyed(r.logitBias),
      "log_probs" := OptInt(r.logProbs),
      "stop_sequences" := OptStrs(r.stopSequences),
      "tokens" := Data(Bool(r.tokens)),
      "disable_optimizations" := Data(Bool(r.disableOptimizations))
    ]
  }

  /** Reference decoder: the request a field map describes, if it has exactly
      the request's fields and each holds a value of the declared type. */
  function FromDict(d: map<string, Value>): Option<CompletionRequest> {
    if d.Keys != RequestFields then None
    else
      var prompt := AsPrompt(d["prompt"]);
      var maximumTokens := AsInt(d["maximum_tokens"]);
      var temperature := AsDouble(d["temperature"]);
      var topK := AsInt(d["top_k"]);
      var topP := AsDouble(d["top_p"]);
      var presencePenalty := AsDouble(d["presence_penalty"]);
      var frequencyPenalty := AsDouble(d["frequency_penalty"]);
      var includePrompt := AsBool(d["repetition_penalties_include_prompt"]);
      var multiplicative := AsBool(d["use_multiplicative_presence_penalty"]);
      var penaltyBias := AsOptStr(d["penalty_bias"]);
      var penaltyExceptions := AsOptStrs(d["penalty_exceptions"]);
      var includeStops := AsOptBool(d["penalty_exceptions_include_stop_sequences"]);
      var bestOf := AsOptInt(d["best_of"]);
      var n := AsInt(d["n"]);
      var logitBias := AsOptIntKeyed(d["logit_bias"]);
      var logProbs := AsOptInt(d["log_probs"]);
      var stopSequences := AsOptStrs(d["stop_sequences"]);
      var tokens := AsBool(d["tokens"]);
      var disableOptimizations := AsBool(d["disable_optimizations"]);
      if && prompt.Some? && maximumTokens.Some? && temperature.Some? && topK.Some?
         && topP.Some? && presencePenalty.Some? && frequencyPenalty.Some?
         && includePrompt.Some? && multiplicative.Some? && penaltyBias.Some?
         && penaltyExceptions.Some? && includeStops.Some? && bestOf.Some? && n.Some?
         && logitBias.Some? && logProbs.Some? && stopSequences.Some? && tokens.Some?
         && disableOptimizations.Some?
      then
        Some(CompletionRequest(
          prompt.value, maximumTokens.value, temperature.value, topK.value, topP.value,
          presencePenalty.value, frequencyPenalty.value, includePrompt.value,
          multiplicative.value, penaltyBias.value, penaltyExceptions.value,
          includeStops.value, bestOf.value, n.value, logitBias.value, logProbs.value,
          stopSequences.value, tokens.value, disableOptimizations.value))
      else None
  }

  /** `_asdict()` loses nothing: the request is recovered from its field map. */
  lemma AsDictRoundTrip(r: CompletionRequest)
    ensures FromDict(AsDict(r)) == Some(r)
  {
    AsDictHoldsFields(r);
    DecodeFields(AsDict(r), r);
  }

  /** The field map holds each field of `r` under its name, encoded by type. */
  ghost predicate HoldsFields(d: map<string, Value>, r: CompletionRequest) {
    && d.Keys == RequestFields
    && d["prompt"] == PromptObject(r.prompt)
    && d["maximum_tokens"] == Data(Int(r.maximumTokens))
    && d["temperature"] == Data(Float(r.temperature))
    && d["top_k"] == Data(Int(r.topK))
    && d["top_p"] == Data(Float(r.topP))
    && d["presence_penalty"] == Data(Float(r.presencePenalty))
    && d["frequency_penalty"] == Data(Float(r.frequencyPenalty))
    && d["repetition_penalties_include_prompt"] == Data(Bool(r.repetitionPenaltiesIncludePrompt))
    && d["use_multiplicative_presence_penalty"] == Data(Bool(r.useMultiplicativePresencePenalty))
    && d["penalty_bias"] == OptStr(r.penaltyBias)
    && d["penalty_exceptions"] == OptStrs(r.penaltyExceptions)
    && d["penalty_exceptions_include_stop_sequences"] == OptBool(r.penaltyExceptionsIncludeStopSequences)
    && d["best_of"] == OptInt(r.bestOf)
    && d["n"] == Data(Int(r.n))
    && d["logit_bias"] == OptIntKeyed(r.logitBias)
    && d["log_probs"] == OptInt(r.logProbs)
    && d["stop_sequences"] == OptStrs(r.stopSequences)
    && d["tokens"] == Data(Bool(r.tokens))
    && d["disable_optimizations"] == Data(Bool(r.disableOptimizations))
  }

  /** `AsDict` meets `HoldsFields`: each field sits under its own name,
      encoded by its declared type. */
  lemma AsDictHoldsFields(r: CompletionRequest)
    ensures HoldsFields(AsDict(r), r)
  {
    AsDictKeys(r);
    AsDictEntries1(r);
    AsDictEntries2(r);
    AsDictEntries3(r);
    AsDictEntries4(r);
    AsDictEntries5(r);
  }

  /** `_asdict()` has exactly the declared field names. */
  lemma AsDictKeys(r: CompletionRequest)
    ensures AsDict(r).Keys == RequestFields
  {
  }

  // AsDictEntries1 to AsDictEntries5 state the entries of `AsDict` a few at
  // a time. They carry no meaning of their own: one lemma looking up all
  // nineteen string keys of the map display at once is too costly for the
  // solver, because each lookup has to tell its key apart from every other.

  lemma AsDictEntries1(r: CompletionRequest)
    ensures var d := AsDict(r);
      && d["prompt"] == PromptObject(r.prompt)
      && d["maximum_tokens"] == Data(Int(r.maximumTokens))
      && d["temperature"] == Data(Float(r.temperature))
  {
  }

  lemma AsDictEntries2(r: CompletionRequest)
    ensures var d := AsDict(r);
      && d["top_k"] == Data(Int(r.topK))
      && d["top_p"] == Data(Float(r.topP))
      && d["presence_penalty"] == Data(Float(r.presencePenalty))
  {
  }

  lemma AsDictEntries3(r: CompletionRequest)
    ensures var d := AsDict(r);
      && d["frequency_penalty"] == Data(Float(r.frequencyPenalty))
      && d["repetition_penalties_include_prompt"] == Data(Bool(r.repetitionPenaltiesIncludePrompt))
      && d["use_multiplicative_presence_penalty"] == Data(Bool(r.useMultiplicativePresencePenalty))
  {
  }

  lemma AsDictEntries4(r: CompletionRequest)
    ensures var d := AsDict(r);
      && d["penalty_bias"] == OptStr(r.penaltyBias)
      && d["penalty_exceptions"] == OptStrs(r.penaltyExceptions)
      && d["penalty_exceptions_include_stop_sequences"] == OptBool(r.penaltyExceptionsIncludeStopSequences)
      && d["best_of"] == OptInt(r.bestOf)
      && d["n"] == Data(Int(r.n))
  {
  }

  lemma AsDictEntries5(r: CompletionRequest)
    ensures var d := AsDict(r);
      && d["logit_bias"] == OptIntKeyed(r.logitBias)
      && d["log_probs"] == OptInt(r.logProbs)
      && d["stop_sequences"] == OptStrs(r.stopSequences)
      && d["tokens"] == Data(Bool(r.tokens))
      && d["disable_optimizations"] == Data(Bool(r.disableOptimizations))
  {
  }

  lemma DecodeFields(d: map<string, Value>, r: CompletionRequest)
    requires HoldsFields(d, r)
    ensures FromDict(d) == Some(r)
  {
    OptStrsRoundTrip(r.penaltyExceptions);
    OptStrsRoundTrip(r.stopSequences);
  }

  /** `request.to_json()`, with `serialize` standing for the prompt module's
      serialiser of prompt items. */
  function ToJson(r: CompletionRequest, serialize: seq<PromptItem> -> Json): (d: map<string, Value>)
    ensures d.Keys == RequestFields
    ensures d["prompt"] == Data(serialize(r.prompt.items))
    ensures forall k :: k in d && k != "prompt" ==> d[k] == AsDict(r)[k]
  {
    AsDictKeys(r);
    AsDict(r)["prompt" := Data(serialize(r.prompt.items))]
  }

  /** Only the prompt is replaced: putting the Prompt object back into the
      serialised map yields a map that decodes to the original request. */
  lemma ToJsonKeepsFields(r: CompletionRequest, serialize: seq<PromptItem> -> Json)
    ensures FromDict(ToJson(r, serialize)["prompt" := PromptObject(r.prompt)]) == Some(r)
  {
    assert ToJson(r, serialize)["prompt" := PromptObject(r.prompt)] == AsDict(r);
    AsDictRoundTrip(r);
  }

  /** A request given only a prompt carries the declared defaults, and they are
      what its serialised map holds. */
  lemma PromptOnlyDefaults(p: Prompt, serialize: seq<PromptItem> -> Json)
    ensures var r := CompletionRequest(p);
      && r.maximumTokens == 64 && r.topK == 0 && r.n == 1
      && r.temperature == Zero && r.topP == Zero
      && r.presencePenalty == Zero && r.frequencyPenalty == Zero
      && !r.tokens && !r.disableOptimizations
      && !r.useMultiplicativePresencePenalty && !r.repetitionPenaltiesIncludePrompt
      && r.penaltyBias.None? && r.penaltyExceptions.None?
      && r.penaltyExceptionsIncludeStopSequences.None? && r.bestOf.None?
      && r.logitBias.None? && r.logProbs.None? && r.stopSequences.None?
    ensures var d := ToJson(CompletionRequest(p), serialize);
      && d["maximum_tokens"] == Data(Int(64)) && d["top_k"] == Data(Int(0))
      && d["n"] == Data(Int(1)) && d["tokens"] == Data(Bool(false))
      && d["disable_optimizations"] == Data(Bool(false))
      && d["use_multiplicative_presence_penalty"] == Data(Bool(false))
      && d["repetition_penalties_include_prompt"] == Data(Bool(false))
      && d["temperature"] == Data(Float(Zero)) && d["top_p"] == Data(Float(Zero))
      && d["presence_penalty"] == Data(Float(Zero)) && d["frequency_penalty"] == Data(Float(Zero))
      && forall k :: k in OptionalFields ==> d[k] == Data(Null)
  {
    var r := CompletionRequest(p);
    AsDictHoldsFields(r);
    assert forall k :: k in OptionalFields ==> k in RequestFields && k != "prompt";
  }

  /** The fields whose declared type is Optional. */
  const OptionalFields: set<string> := {
    "penalty_bias", "penalty_exceptions", "penalty_exceptions_include_stop_sequences",
    "best_of", "logit_bias", "log_probs", "stop_sequences"
  }

  /** The field names of one completion result. */
  const ResultFields: set<string> := {"log_probs", "completion", "completion_tokens", "finish_reason"}

  /** One generated completion. The record's annotations are not enforced, so
      each field holds the JSON value it was given, None by default. */
  datatype CompletionResult = CompletionResult(
    logProbs: Json := Null,
    completion: Json := Null,
    completionTokens: Json := Null,
    finishReason: Json := Null
  )

  /** The typed answer to a completion request. */
  datatype CompletionResponse = CompletionResponse(
    modelVersion: Json,
    completions: seq<CompletionResult>,
    optimizedPrompt: Json := Null
  )

  /** `CompletionResult(**item)`: the item must be a mapping and may name only
      the four result fields; each field it omits is None. A `_cls` key
      collides with the constructor's own first parameter. An item with both
      a `_cls` key and an unknown key fails on whichever Python meets first;
      the model reports the unknown key. */
  function ResultFromJson(item: Json): (r: Result<CompletionResult, Error>)
    ensures r.Success? <==> item.Object? && item.fields.Keys <= ResultFields
    ensures !item.Object? ==> r == Failure(NotAMapping)
    ensures item.Object? && ClsParameter in item.fields && item.fields.Keys - {ClsParameter} <= ResultFields ==>
      r == Failure(MultipleValues)
    ensures item.Object? && ClsParameter !in item.fields && !(item.fields.Keys <= ResultFields) ==>
      r == Failure(UnexpectedKeyword)
    ensures item.Object? && r.Failure? ==> r.error == MultipleValues || r.error == UnexpectedKeyword
    ensures r.Success? ==> forall k :: k in ResultFields && k !in item.fields ==> ResultField(r.value, k) == Null
    ensures r.Success? ==> forall k :: k in item.fields ==> ResultField(r.value, k) == item.fields[k]
  {
    if !item.Object? then Failure(NotAMapping)
    else if !(item.fields.Keys - {ClsParameter} <= ResultFields) then Failure(UnexpectedKeyword)
    else if ClsParameter in item.fields then Failure(MultipleValues)
    else
      var m := item.fields;
      Success(CompletionResult(
        Get(m, "log_probs"), Get(m, "completion"), Get(m, "completion_tokens"), Get(m, "finish_reason")))
  }

  /** A result field looked up by its name. */
  function ResultField(c: CompletionResult, name: string): Json
    requires name in ResultFields
  {
    if name == "log_probs" then c.logProbs
    else if name == "completion" then c.completion
    else if name == "completion_tokens" then c.completionTokens
    else c.finishReason
  }

  /** The JSON object naming every field of a result. */
  function ResultJson(c: CompletionResult): Json {
    Object(map[
      "log_probs" := c.logProbs, "completion" := c.completion,
      "completion_tokens" := c.completionTokens, "finish_reason" := c.finishReason])
  }

  /** Decoding a result from its full JSON object gives back the result. */
  lemma ResultRoundTrip(c: CompletionResult)
    ensures ResultFromJson(ResultJson(c)) == Success(c)
  {
    var r := ResultFromJson(ResultJson(c));
    assert ResultField(r.value, "log_probs") == c.logProbs;
    assert ResultField(r.value, "completion") == c.completion;
    assert ResultField(r.value, "completion_tokens") == c.completionTokens;
    assert ResultField(r.value, "finish_reason") == c.finishReason;
  }

  /** `[CompletionResult(**item) for item in items]`: the first item that fails
      decides the error; otherwise item i yields result i. */
  function ResultsFromJson(items: seq<Json>): (r: Result<seq<CompletionResult>, Error>)
    ensures r.Success? <==> forall i :: 0 <= i < |items| ==> ResultFromJson(items[i]).Success?
    ensures r.Success? ==> |r.value| == |items|
    ensures r.Success? ==> forall i :: 0 <= i < |items| ==> ResultFromJson(items[i]) == Success(r.value[i])
    ensures r.Failure? ==> exists i :: 0 <= i < |items| && ResultFromJson(items[i]) == Failure(r.error)
                                   && forall j :: 0 <= j < i ==> ResultFromJson(items[j]).Success?
  {
    if items == [] then Success([])
    else
      var first :- ResultFromJson(items[0]);
      var rest :- ResultsFromJson(items[1..]);
      Success([first] + rest)
  }

  /** The list comprehension over whatever value `json["completions"]` is:
      a list yields its items; a string iterates over its characters and an
      object over its keys, and each of those is a string, not a mapping;
      any other value cannot be iterated. */
  function CompletionsFromJson(completions: Json): (r: Result<seq<CompletionResult>, Error>)
    ensures completions.Array? ==> r == ResultsFromJson(completions.elems)
    ensures completions.Str? ==> (r.Success? <==> completions.s == [])
    ensures completions.Object? ==> (r.Success? <==> completions.fields == map[])
    ensures (completions.Str? || completions.Object?) && r.Failure? ==> r.error == NotAMapping
    ensures !(completions.Array? || completions.Str? || completions.Object?) ==> r == Failure(NotIterable)
    ensures !completions.Array? && r.Success? ==> r.value == []
  {
    match completions
    case Array(items) => ResultsFromJson(items)
    case Str(s) => if s == [] then Success([]) else Failure(NotAMapping)
    case Object(m) => if m == map[] then Success([]) else Failure(NotAMapping)
    case _ => Failure(NotIterable)
  }

  /** `CompletionResponse.from_json(json)` for a JSON object. */
  function FromJson(json: map<string, Json>): (r: Result<CompletionResponse, Error>)
    ensures "model_version" !in json ==> r == Failure(KeyError("model_version"))
    ensures "model_version" in json && "completions" !in json ==> r == Failure(KeyError("completions"))
    ensures "model_version" in json && "completions" in json ==>
      (r.Success? <==> CompletionsFromJson(json["completions"]).Success?)
    ensures "model_version" in json && "completions" in json && r.Failure? ==>
      r.error == CompletionsFromJson(json["completions"]).error
    ensures r.Success? ==> r.value.modelVersion == json["model_version"]
    ensures r.Success? ==> r.value.optimizedPrompt == Get(json, "optimized_prompt")
    ensures ("model_version" in json && "completions" in json && json["completions"].Array?) ==>
      (r.Success? <==> forall i :: 0 <= i < |json["completions"].elems| ==> ResultFromJson(json["completions"].elems[i]).Success?)
    ensures r.Success? && json["completions"].Array? ==>
      var items := json["completions"].elems;
      |r.value.completions| == |items|
      && forall i :: 0 <= i < |items| ==> ResultFromJson(items[i]) == Success(r.value.completions[i])
    ensures r.Success? && !json["completions"].Array? ==> r.value.completions == []
    ensures "model_version" in json && "completions" in json && json["completions"].Str? ==>
      (r.Success? <==> json["completions"].s == [])
  {
    if "model_version" !in json then Failure(KeyError("model_version"))
    else if "completions" !in json then Failure(KeyError("completions"))
    else
      var completions :- CompletionsFromJson(json["completions"]);
      Success(CompletionResponse(json["model_version"], completions, Get(json, "optimized_prompt")))
  }

  /** `CompletionResponse.from_json(body)` for any decoded body: indexing a
      body that is not an object raises a TypeError. */
  function FromBody(body: Json): (r: Result<CompletionResponse, Error>)
    ensures !body.Object? ==> r == Failure(NotSubscriptable)
    ensures body.Object? ==> r == FromJson(body.fields)
  {
    if body.Object? then FromJson(body.fields) else Failure(NotSubscriptable)
  }
}

/** The model context: a transport client bound to one model name or one
    checkpoint name (never both, never neither) and an optional hosting hint,
    and the exact call it makes to the transport for each operation. */
module ModelContext {
  import opened Values
  import Completion
  import Embedding

  /** The transport operations a model context calls. */
  datatype Endpoint =
    | Complete | Tokenize | Detokenize | Embed | SemanticEmbed
    | Evaluate | Qa | Explain | Summarize

  /** One call into the transport: the operation, its positional arguments and
      its keyword arguments. */
  datatype Call = Call(endpoint: Endpoint, positional: seq<Value>, keywords: map<string, Value>)

  /** The transport client. Its HTTP side is not part of this model: it is
      given by what the service answers to each call, the decoded JSON body
      (whatever JSON value it is) or the error the transport raises (a failed
      request carries its status). */
  class Client {
    const serve: Call -> Result<Json, Error>

    constructor (serve: Call -> Result<Json, Error>)
      ensures this.serve == serve
    {
      this.serve := serve;
    }
  }

  const SelectionMessage: string := "Need to set exactly one of model_name and checkpoint_name."
  const TokenizeMessage: string := "tokenize does not yet support checkpoints"
  const DetokenizeMessage: string := "detokenize does not yet support checkpoints"

  /** The names under which a context adds its routing parameters. */
  const RoutingNames: set<string> := {"model", "hosting", "checkpoint"}

  /** The constructor's check: a ValueError unless exactly one of the model
      name and the checkpoint name is given. */
  function CheckSelection(modelName: Option<string>, checkpointName: Option<string>): (r: Option<Error>)
    ensures r.Some? <==> (modelName.None? && checkpointName.None?) || (modelName.Some? && checkpointName.Some?)
    ensures r.Some? ==> r.value == ValueError(SelectionMessage)
    ensures r.None? <==> (modelName.Some? <==> checkpointName.None?)
  {
    if (modelName.None? && checkpointName.None?) || (modelName.Some? && checkpointName.Some?)
    then Some(ValueError(SelectionMessage))
    else None
  }

  /** `f(**explicit, **unpacked)`: a name given twice is a TypeError; otherwise
      the call receives both sets of keywords. */
  function MergeKeywords(explicit: map<string, Value>, unpacked: map<string, Value>): (r: Result<map<string, Value>, Error>)
    ensures r.Success? <==> explicit.Keys !! unpacked.Keys
    ensures r.Failure? ==> r.error == MultipleValues
    ensures r.Success? ==> r.value.Keys == explicit.Keys + unpacked.Keys
    ensures r.Success? ==> forall k :: k in explicit ==> r.value[k] == explicit[k]
    ensures r.Success? ==> forall k :: k in unpacked ==> r.value[k] == unpacked[k]
  {
    if explicit.Keys !! unpacked.Keys then Success(explicit + unpacked) else Failure(MultipleValues)
  }

  /** `AlephAlphaModel.as_request_dict(request)` for a request with field map
      `fields`: the fields overlaid with `{"prompt": request.prompt.items}`. */
  function AsRequestDict(fields: map<string, Value>): (r: Result<map<string, Value>, Error>)
    ensures "prompt" !in fields ==> r == Failure(AttributeError("prompt"))
    ensures "prompt" in fields && !fields["prompt"].PromptObject? ==> r == Failure(AttributeError("items"))
    ensures r.Success? <==> "prompt" in fields && fields["prompt"].PromptObject?
    ensures r.Success? ==> r.value.Keys == fields.Keys
    ensures r.Success? ==> r.value["prompt"] == PromptItems(fields["prompt"].prompt.items)
    ensures r.Success? ==> forall k :: k in fields && k != "prompt" ==> r.value[k] == fields[k]
  {
    if "prompt" !in fields then Failure(AttributeError("prompt"))
    else if !fields["prompt"].PromptObject? then Failure(AttributeError("items"))
    else
      var overlay := map["prompt" := PromptItems(fields["prompt"].prompt.items)];
      Success(fields + overlay)
  }

  /** The request dict of a typed completion or embedding request always
      exists, keeps the request's field names and replaces only the prompt
      with its items. */
  lemma CompletionRequestDict(r: Completion.CompletionRequest)
    ensures var d := AsRequestDict(Completion.AsDict(r));
      && d.Success?
      && d.value.Keys == Completion.RequestFields
      && d.value["prompt"] == PromptItems(r.prompt.items)
      && forall k :: k in d.value && k != "prompt" ==> d.value[k] == Completion.AsDict(r)[k]
  {
    Completion.AsDictKeys(r);
    Completion.AsDictEntries1(r);
  }

  lemma EmbeddingRequestDict(r: Embedding.EmbeddingRequest)
    ensures var d := AsRequestDict(Embedding.AsDict(r));
      && d.Success?
      && d.value.Keys == Embedding.RequestFields
      && d.value["prompt"] == PromptItems(r.prompt.items)
      && forall k :: k in d.value && k != "prompt" ==> d.value[k] == Embedding.AsDict(r)[k]
  {
  }

  /** No request field is named like a routing parameter. */
  lemma RoutingNamesApart()
    ensures RoutingNames !! Completion.RequestFields
    ensures RoutingNames !! Embedding.RequestFields
  {
  }

  /** The transport's answer to `call`, decoded by `decode`. */
  function Exchange<T>(client: Client, call: Call, decode: Json -> Result<T, Error>): (r: Result<T, Error>)
    ensures client.serve(call).Failure? ==> r == Failure(client.serve(call).error)
    ensures client.serve(call).Success? ==> r == decode(client.serve(call).value)
  {
    var json :- client.serve(call);
    decode(json)
  }

  /** The decoded JSON itself, for operations whose response records are not
      part of this model. */
  function Raw(json: Json): Result<Json, Error> {
    Success(json)
  }

  class AlephAlphaModel {
    const client: Client
    const modelName: Option<string>
    const hosting: Option<string>
    const checkpointName: Option<string>

    /** Exactly one of the model name and the checkpoint name is set. */
    predicate Valid() {
      modelName.Some? <==> checkpointName.None?
    }

    constructor (client: Client, modelName: Option<string>, hosting: Option<string>, checkpointName: Option<string>)
      requires CheckSelection(modelName, checkpointName).None?
      ensures Valid()
      ensures this.client == client && this.modelName == modelName
      ensures this.hosting == hosting && this.checkpointName == checkpointName
    {
      this.client := client;
      this.modelName := modelName;
      this.hosting := hosting;
      this.checkpointName := checkpointName;
    }

    /** `AlephAlphaModel(client, model_name, hosting, checkpoint_name)`: fails
        with a ValueError exactly when both names or neither are given;
        otherwise a fresh context storing the four arguments. The fields are
        constants, so no operation changes them afterwards. */
    static method Create(client: Client, modelName: Option<string> := None, hosting: Option<string> := None,
                         checkpointName: Option<string> := None)
      returns (r: Result<AlephAlphaModel, Error>)
      ensures r.Failure? <==> (modelName.None? && checkpointName.None?) || (modelName.Some? && checkpointName.Some?)
      ensures r.Failure? ==> r.error == ValueError(SelectionMessage)
      ensures r.Success? ==> fresh(r.value) && r.value.Valid()
      ensures r.Success? ==> r.value.client == client && r.value.modelName == modelName
      ensures r.Success? ==> r.value.hosting == hosting && r.value.checkpointName == checkpointName
    {
      var problem := CheckSelection(modelName, checkpointName);
      if problem.Some? {
        return Failure(problem.value);
      }
      var context := new AlephAlphaModel(client, modelName, hosting, checkpointName);
      return Success(context);
    }

    /** `model=`, `hosting=` and `checkpoint=` as this context passes them. */
    function Routing(): (kw: map<string, Value>)
      ensures kw.Keys == RoutingNames
      ensures kw["model"] == OptStr(modelName)
      ensures kw["hosting"] == OptStr(hosting)
      ensures kw["checkpoint"] == OptStr(checkpointName)
    {
      map["model" := OptStr(modelName), "hosting" := OptStr(hosting), "checkpoint" := OptStr(checkpointName)]
    }

    /** A valid context routes by exactly one of its two names: the other is
        passed as None. */
    lemma RoutingSelectsOne()
      requires Valid()
      ensures (Routing()["model"] == Data(Null)) != (Routing()["checkpoint"] == Data(Null))
    {
    }

    /** The call `complete` makes: the routing parameters unchanged together
        with the request dict, whose prompt is replaced by its items. */
    function CompleteCall(request: Completion.CompletionRequest): (c: Call)
      ensures c.endpoint == Endpoint.Complete && c.positional == []
      ensures c.keywords.Keys == RoutingNames + Completion.RequestFields
      ensures forall k :: k in RoutingNames ==> c.keywords[k] == Routing()[k]
      ensures c.keywords["prompt"] == PromptItems(request.prompt.items)
      ensures forall k :: k in Completion.RequestFields && k != "prompt" ==>
        c.keywords[k] == Completion.AsDict(request)[k]
    {
      CompletionRequestDict(request);
      RoutingNamesApart();
      var unpacked := AsRequestDict(Completion.AsDict(request)).value;
      var keywords := MergeKeywords(Routing(), unpacked).value;
      Call(Endpoint.Complete, [], keywords)
    }

    /** `complete(request)`: the completion response the transport's answer
        to exactly that call decodes to. */
    function Complete(request: Completion.CompletionRequest): (r: Result<Completion.CompletionResponse, Error>)
      ensures var answer := client.serve(CompleteCall(request));
        && (answer.Failure? ==> r == Failure(answer.error))
        && (answer.Success? ==> r == Completion.FromBody(answer.value))
    {
      Exchange(client, CompleteCall(request), Completion.FromBody)
    }

    /** The call `tokenize` makes. With assertions enabled (`debug`, Python's
        `__debug__`, False under `python -O`) a checkpoint context is refused;
        otherwise the model name, None when there is none, and the request's
        own fields only. */
    function TokenizeCall(request: NamedTuple, debug: bool): (r: Result<Call, Error>)
      ensures debug && modelName.None? ==> r == Failure(AssertionError(TokenizeMessage))
      ensures !(debug && modelName.None?) ==> (r.Success? <==> "model" !in request.fields)
      ensures !(debug && modelName.None?) && r.Failure? ==> r.error == MultipleValues
      ensures r.Success? ==>
        && r.value.endpoint == Endpoint.Tokenize && r.value.positional == []
        && r.value.keywords.Keys == {"model"} + request.fields.Keys
        && r.value.keywords["model"] == OptStr(modelName)
        && forall k :: k in request.fields ==> r.value.keywords[k] == request.fields[k]
    {
      if debug && modelName.None? then Failure(AssertionError(TokenizeMessage))
      else
        var keywords :- MergeKeywords(map["model" := OptStr(modelName)], request.fields);
        Success(Call(Endpoint.Tokenize, [], keywords))
    }

    /** `tokenize(request)`, answering with the decoded JSON. */
    function Tokenize(request: NamedTuple, debug: bool): (r: Result<Json, Error>)
      ensures TokenizeCall(request, debug).Failure? ==> r == Failure(TokenizeCall(request, debug).error)
      ensures TokenizeCall(request, debug).Success? ==> r == client.serve(TokenizeCall(request, debug).value)
    {
      var call :- TokenizeCall(request, debug);
      Exchange(client, call, Raw)
    }

    /** The call `detokenize` makes. With assertions enabled (`debug`, Python's
        `__debug__`, False under `python -O`) a checkpoint context is refused;
        otherwise the model name, None when there is none, and the request's
        own fields only. */
    function DetokenizeCall(request: NamedTuple, debug: bool): (r: Result<Call, Error>)
      ensures debug && modelName.None? ==> r == Failure(AssertionError(DetokenizeMessage))
      ensures !(debug && modelName.None?) ==> (r.Success? <==> "model" !in request.fields)
      ensures !(debug && modelName.None?) && r.Failure? ==> r.error == MultipleValues
      ensures r.Success? ==>
        && r.value.endpoint == Endpoint.Detokenize && r.value.positional == []
        && r.value.keywords.Keys == {"model"} + request.fields.Keys
        && r.value.keywords["model"] == OptStr(modelName)
        && forall k :: k in request.fields ==> r.value.keywords[k] == request.fields[k]
    {
      if debug && modelName.None? then Failure(AssertionError(DetokenizeMessage))
      else
        var keywords :- MergeKeywords(map["model" := OptStr(modelName)], request.fields);
        Success(Call(Endpoint.Detokenize, [], keywords))
    }

    /** `detokenize(request)`, answering with the decoded JSON. */
    function Detokenize(request: NamedTuple, debug: bool): (r: Result<Json, Error>)
      ensures DetokenizeCall(request, debug).Failure? ==> r == Failure(DetokenizeCall(request, debug).error)
      ensures DetokenizeCall(request, debug).Success? ==> r == client.serve(DetokenizeCall(request, debug).value)
    {
      var call :- DetokenizeCall(request, debug);
      Exchange(client, call, Raw)
    }

    /** On a valid context, tokenize and detokenize are refused exactly when
        assertions are enabled and the context names a checkpoint; with
        assertions stripped a checkpoint context forwards `model=None`. They
        never forward hosting or a checkpoint of the context's own. */
    lemma TokenizationRouting(request: NamedTuple, debug: bool)
      requires Valid()
      requires "model" !in request.fields
      ensures TokenizeCall(request, debug).Failure? <==> debug && checkpointName.Some?
      ensures DetokenizeCall(request, debug).Failure? <==> debug && checkpointName.Some?
      ensures !debug && checkpointName.Some? ==>
        && TokenizeCall(request, debug).value.keywords["model"] == Data(Null)
        && DetokenizeCall(request, debug).value.keywords["model"] == Data(Null)
      ensures TokenizeCall(request, debug).Success? ==>
        && ("hosting" in TokenizeCall(request, debug).value.keywords <==> "hosting" in request.fields)
        && ("checkpoint" in TokenizeCall(request, debug).value.keywords <==> "checkpoint" in request.fields)
      ensures DetokenizeCall(request, debug).Success? ==>
        && ("hosting" in DetokenizeCall(request, debug).value.keywords <==> "hosting" in request.fields)
        && ("checkpoint" in DetokenizeCall(request, debug).value.keywords <==> "checkpoint" in request.fields)
    {
    }

    /** The call `embed` makes, built like that of `complete`. */
    function EmbedCall(request: Embedding.EmbeddingRequest): (c: Call)
      ensures c.endpoint == Endpoint.Embed && c.positional == []
      ensures c.keywords.Keys == RoutingNames + Embedding.RequestFields
      ensures forall k :: k in RoutingNames ==> c.keywords[k] == Routing()[k]
      ensures c.keywords["prompt"] == PromptItems(request.prompt.items)
      ensures forall k :: k in Embedding.RequestFields && k != "prompt" ==>
        c.keywords[k] == Embedding.AsDict(request)[k]
    {
      EmbeddingRequestDict(request);
      RoutingNamesApart();
      var unpacked := AsRequestDict(Embedding.AsDict(request)).value;
      var keywords := MergeKeywords(Routing(), unpacked).value;
      Call(Endpoint.Embed, [], keywords)
    }

    /** `embed(request)`: the embedding response the answer decodes to. */
    function Embed(request: Embedding.EmbeddingRequest): (r: Result<Embedding.EmbeddingResponse, Error>)
      ensures var answer := client.serve(EmbedCall(request));
        && (answer.Failure? ==> r == Failure(answer.error))
        && (answer.Success? ==> r == Embedding.FromBody(answer.value))
    {
      Exchange(client, EmbedCall(request), Embedding.FromBody)
    }

    /** The call `semantic_embed` makes: the routing parameters and the request
        object itself. */
    function SemanticEmbedCall(request: Embedding.SemanticEmbeddingRequest): (c: Call)
      ensures c.endpoint == Endpoint.SemanticEmbed && c.positional == []
      ensures c.keywords.Keys == RoutingNames + {"request"}
      ensures forall k :: k in RoutingNames ==> c.keywords[k] == Routing()[k]
      ensures c.keywords["request"] == Embedding.SemanticAsObject(request)
    {
      Call(Endpoint.SemanticEmbed, [], Routing()["request" := Embedding.SemanticAsObject(request)])
    }

    /** `semantic_embed(request)`: the semantic embedding response the answer
        decodes to. */
    function SemanticEmbed(request: Embedding.SemanticEmbeddingRequest): (r: Result<Embedding.SemanticEmbeddingResponse, Error>)
      ensures var answer := client.serve(SemanticEmbedCall(request));
        && (answer.Failure? ==> r == Failure(answer.error))
        && (answer.Success? ==> r == Embedding.SemanticFromBody(answer.value))
    {
      Exchange(client, SemanticEmbedCall(request), Embedding.SemanticFromBody)
    }

    /** The call `evaluate` makes: like `complete`, for an evaluation request
        given by its field map. */
    function EvaluateCall(request: NamedTuple): (r: Result<Call, Error>)
      ensures AsRequestDict(request.fields).Failure? ==> r == Failure(AsRequestDict(request.fields).error)
      ensures AsRequestDict(request.fields).Success? ==> (r.Success? <==> RoutingNames !! request.fields.Keys)
      ensures r.Success? ==>
        && r.value.endpoint == Endpoint.Evaluate && r.value.positional == []
        && r.value.keywords.Keys == RoutingNames + request.fields.Keys
        && (forall k :: k in RoutingNames ==> r.value.keywords[k] == Routing()[k])
        && r.value.keywords["prompt"] == PromptItems(request.fields["prompt"].prompt.items)
        && forall k :: k in request.fields && k != "prompt" ==> r.value.keywords[k] == request.fields[k]
    {
      var unpacked :- AsRequestDict(request.fields);
      var keywords :- MergeKeywords(Routing(), unpacked);
      Success(Call(Endpoint.Evaluate, [], keywords))
    }

    /** `evaluate(request)`, answering with the decoded JSON. */
    function Evaluate(request: NamedTuple): (r: Result<Json, Error>)
      ensures EvaluateCall(request).Failure? ==> r == Failure(EvaluateCall(request).error)
      ensures EvaluateCall(request).Success? ==> r == client.serve(EvaluateCall(request).value)
    {
      var call :- EvaluateCall(request);
      Exchange(client, call, Raw)
    }

    /** The call `qa` makes: the routing parameters with the request's own
        field map, the prompt left as it is. */
    function QaCall(request: NamedTuple): (r: Result<Call, Error>)
      ensures r.Success? <==> RoutingNames !! request.fields.Keys
      ensures r.Failure? ==> r.error == MultipleValues
      ensures r.Success? ==>
        && r.value.endpoint == Endpoint.Qa && r.value.positional == []
        && r.value.keywords.Keys == RoutingNames + request.fields.Keys
        && (forall k :: k in RoutingNames ==> r.value.keywords[k] == Routing()[k])
        && forall k :: k in request.fields ==> r.value.keywords[k] == request.fields[k]
    {
      var keywords :- MergeKeywords(Routing(), request.fields);
      Success(Call(Endpoint.Qa, [], keywords))
    }

    /** `qa(request)`, answering with the decoded JSON. */
    function Qa(request: NamedTuple): (r: Result<Json, Error>)
      ensures QaCall(request).Failure? ==> r == Failure(QaCall(request).error)
      ensures QaCall(request).Success? ==> r == client.serve(QaCall(request).value)
    {
      var call :- QaCall(request);
      Exchange(client, call, Raw)
    }

    /** Unlike `evaluate`, `qa` forwards the Prompt object, not its items. */
    lemma QaKeepsPromptObject(request: NamedTuple)
      requires "prompt" in request.fields && request.fields["prompt"].PromptObject?
      requires RoutingNames !! request.fields.Keys
      ensures QaCall(request).Success? && EvaluateCall(request).Success?
      ensures QaCall(request).value.keywords["prompt"] == request.fields["prompt"]
      ensures EvaluateCall(request).value.keywords["prompt"] != QaCall(request).value.keywords["prompt"]
    {
    }

    /** The call `_explain` makes: the routing parameters and the request
        object itself. */
    function ExplainCall(request: NamedTuple): (c: Call)
      ensures c.endpoint == Endpoint.Explain && c.positional == []
      ensures c.keywords.Keys == RoutingNames + {"request"}
      ensures forall k :: k in RoutingNames ==> c.keywords[k] == Routing()[k]
      ensures c.keywords["request"] == Record(request)
    {
      Call(Endpoint.Explain, [], Routing()["request" := Record(request)])
    }

    /** `_explain(request)`: the transport's answer, returned as it is. */
    function Explain(request: NamedTuple): (r: Result<Json, Error>)
      ensures r == client.serve(ExplainCall(request))
    {
      Exchange(client, ExplainCall(request), Raw)
    }

    /** The call `summarize` makes: the model name and the request object
        positionally, hosting and checkpoint by keyword. */
    function SummarizeCall(request: NamedTuple): (c: Call)
      ensures c.endpoint == Endpoint.Summarize
      ensures c.positional == [Routing()["model"], Record(request)]
      ensures c.keywords.Keys == {"hosting", "checkpoint"}
      ensures c.keywords["hosting"] == Routing()["hosting"]
      ensures c.keywords["checkpoint"] == Routing()["checkpoint"]
    {
      Call(Endpoint.Summarize, [OptStr(modelName), Record(request)],
        map["hosting" := OptStr(hosting), "checkpoint" := OptStr(checkpointName)])
    }

    /** `summarize(request)`, answering with the decoded JSON. */
    function Summarize(request: NamedTuple): (r: Result<Json, Error>)
      ensures r == client.serve(SummarizeCall(request))
    {
      Exchange(client, SummarizeCall(request), Raw)
    }

    /** Every operation forwards the same routing parameters, whatever the
        request: the model, hosting and checkpoint a call carries depend on
        the context alone, and the context's fields are constants. */
    lemma RoutingIsStable(a: Completion.CompletionRequest, b: Embedding.EmbeddingRequest,
                          s: Embedding.SemanticEmbeddingRequest, x: NamedTuple)
      ensures forall k :: k in RoutingNames ==>
        && CompleteCall(a).keywords[k] == EmbedCall(b).keywords[k]
        && EmbedCall(b).keywords[k] == SemanticEmbedCall(s).keywords[k]
        && SemanticEmbedCall(s).keywords[k] == ExplainCall(x).keywords[k]
    {
      var complete, embed, semantic, explain := CompleteCall(a), EmbedCall(b), SemanticEmbedCall(s), ExplainCall(x);
      assert forall k :: k in RoutingNames ==>
        && complete.keywords[k] == Routing()[k] && embed.keywords[k] == Routing()[k]
        && semantic.keywords[k] == Routing()[k] && explain.keywords[k] == Routing()[k];
    }

    /** The operations on requests given by their field maps carry the same
        routing values as `complete`, whatever the requests: evaluate and qa
        when their call is made, summarize's positional model and its hosting
        and checkpoint keywords, and the model tokenize and detokenize
        forward. */
    lemma RoutingMatchesComplete(a: Completion.CompletionRequest, e: NamedTuple, q: NamedTuple,
                                 x: NamedTuple, t: NamedTuple, debug: bool)
      ensures forall k :: k in RoutingNames ==>
        && (EvaluateCall(e).Success? ==> EvaluateCall(e).value.keywords[k] == CompleteCall(a).keywords[k])
        && (QaCall(q).Success? ==> QaCall(q).value.keywords[k] == CompleteCall(a).keywords[k])
      ensures SummarizeCall(x).positional[0] == CompleteCall(a).keywords["model"]
      ensures SummarizeCall(x).keywords["hosting"] == CompleteCall(a).keywords["hosting"]
      ensures SummarizeCall(x).keywords["checkpoint"] == CompleteCall(a).keywords["checkpoint"]
      ensures TokenizeCall(t, debug).Success? ==>
        TokenizeCall(t, debug).value.keywords["model"] == CompleteCall(a).keywords["model"]
      ensures DetokenizeCall(t, debug).Success? ==>
        DetokenizeCall(t, debug).value.keywords["model"] == CompleteCall(a).keywords["model"]
    {
    }
  }
}

/** Embedding requests and responses: plain embeddings, whose response is a
    two-level map from layer and pooling to a vector, and semantic embeddings,
    whose request names one of three representations. */
module Embedding {
  import opened Values

  /** The parameters of one embedding request. */
  datatype EmbeddingRequest = EmbeddingRequest(
    prompt: Prompt,
    layers: seq<int>,
    pooling: seq<string>,
    embeddingType: Option<string> := None,
    tokens: bool := false
  )

  /** The field names of an embedding request, as its dict keys. */
  const RequestFields: set<string> := {"prompt", "layers", "pooling", "type", "tokens"}

  /** `request._asdict()`. */
  function AsDict(r: EmbeddingRequest): (d: map<string, Value>)
    ensures d.Keys == RequestFields
    ensures d["prompt"] == PromptObject(r.prompt)
  {
    map[
      "prompt" := PromptObject(r.prompt),
      "layers" := Data(IntArray(r.layers)),
      "pooling" := Data(StrArray(r.pooling)),
      "type" := OptStr(r.embeddingType),
      "tokens" := Data(Bool(r.tokens))
    ]
  }

  /** Reference decoder: the request a field map describes, if it has exactly
      the request's fields and each holds a value of the declared type. */
  function FromDict(d: map<string, Value>): Option<EmbeddingRequest> {
    if d.Keys != RequestFields || !d["layers"].Data? || !d["pooling"].Data? then None
    else
      var prompt := AsPrompt(d["prompt"]);
      var layers := AsInts(d["layers"].json);
      var pooling := AsStrs(d["pooling"].json);
      var embeddingType := AsOptStr(d["type"]);
      var tokens := AsBool(d["tokens"]);
      if prompt.Some? && layers.Some? && pooling.Some? && embeddingType.Some? && tokens.Some?
      then Some(EmbeddingRequest(prompt.value, layers.value, pooling.value, embeddingType.value, tokens.value))
      else None
  }

  /** `_asdict()` loses nothing: the request is recovered from its field map. */
  lemma AsDictRoundTrip(r: EmbeddingRequest)
    ensures FromDict(AsDict(r)) == Some(r)
  {
    IntArrayRoundTrip(r.layers);
    StrArrayRoundTrip(r.pooling);
  }

  /** `request.to_json()`, with `serialize` standing for the prompt module's
      serialiser of prompt items. */
  function ToJson(r: EmbeddingRequest, serialize: seq<PromptItem> -> Json): (d: map<string, Value>)
    ensures d.Keys == RequestFields
    ensures d["prompt"] == Data(serialize(r.prompt.items))
    ensures forall k :: k in d && k != "prompt" ==> d[k] == AsDict(r)[k]
  {
    AsDict(r)["prompt" := Data(serialize(r.prompt.items))]
  }

  /** Only the prompt is replaced: `layers`, `pooling`, `type` and `tokens`
      come through unchanged, so putting the Prompt object back recovers the
      request. */
  lemma ToJsonKeepsFields(r: EmbeddingRequest, serialize: seq<PromptItem> -> Json)
    ensures FromDict(ToJson(r, serialize)["prompt" := PromptObject(r.prompt)]) == Some(r)
  {
    assert ToJson(r, serialize)["prompt" := PromptObject(r.prompt)] == AsDict(r);
    AsDictRoundTrip(r);
  }

  /** The typed answer to an embedding request. The record's annotations are
      not enforced, so the copied fields hold the JSON values given. */
  datatype EmbeddingResponse = EmbeddingResponse(
    modelVersion: Json,
    embeddings: map<(string, string), Json>,
    tokens: Json,
    message: Json := Null
  )

  /** The nested dict comprehension: the pair (layer, pooling) is a key exactly
      when pooling is a key of layer's map, and it maps to the vector there. */
  function Flatten<V>(layers: map<string, map<string, V>>): (r: map<(string, string), V>)
    ensures forall x :: x in r <==> x.0 in layers && x.1 in layers[x.0]
    ensures forall x :: x in r ==> r[x] == layers[x.0][x.1]
  {
    map l, p | l in layers && p in layers[l] :: (l, p) := layers[l][p]
  }

  /** `embeddings.items()` and `pooling_dict.items()`: both levels must be
      mappings. */
  function PoolingMaps(embeddings: Json): (r: Result<map<string, map<string, Json>>, Error>)
    ensures r.Success? <==> embeddings.Object? && forall l :: l in embeddings.fields ==> embeddings.fields[l].Object?
    ensures r.Failure? ==> r.error == AttributeError("items")
    ensures r.Success? ==> r.value.Keys == embeddings.fields.Keys
    ensures r.Success? ==> forall l :: l in r.value ==> r.value[l] == embeddings.fields[l].fields
  {
    if embeddings.Object? && forall l :: l in embeddings.fields ==> embeddings.fields[l].Object?
    then Success(map l | l in embeddings.fields :: embeddings.fields[l].fields)
    else Failure(AttributeError("items"))
  }

  /** `EmbeddingResponse.from_json(json)`. */
  function FromJson(json: map<string, Json>): (r: Result<EmbeddingResponse, Error>)
    ensures "model_version" !in json ==> r == Failure(KeyError("model_version"))
    ensures "model_version" in json && "embeddings" !in json ==> r == Failure(KeyError("embeddings"))
    ensures "model_version" in json && "embeddings" in json ==>
      var e := json["embeddings"];
      (r.Success? <==> e.Object? && forall l :: l in e.fields ==> e.fields[l].Object?)
      && (r.Failure? ==> r.error == AttributeError("items"))
    ensures r.Success? ==>
      && r.value.modelVersion == json["model_version"]
      && r.value.tokens == Get(json, "tokens")
      && r.value.message == Get(json, "message")
    ensures r.Success? ==>
      var outer := json["embeddings"].fields;
      && (forall l, p :: (l, p) in r.value.embeddings <==> l in outer && p in outer[l].fields)
      && (forall l, p :: (l, p) in r.value.embeddings ==> r.value.embeddings[(l, p)] == outer[l].fields[p])
  {
    if "model_version" !in json then Failure(KeyError("model_version"))
    else if "embeddings" !in json then Failure(KeyError("embeddings"))
    else
      var layers :- PoolingMaps(json["embeddings"]);
      var flat := Flatten(layers);
      assert forall l, p :: (l, p) in flat <==> l in layers && p in layers[l] by {
        forall l, p ensures (l, p) in flat <==> l in layers && p in layers[l] {
          assert (l, p).0 == l && (l, p).1 == p;
        }
      }
      Success(EmbeddingResponse(json["model_version"], flat, Get(json, "tokens"), Get(json, "message")))
  }

  /** `EmbeddingResponse.from_json(body)` for any decoded body: indexing a
      body that is not an object raises a TypeError. */
  function FromBody(body: Json): (r: Result<EmbeddingResponse, Error>)
    ensures !body.Object? ==> r == Failure(NotSubscriptable)
    ensures body.Object? ==> r == FromJson(body.fields)
  {
    if body.Object? then FromJson(body.fields) else Failure(NotSubscriptable)
  }

  /** One layer with its chosen pooling map, for summing sizes. */
  ghost function SomeLayer<V>(layers: map<string, map<string, V>>): (l: string)
    requires layers != map[]
    ensures l in layers
  {
    var l :| l in layers; l
  }

  /** The sum of the sizes of the inner maps. */
  ghost function TotalSize<V>(layers: map<string, map<string, V>>): nat
    decreases |layers|
  {
    if layers == map[] then 0
    else
      var l := SomeLayer(layers);
      assert |layers - {l}| < |layers| by { assert (layers - {l}).Keys == layers.Keys - {l}; }
      |layers[l]| + TotalSize(layers - {l})
  }

  /** The sum does not depend on which layer is taken out first. */
  lemma {:induction false} TotalSizeRemove<V>(layers: map<string, map<string, V>>, l: string)
    requires l in layers
    ensures TotalSize(layers) == |layers[l]| + TotalSize(layers - {l})
    decreases |layers|
  {
    var k := SomeLayer(layers);
    if k != l {
      assert (layers - {k}).Keys == layers.Keys - {k};
      assert (layers - {l}).Keys == layers.Keys - {l};
      TotalSizeRemove(layers - {k}, l);
      TotalSizeRemove(layers - {l}, k);
      assert layers - {k} - {l} == layers - {l} - {k};
    }
  }

  /** The entries one layer contributes to the flattened map. */
  function Row<V>(l: string, inner: map<string, V>): (r: map<(string, string), V>)
    ensures forall x :: x in r <==> x.0 == l && x.1 in inner
  {
    map p | p in inner :: (l, p) := inner[p]
  }

  lemma {:induction false} RowSize<V>(l: string, inner: map<string, V>)
    ensures |Row(l, inner)| == |inner|
    decreases |inner|
  {
    if inner != map[] {
      var p :| p in inner;
      var rest := inner - {p};
      assert rest.Keys == inner.Keys - {p};
      RowSize(l, rest);
      assert Row(l, inner).Keys == Row(l, rest).Keys + {(l, p)};
    }
  }

  /** Flattening splits into one layer's row and the rest, which are disjoint. */
  lemma FlattenSplit<V>(layers: map<string, map<string, V>>, l: string)
    requires l in layers
    ensures Flatten(layers).Keys == Flatten(layers - {l}).Keys + Row(l, layers[l]).Keys
    ensures Flatten(layers - {l}).Keys !! Row(l, layers[l]).Keys
  {
    var rest := layers - {l};
    var all, others, row := Flatten(layers).Keys, Flatten(rest).Keys, Row(l, layers[l]).Keys;
    forall x | x in all ensures x in others || x in row {
      if x.0 != l {
        assert x.0 in rest;
      }
    }
    forall x | x in others ensures x in all && x !in row {
      assert x.0 in rest;
    }
    assert all == others + row;
  }

  /** No two entries collide: the flattened map has as many entries as all
      inner maps together. */
  lemma {:induction false} FlattenSize<V>(layers: map<string, map<string, V>>)
    ensures |Flatten(layers)| == TotalSize(layers)
    decreases |layers|
  {
    if layers == map[] {
      assert Flatten(layers).Keys == {};
    } else {
      var l := SomeLayer(layers);
      var rest := layers - {l};
      assert rest.Keys == layers.Keys - {l};
      FlattenSize(rest);
      RowSize(l, layers[l]);
      FlattenSplit(layers, l);
    }
  }

  /** The response's map has one entry per (layer, pooling) pair of the JSON. */
  lemma FromJsonSize(json: map<string, Json>)
    requires FromJson(json).Success?
    ensures PoolingMaps(json["embeddings"]).Success?
    ensures |FromJson(json).value.embeddings| == TotalSize(PoolingMaps(json["embeddings"]).value)
  {
    FlattenSize(PoolingMaps(json["embeddings"]).value);
  }

  /** The representations a prompt can be embedded with. */
  datatype SemanticRepresentation = Symmetric | Document | Query

  /** The member's name in its Enum class. */
  function RepresentationName(rep: SemanticRepresentation): string {
    match rep
    case Symmetric => "Symmetric"
    case Document => "Document"
    case Query => "Query"
  }

  /** `representation.value`, the string sent on the wire. */
  function RepresentationValue(rep: SemanticRepresentation): (s: string)
    ensures s in {"symmetric", "document", "query"}
  {
    match rep
    case Symmetric => "symmetric"
    case Document => "document"
    case Query => "query"
  }

  /** `SemanticRepresentation(s)`: the member with value `s`; any other string
      is rejected with a ValueError. */
  function RepresentationFromValue(s: string): (r: Result<SemanticRepresentation, Error>)
    ensures r.Success? <==> s in {"symmetric", "document", "query"}
    ensures r.Success? ==> RepresentationValue(r.value) == s
    ensures r.Failure? ==> r.error == ValueError(NotARepresentation(s))
  {
    if s == "symmetric" then Success(Symmetric)
    else if s == "document" then Success(Document)
    else if s == "query" then Success(Query)
    else Failure(ValueError(NotARepresentation(s)))
  }

  /** The Enum lookup's message, the value quoted as its repr quotes it. */
  function NotARepresentation(s: string): string {
    "'" + s + "' is not a valid SemanticRepresentation"
  }

  /** The three values are distinct, so a representation is recovered from its
      value and the enum member stored in a request is told apart from the others. */
  lemma RepresentationRoundTrip(rep: SemanticRepresentation)
    ensures RepresentationFromValue(RepresentationValue(rep)) == Success(rep)
  {
  }

  lemma RepresentationValueInjective(a: SemanticRepresentation, b: SemanticRepresentation)
    ensures RepresentationValue(a) == RepresentationValue(b) <==> a == b
  {
  }

  /** The member object `SemanticRepresentation.X` as it sits in a field map. */
  function RepresentationMember(rep: SemanticRepresentation): Value {
    EnumMember("SemanticRepresentation", RepresentationName(rep), RepresentationValue(rep))
  }

  /** The parameters of one semantic embedding request. */
  datatype SemanticEmbeddingRequest = SemanticEmbeddingRequest(
    prompt: Prompt,
    representation: SemanticRepresentation,
    compressToSize: Option<int> := None
  )

  /** The field names of a semantic embedding request, as its dict keys. */
  const SemanticRequestFields: set<string> := {"prompt", "representation", "compress_to_size"}

  /** `request._asdict()`: the representation is still the enum member. */
  function SemanticAsDict(r: SemanticEmbeddingRequest): (d: map<string, Value>)
    ensures d.Keys == SemanticRequestFields
    ensures d["prompt"] == PromptObject(r.prompt)
    ensures d["representation"] == RepresentationMember(r.representation)
  {
    map[
      "prompt" := PromptObject(r.prompt),
      "representation" := RepresentationMember(r.representation),
      "compress_to_size" := OptInt(r.compressToSize)
    ]
  }

  /** The request as an object passed whole to the transport. */
  function SemanticAsObject(r: SemanticEmbeddingRequest): Value {
    Record(NamedTuple("SemanticEmbeddingRequest", SemanticAsDict(r)))
  }

  /** `request.to_json()`: the representation becomes its string value and the
      prompt its serialised items; `compress_to_size` is left as it was. */
  function SemanticToJson(r: SemanticEmbeddingRequest, serialize: seq<PromptItem> -> Json): (d: map<string, Value>)
    ensures d.Keys == SemanticRequestFields
    ensures d["representation"] == Data(Str(RepresentationValue(r.representation)))
    ensures d["prompt"] == Data(serialize(r.prompt.items))
    ensures d["compress_to_size"] == SemanticAsDict(r)["compress_to_size"] == OptInt(r.compressToSize)
  {
    var payload := SemanticAsDict(r);
    var payload := payload["representation" := Data(Str(RepresentationValue(r.representation)))];
    payload["prompt" := Data(serialize(r.prompt.items))]
  }

  /** Serialisation loses nothing but the prompt: two requests with the same
      prompt serialise alike only if they are the same request, and the
      representation is recovered from the string sent. */
  lemma SemanticToJsonInjective(a: SemanticEmbeddingRequest, b: SemanticEmbeddingRequest, serialize: seq<PromptItem> -> Json)
    requires a.prompt == b.prompt
    ensures SemanticToJson(a, serialize) == SemanticToJson(b, serialize) <==> a == b
    ensures RepresentationFromValue(SemanticToJson(a, serialize)["representation"].json.s) == Success(a.representation)
  {
    if SemanticToJson(a, serialize) == SemanticToJson(b, serialize) {
      assert SemanticToJson(a, serialize)["representation"] == SemanticToJson(b, serialize)["representation"];
      RepresentationValueInjective(a.representation, b.representation);
      assert SemanticToJson(a, serialize)["compress_to_size"] == SemanticToJson(b, serialize)["compress_to_size"];
    }
  }

  /** The typed answer to a semantic embedding request. */
  datatype SemanticEmbeddingResponse = SemanticEmbeddingResponse(
    modelVersion: Json,
    embedding: Json,
    message: Json := Null
  )

  /** The keyword parameters of the response record; the first two are required. */
  const SemanticResponseFields: set<string> := {"model_version", "embedding", "message"}

  /** `SemanticEmbeddingResponse(**json)`: keys are bound first, so an unknown
      key or a `_cls` key (the constructor's own first parameter) is rejected
      before a missing required field is reported; `message` defaults to None.
      Keys that are both unknown and `_cls` fail on whichever Python meets
      first; the model reports the unknown key. */
  function SemanticFromJson(json: map<string, Json>): (r: Result<SemanticEmbeddingResponse, Error>)
    ensures r.Success? <==> json.Keys <= SemanticResponseFields && "model_version" in json && "embedding" in json
    ensures ClsParameter !in json && !(json.Keys <= SemanticResponseFields) ==> r == Failure(UnexpectedKeyword)
    ensures ClsParameter in json && json.Keys - {ClsParameter} <= SemanticResponseFields ==> r == Failure(MultipleValues)
    ensures !(json.Keys <= SemanticResponseFields) ==> r.Failure? && (r.error == UnexpectedKeyword || r.error == MultipleValues)
    ensures json.Keys <= SemanticResponseFields && r.Failure? ==>
      r == Failure(MissingArguments({"model_version", "embedding"} - json.Keys))
    ensures r.Success? ==>
      && r.value.modelVersion == json["model_version"]
      && r.value.embedding == json["embedding"]
      && r.value.message == Get(json, "message")
  {
    if !(json.Keys - {ClsParameter} <= SemanticResponseFields) then Failure(UnexpectedKeyword)
    else if ClsParameter in json then Failure(MultipleValues)
    else if "model_version" !in json || "embedding" !in json then
      Failure(MissingArguments({"model_version", "embedding"} - json.Keys))
    else Success(SemanticEmbeddingResponse(json["model_version"], json["embedding"], Get(json, "message")))
  }

  /** `SemanticEmbeddingResponse.from_json(body)` for any decoded body: `**`
      on a body that is not an object raises a TypeError. */
  function SemanticFromBody(body: Json): (r: Result<SemanticEmbeddingResponse, Error>)
    ensures !body.Object? ==> r == Failure(NotAMapping)
    ensures body.Object? ==> r == SemanticFromJson(body.fields)
  {
    if body.Object? then SemanticFromJson(body.fields) else Failure(NotAMapping)
  }

  /** The JSON object naming every field of a response. */
  function SemanticResponseJson(s: SemanticEmbeddingResponse): map<string, Json> {
    map["model_version" := s.modelVersion, "embedding" := s.embedding, "message" := s.message]
  }

  /** Decoding a response from its full JSON object gives back the response. */
  lemma SemanticResponseRoundTrip(s: SemanticEmbeddingResponse)
    ensures SemanticFromJson(SemanticResponseJson(s)) == Success(s)
  {
  }
}

# Aleph Alpha client: model context and request/response marshalling

This project models the layer of the Aleph Alpha Python client that sits
between a caller's typed request records and the HTTP transport. It covers
three parts of that layer.

- **`AlephAlphaModel`, the model context.** It binds a transport
  client to exactly one model name or one checkpoint name, plus an optional
  hosting hint. For each operation it builds the keyword arguments it hands
  to the transport: `complete`, `tokenize`, `detokenize`, `embed`,
  `semantic_embed`, `evaluate`, `qa`, `_explain` and `summarize`.
- **Completion marshalling.** `CompletionRequest` is a record with
  defaults, and `to_json` serialises it. `CompletionResponse.from_json`
  builds typed results from the service's JSON.
- **Embedding marshalling.** `EmbeddingRequest.to_json` serialises the
  request. `EmbeddingResponse.from_json` flattens the service's
  layer → pooling → vector map into a map keyed by `(layer, pooling)`.
  The section also covers the `SemanticRepresentation` enum, whose members
  serialise to their string values, and the semantic embedding request and
  response.

Files:

- `values.dfy` (module `Values`) holds the values crossing the boundary.
  These are the decoded JSON (`Json`), the Python values a request record
  carries (`Value`), a NamedTuple given by its field map (`NamedTuple`),
  the exceptions raised (`Error`), and the encoders of the declared field
  types with the decoders that invert them.
- `completion.dfy` (module `Completion`), `embedding.dfy` (module
  `Embedding`) and `aleph_alpha_model.dfy` (module `ModelContext`) each
  follow the source file of the same name.

The transport client is an abstract collaborator: `ModelContext.Client`
holds a function from the exact call made to what the service answers,
a decoded JSON body of any shape, or an error. Each
`…Call` function states the call an operation makes: its endpoint, its
positional arguments and its keyword map. The operation itself is stated as
the transport's answer to exactly that call, decoded by the response
record's `from_json` where that record is part of the model.

The context's fields are `const`, so no operation can change them. This is
the source's "assigned once in `__init__`" discipline. A context comes from
`AlephAlphaModel.Create`, which performs the constructor's check and reports
its ValueError, or from the constructor itself, whose `requires` is that
same check.

Python's `assert` statements are active unless the interpreter runs with
`-O`. The operations guarded by one (`tokenize`, `detokenize`) take a
`debug` flag standing for Python's `__debug__`, and their contracts state
both behaviours.

## Model

| member | source | states |
|---|---|---|
| ModelContext.CheckSelection | aleph_alpha_client/aleph_alpha_model.py:58-63 | fails with the ValueError "Need to set exactly one of model_name and checkpoint_name." exactly when both names or neither are given; passes exactly when one of them is set |
| ModelContext.AlephAlphaModel.Create | aleph_alpha_client/aleph_alpha_model.py:58-68 | fails with that ValueError exactly when both or neither are given; otherwise returns a fresh context that satisfies `Valid` (exactly one name set) and stores all four arguments unchanged |
| ModelContext.AlephAlphaModel.constructor | aleph_alpha_client/aleph_alpha_model.py:65-68 | stores the four arguments; the context is `Valid` |
| ModelContext.AlephAlphaModel.Routing | aleph_alpha_client/aleph_alpha_model.py:72-75 | the routing keywords are exactly `model`, `hosting` and `checkpoint`, holding the context's model name, hosting and checkpoint name, with None for an absent one |
| ModelContext.AlephAlphaModel.RoutingSelectsOne | aleph_alpha_client/aleph_alpha_model.py:58-68 | on a valid context exactly one of the forwarded `model` and `checkpoint` is None |
| ModelContext.MergeKeywords | aleph_alpha_client/aleph_alpha_model.py:71-76 | a call with explicit keywords plus `**` unpacked ones fails with "multiple values" exactly when a name occurs in both; otherwise the call receives both sets of keywords unchanged |
| ModelContext.AsRequestDict | aleph_alpha_client/aleph_alpha_model.py:148-152 | fails with AttributeError when the request has no prompt, or its prompt has no items; otherwise the key set equals the request's field names, `prompt` maps to the prompt's items, and every other field maps to the request's own value |
| ModelContext.CompletionRequestDict | aleph_alpha_client/aleph_alpha_model.py:148-152 | for every completion request the request dict exists, has exactly the request's field names, and replaces only the prompt, by its items |
| ModelContext.EmbeddingRequestDict | aleph_alpha_client/aleph_alpha_model.py:148-152 | the same for every embedding request |
| ModelContext.RoutingNamesApart | aleph_alpha_client/aleph_alpha_model.py:71-76 | no completion or embedding request field is called `model`, `hosting` or `checkpoint`, so complete and embed never raise "multiple values" |
| ModelContext.Exchange | aleph_alpha_client/aleph_alpha_model.py:71-77 | an operation's result is the transport's error, or the decoding of the transport's JSON answer to the call made |
| ModelContext.AlephAlphaModel.CompleteCall | aleph_alpha_client/aleph_alpha_model.py:70-76 | `complete` forwards `model`, `hosting` and `checkpoint` as the context holds them, plus every request field: the prompt as its items, every other field with the request's own value; the keyword set is exactly the routing names plus the request fields |
| ModelContext.AlephAlphaModel.Complete | aleph_alpha_client/aleph_alpha_model.py:70-77 | the response is the transport's error, or `CompletionResponse.from_json` of its answer to exactly `CompleteCall` (`Completion.FromBody`) |
| ModelContext.AlephAlphaModel.TokenizeCall | aleph_alpha_client/aleph_alpha_model.py:79-81 | with assertions enabled, fails the assertion "tokenize does not yet support checkpoints" when the model name is None; otherwise (also on a checkpoint context under `-O`) forwards `model`, the model name or None, and the request's own fields only, failing only on a `model` field of the request |
| ModelContext.AlephAlphaModel.Tokenize | aleph_alpha_client/aleph_alpha_model.py:79-82 | returns the transport's answer to exactly `TokenizeCall`, or that call's error |
| ModelContext.AlephAlphaModel.DetokenizeCall | aleph_alpha_client/aleph_alpha_model.py:84-90 | the same as `TokenizeCall`, with "detokenize does not yet support checkpoints" |
| ModelContext.AlephAlphaModel.Detokenize | aleph_alpha_client/aleph_alpha_model.py:84-91 | returns the transport's answer to exactly `DetokenizeCall`, or that call's error |
| ModelContext.AlephAlphaModel.TokenizationRouting | aleph_alpha_client/aleph_alpha_model.py:79-90 | on a valid context, tokenize and detokenize are refused exactly when assertions are enabled and the context names a checkpoint; with assertions stripped a checkpoint context forwards `model=None`; the forwarded keywords of either carry `hosting` or `checkpoint` only if the request itself has such a field |
| ModelContext.AlephAlphaModel.EmbedCall | aleph_alpha_client/aleph_alpha_model.py:93-99 | `embed` forwards the routing keywords unchanged plus the embedding request dict, with the prompt replaced by its items |
| ModelContext.AlephAlphaModel.Embed | aleph_alpha_client/aleph_alpha_model.py:93-100 | the response is the transport's error, or `EmbeddingResponse.from_json` of its answer to exactly `EmbedCall` (`Embedding.FromBody`) |
| ModelContext.AlephAlphaModel.SemanticEmbedCall | aleph_alpha_client/aleph_alpha_model.py:102-110 | `semantic_embed` forwards exactly the routing keywords and `request`, the request object itself |
| ModelContext.AlephAlphaModel.SemanticEmbed | aleph_alpha_client/aleph_alpha_model.py:102-111 | the response is the transport's error, or `SemanticEmbeddingResponse.from_json` of its answer to exactly `SemanticEmbedCall` (`Embedding.SemanticFromBody`) |
| ModelContext.AlephAlphaModel.EvaluateCall | aleph_alpha_client/aleph_alpha_model.py:113-119 | `evaluate` fails as `as_request_dict` fails; otherwise it fails with "multiple values" exactly when a request field is called like a routing keyword; otherwise it forwards the routing keywords and the request dict, with the prompt replaced by its items |
| ModelContext.AlephAlphaModel.Evaluate | aleph_alpha_client/aleph_alpha_model.py:113-120 | returns the transport's answer to exactly `EvaluateCall`, or that call's error |
| ModelContext.AlephAlphaModel.QaCall | aleph_alpha_client/aleph_alpha_model.py:122-128 | `qa` forwards the routing keywords together with the request's own field map, every value (the prompt included) unmodified; it fails with "multiple values" exactly on a name clash |
| ModelContext.AlephAlphaModel.Qa | aleph_alpha_client/aleph_alpha_model.py:122-129 | returns the transport's answer to exactly `QaCall`, or that call's error |
| ModelContext.AlephAlphaModel.QaKeepsPromptObject | aleph_alpha_client/aleph_alpha_model.py:113-128 | for the same request, `qa` forwards the Prompt object while `evaluate` forwards something different, the prompt's items |
| ModelContext.AlephAlphaModel.ExplainCall | aleph_alpha_client/aleph_alpha_model.py:131-137 | `_explain` forwards exactly the routing keywords and `request`, the request object itself |
| ModelContext.AlephAlphaModel.Explain | aleph_alpha_client/aleph_alpha_model.py:131-137 | returns the transport's answer to exactly `ExplainCall`, unchanged |
| ModelContext.AlephAlphaModel.SummarizeCall | aleph_alpha_client/aleph_alpha_model.py:139-145 | `summarize` passes the model name and the request object positionally, and exactly `hosting` and `checkpoint` as keywords |
| ModelContext.AlephAlphaModel.Summarize | aleph_alpha_client/aleph_alpha_model.py:139-146 | returns the transport's answer to exactly `SummarizeCall` |
| ModelContext.AlephAlphaModel.RoutingIsStable | aleph_alpha_client/aleph_alpha_model.py:70-137 | complete, embed, semantic_embed and _explain forward the same `model`, `hosting` and `checkpoint`, whatever their requests |
| ModelContext.AlephAlphaModel.RoutingMatchesComplete | aleph_alpha_client/aleph_alpha_model.py:79-146 | evaluate and qa (when their call is made) forward the same `model`, `hosting` and `checkpoint` as complete; summarize passes complete's model positionally and its hosting and checkpoint as keywords; tokenize and detokenize, when their call is made, forward complete's `model` |
| Completion.AsDictRoundTrip | aleph_alpha_client/completion.py:115-133 | `_asdict()` loses nothing: decoding the field map by the declared field types gives back the request |
| Completion.AsDictKeys | aleph_alpha_client/completion.py:115-136 | `_asdict()` (the `AsDict` function) has exactly the nineteen declared field names |
| Completion.AsDictHoldsFields | aleph_alpha_client/completion.py:115-136 | `_asdict()` (the `AsDict` function) holds each field of the request under its own name, encoded by its declared type |
| Completion.ToJson | aleph_alpha_client/completion.py:135-138 | the key set is exactly the request's field names; `prompt` maps to the serialised prompt items; every other key maps to the request's own field value |
| Completion.ToJsonKeepsFields | aleph_alpha_client/completion.py:135-138 | only the prompt is replaced: restoring it gives a map that decodes to the original request |
| Completion.PromptOnlyDefaults | aleph_alpha_client/completion.py:115-133 | a request given only a prompt has `maximum_tokens` 64, `top_k` 0, `n` 1, the four float fields 0.0, the four boolean fields False and every Optional field None; `to_json` carries each of those values under its name |
| Completion.ResultFromJson | aleph_alpha_client/completion.py:141-157 | `CompletionResult(**item)` succeeds exactly when the item is a mapping naming only the four result fields; a non-mapping fails "not a mapping"; a `_cls` key alone among valid ones gives the constructor's first parameter a second value ("multiple values"); an unknown key without `_cls` is an unexpected keyword; each field the item omits is None, each it supplies is the item's value |
| Completion.ResultRoundTrip | aleph_alpha_client/completion.py:141-145 | a result is recovered from the JSON object of its four fields |
| Completion.ResultsFromJson | aleph_alpha_client/completion.py:157 | the list comprehension succeeds exactly when every item decodes; it keeps length and order, result i decoded from item i; a failure is the first failing item's error |
| Completion.CompletionsFromJson | aleph_alpha_client/completion.py:157 | iterating `json["completions"]`: a list decodes item by item; a string or an object succeeds, with no results, exactly when empty, and fails "not a mapping" otherwise; any other value is not iterable |
| Completion.FromJson | aleph_alpha_client/completion.py:153-159 | KeyError for a missing `model_version`, then for a missing `completions`; then success and error exactly as iterating `completions` gives them; `model_version` is copied; `optimized_prompt` is None when absent, else the JSON value; for a list of completions, success iff every item decodes, with the same length and order |
| Completion.FromBody | aleph_alpha_client/completion.py:153-159 | a body that is not a JSON object fails with the TypeError of indexing it; an object is decoded by `FromJson` |
| Embedding.AsDictRoundTrip | aleph_alpha_client/embedding.py:48-52 | `_asdict()` of an embedding request loses nothing |
| Embedding.AsDict | aleph_alpha_client/embedding.py:48-55 | `_asdict()` has exactly the five field names, with the prompt still the Prompt object |
| Embedding.ToJson | aleph_alpha_client/embedding.py:54-57 | the key set is exactly the request's field names; `prompt` maps to the serialised items; `layers`, `pooling`, `type` and `tokens` keep the request's values |
| Embedding.ToJsonKeepsFields | aleph_alpha_client/embedding.py:54-57 | only the prompt is replaced: restoring it gives a map that decodes to the original request |
| Embedding.Flatten | aleph_alpha_client/embedding.py:70-74 | `(l, p)` is a key of the flattened map iff `p` is a key of layer `l`'s map, and its value is that inner value |
| Embedding.PoolingMaps | aleph_alpha_client/embedding.py:72-73 | `.items()` succeeds exactly when `embeddings` and each of its values are objects, else AttributeError; it keeps the layers and their pooling maps |
| Embedding.FromJson | aleph_alpha_client/embedding.py:66-77 | KeyError for a missing `model_version`, then for a missing `embeddings`; success iff both levels are objects; `model_version` is copied; `tokens` and `message` are None when absent, else the JSON values; `(l, p)` is an embeddings key iff `p` is in `json["embeddings"][l]`, with that inner vector as value |
| Embedding.FromBody | aleph_alpha_client/embedding.py:66-77 | a body that is not a JSON object fails with the TypeError of indexing it; an object is decoded by `FromJson` |
| Embedding.TotalSizeRemove | aleph_alpha_client/embedding.py:70-74 | the sum of the inner maps' sizes splits into one layer's size plus the sum over the other layers |
| Embedding.RowSize | aleph_alpha_client/embedding.py:73 | one layer contributes as many pairs as its pooling map has keys |
| Embedding.FlattenSplit | aleph_alpha_client/embedding.py:70-74 | the flattened keys are the disjoint union of one layer's pairs and the other layers' pairs |
| Embedding.FlattenSize | aleph_alpha_client/embedding.py:70-74 | the flattened map's size equals the sum of the inner maps' sizes |
| Embedding.FromJsonSize | aleph_alpha_client/embedding.py:70-74 | a decoded response has as many embeddings as the JSON's inner maps have keys in total |
| Embedding.RepresentationValue | aleph_alpha_client/embedding.py:96-98 | every representation serialises to one of "symmetric", "document" and "query" |
| Embedding.RepresentationFromValue | aleph_alpha_client/embedding.py:80-98 | `SemanticRepresentation(s)` succeeds exactly on the three values, naming the member with that value; anything else is the ValueError "'s' is not a valid SemanticRepresentation" |
| Embedding.RepresentationRoundTrip | aleph_alpha_client/embedding.py:96-98 | a representation is recovered from its value |
| Embedding.RepresentationValueInjective | aleph_alpha_client/embedding.py:96-98 | two representations have the same value iff they are the same |
| Embedding.SemanticAsDict | aleph_alpha_client/embedding.py:137-139 | the field map has exactly the three field names, the prompt object and the enum member |
| Embedding.SemanticToJson | aleph_alpha_client/embedding.py:141-145 | the key set is the three field names; `representation` becomes the enum's string value, `prompt` the serialised items, and `compress_to_size` is unchanged |
| Embedding.SemanticToJsonInjective | aleph_alpha_client/embedding.py:141-145 | for one prompt, two requests serialise alike iff they are equal, and the representation is recovered from the serialised string |
| Embedding.SemanticFromJson | aleph_alpha_client/embedding.py:148-155 | `SemanticEmbeddingResponse(**json)` succeeds exactly when the keys are among the three fields and include `model_version` and `embedding`; keys are bound first, so a key outside the fields fails before any missing one: an unknown key without `_cls` is an unexpected keyword, a `_cls` key alone among valid ones is "multiple values"; then the set of missing required names is reported; the fields are copied, `message` None when absent |
| Embedding.SemanticFromBody | aleph_alpha_client/embedding.py:153-155 | a body that is not a JSON object fails "not a mapping" at `**`; an object is decoded by `SemanticFromJson` |
| Embedding.SemanticResponseRoundTrip | aleph_alpha_client/embedding.py:148-155 | a semantic response is recovered from its JSON |
| Values.StrArrayRoundTrip | aleph_alpha_client/completion.py:125-131 | a list of strings is recovered from its encoding |
| Values.IntArrayRoundTrip | aleph_alpha_client/embedding.py:49 | a list of integers is recovered from its encoding |
| Values.OptStrsRoundTrip | aleph_alpha_client/completion.py:125-131 | an optional list of strings is recovered from its encoding |
| Values.Get | aleph_alpha_client/completion.py:158 | `d.get(key)` is the value under the key, or None when the key is absent |

## Left out

- The HTTP transport (`AlephAlphaClient`) is not part of this model. That
  leaves out authentication, status codes, retries and async. The transport
  is a function from the call made to the decoded JSON body or an error; a
  failed request is the opaque `RemoteError(status)`. Being a function, it
  gives the same answer to the same call. A live service may answer two
  identical calls differently; the model does not capture that.
- `Prompt` and `_to_serializable_prompt` (prompt.py) are not part of this
  model. Prompt items are an abstract type that is only copied. The
  serialiser is a function parameter of each `to_json`.
- The response records of tokenize, detokenize, evaluate, qa and summarize
  are not part of this model. Those operations return the transport's JSON
  as they receive it, instead of calling `from_json`.
- Floats are opaque 64-bit patterns: temperature, top_p, penalties, logit
  bias values and embedding vectors. No arithmetic is done on them here.
- Python's dict and keyword-argument order are not modelled. Errors whose
  text would name "the first" offending key (unexpected keyword, multiple
  values) carry no name. An error depending on iteration order is reduced to
  its kind.
- Completion.ResultFromJson, Embedding.SemanticFromJson: a mapping with both
  a `_cls` key and an unknown key fails on whichever of the two Python binds
  first, and that depends on dict order. The model always reports the
  unknown keyword; the contracts promise only that it is one of the two.
- Embedding.RepresentationFromValue: the message quotes the value as `'s'`.
  Python's `repr` switches to double quotes for a value containing a single
  quote, and escapes backslashes and unprintable characters; neither is
  modelled.
- Type annotations are not enforced at run time, so the response records
  hold whatever JSON value they were given. The request records are typed,
  as a caller who respects their annotations builds them.
- ModelContext.AsRequestDict: a prompt that is not a `Prompt` object is
  taken to have no `items` attribute and gives AttributeError. In Python,
  an object that happens to have an `items` attribute, such as a dict, would
  be passed on instead.
- The requests of evaluate, qa, _explain, tokenize, detokenize and summarize
  are given by their field maps (`NamedTuple`): their record classes are not
  part of this model.
- Server-side behaviour (such as rejecting `maximum_tokens = -1`) and the
  sampling and penalty semantics the docstrings describe belong to the
  remote service, not to this code.
- The `CompletionRequest` docstring gives `use_multiplicative_presence_penalty`
  a default of True, but the code gives False. The model follows the code.
- The decoders `Completion.FromDict` and `Embedding.FromDict` have no
  source counterpart. They are reference inverses, used to state that
  `_asdict()` loses nothing.

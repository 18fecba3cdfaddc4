/** The values that cross the boundary of the client library: the decoded JSON
    body the remote service answers with, the Python values a request record
    carries into a keyword map, and the exceptions raised along the way. */
module Values {

  datatype Option<+T> = None | Some(value: T) {
    predicate IsFailure() { None? }
    function PropagateFailure<U>(): Option<U> requires None? { None }
    function Extract(): T requires Some? { value }
  }

  datatype Result<+R, +E> = Success(value: R) | Failure(error: E) {
    predicate IsFailure() { Failure? }
    function PropagateFailure<U>(): Result<U, E> requires Failure? { Failure(error) }
    function Extract(): R requires Success? { value }
  }

  /** A Python float, kept as its IEEE-754 binary64 bit pattern. This layer does
      no arithmetic on floats; it only copies them. */
  datatype Double = Double(bits: bv64)

  /** The float 0.0 (all bits clear). */
  const Zero: Double := Double(0)

  /** One item of a prompt (text, image or token list). The prompt module is not
      part of this model, so items are compared and copied, never inspected. */
  type PromptItem(==)

  /** A prompt: the object whose `items` attribute the requests forward. */
  datatype Prompt = Prompt(items: seq<PromptItem>)

  /** A decoded JSON document, as the transport hands it back. */
  datatype Json =
    | Null
    | Bool(b: bool)
    | Int(i: int)
    | Float(d: Double)
    | Str(s: string)
    | Array(elems: seq<Json>)
    | Object(fields: map<string, Json>)

  /** A Python value stored in a request record or passed as a keyword argument. */
  datatype Value =
    | Data(json: Json)                                  // plain data: None, bool, int, float, str, lists of these
    | IntKeyed(entries: map<int, Double>)               // a dict from token ids to floats (logit_bias)
    | PromptObject(prompt: Prompt)                      // a Prompt object
    | PromptItems(items: seq<PromptItem>)               // the list `prompt.items`
    | EnumMember(cls: string, name: string, value: string)  // a member of an Enum class
    | Record(tuple: NamedTuple)                         // a request object passed whole

  /** A NamedTuple instance: its class name and its `_asdict()`. Requests whose
      classes are not part of this model are given in this form. */
  datatype NamedTuple = NamedTuple(className: string, fields: map<string, Value>)

  /** The exceptions this layer raises or lets through. */
  datatype Error =
    | ValueError(message: string)          // the model context rejected its configuration
    | AssertionError(message: string)      // a failed `assert` in the model context
    | KeyError(key: string)                // `d[key]` on a dict without that key
    | AttributeError(name: string)         // an attribute the object does not have
    | NotAMapping                          // TypeError: argument after ** must be a mapping
    | NotIterable                          // TypeError: object is not iterable
    | NotSubscriptable                     // TypeError: `x[key]` on a value that is not a dict
    | UnexpectedKeyword                    // TypeError: got an unexpected keyword argument
    | MissingArguments(names: set<string>) // TypeError: missing required argument(s)
    | MultipleValues                       // TypeError: got multiple values for a keyword argument
    | RemoteError(status: int)             // the transport's report of a failed HTTP request

  /** The name of the first parameter of a NamedTuple's generated `__new__`:
      a `**` argument carrying this key gives that parameter a second value. */
  const ClsParameter: string := "_cls"

  /** `d.get(key)`: the value under `key`, or None when the key is absent. */
  function Get(d: map<string, Json>, key: string): (j: Json)
    ensures key in d ==> j == d[key]
    ensures key !in d ==> j == Null
  {
    if key in d then d[key] else Null
  }

  // Encoding of the field types declared by the request records, and the
  // reference decoders that invert them.

  function OptStr(o: Option<string>): Value {
    match o
    case None => Data(Null)
    case Some(s) => Data(Str(s))
  }

  function OptInt(o: Option<int>): Value {
    match o
    case None => Data(Null)
    case Some(i) => Data(Int(i))
  }

  function OptBool(o: Option<bool>): Value {
    match o
    case None => Data(Null)
    case Some(b) => Data(Bool(b))
  }

  function StrArray(ss: seq<string>): Json {
    Array(seq(|ss|, i requires 0 <= i < |ss| => Str(ss[i])))
  }

  function IntArray(xs: seq<int>): Json {
    Array(seq(|xs|, i requires 0 <= i < |xs| => Int(xs[i])))
  }

  function OptStrs(o: Option<seq<string>>): Value {
    match o
    case None => Data(Null)
    case Some(ss) => Data(StrArray(ss))
  }

  function OptIntKeyed(o: Option<map<int, Double>>): Value {
    match o
    case None => Data(Null)
    case Some(m) => IntKeyed(m)
  }

  function AsInt(v: Value): Option<int> {
    if v.Data? && v.json.Int? then Some(v.json.i) else None
  }

  function AsBool(v: Value): Option<bool> {
    if v.Data? && v.json.Bool? then Some(v.json.b) else None
  }

  function AsDouble(v: Value): Option<Double> {
    if v.Data? && v.json.Float? then Some(v.json.d) else None
  }

  function AsPrompt(v: Value): Option<Prompt> {
    if v.PromptObject? then Some(v.prompt) else None
  }

  function AsStrs(j: Json): Option<seq<string>> {
    if j.Array? && forall i :: 0 <= i < |j.elems| ==> j.elems[i].Str?
    then Some(seq(|j.elems|, i requires 0 <= i < |j.elems| => j.elems[i].s))
    else None
  }

  function AsInts(j: Json): Option<seq<int>> {
    if j.Array? && forall i :: 0 <= i < |j.elems| ==> j.elems[i].Int?
    then Some(seq(|j.elems|, i requires 0 <= i < |j.elems| => j.elems[i].i))
    else None
  }

  function AsOptStr(v: Value): Option<Option<string>> {
    if v == Data(Null) then Some(None)
    else if v.Data? && v.json.Str? then Some(Some(v.json.s))
    else None
  }

  function AsOptInt(v: Value): Option<Option<int>> {
    if v == Data(Null) then Some(None)
    else if v.Data? && v.json.Int? then Some(Some(v.json.i))
    else None
  }

  function AsOptBool(v: Value): Option<Option<bool>> {
    if v == Data(Null) then Some(None)
    else if v.Data? && v.json.Bool? then Some(Some(v.json.b))
    else None
  }

  function AsOptStrs(v: Value): Option<Option<seq<string>>> {
    if v == Data(Null) then Some(None)
    else if v.Data? then (match AsStrs(v.json) case Some(ss) => Some(Some(ss)) case None => None)
    else None
  }

  function AsOptIntKeyed(v: Value): Option<Option<map<int, Double>>> {
    if v == Data(Null) then Some(None)
    else if v.IntKeyed? then Some(Some(v.entries))
    else None
  }

  /** A list of strings is recovered from its encoding. */
  lemma StrArrayRoundTrip(ss: seq<string>)
    ensures AsStrs(StrArray(ss)) == Some(ss)
  {
    var j := StrArray(ss);
    assert forall i :: 0 <= i < |j.elems| ==> j.elems[i] == Str(ss[i]);
    assert seq(|j.elems|, i requires 0 <= i < |j.elems| => j.elems[i].s) == ss;
  }

  /** A list of integers is recovered from its encoding. */
  lemma IntArrayRoundTrip(xs: seq<int>)
    ensures AsInts(IntArray(xs)) == Some(xs)
  {
    var j := IntArray(xs);
    assert forall i :: 0 <= i < |j.elems| ==> j.elems[i] == Int(xs[i]);
    assert seq(|j.elems|, i requires 0 <= i < |j.elems| => j.elems[i].i) == xs;
  }

  /** An optional list of strings is recovered from its encoding. */
  lemma OptStrsRoundTrip(o: Option<seq<string>>)
    ensures AsOptStrs(OptStrs(o)) == Some(o)
  {
    if o.Some? {
      StrArrayRoundTrip(o.value);
    }
  }
}

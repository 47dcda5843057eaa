/** The JSON-RPC layer of lib_qbitcoin_trx: the two type-check helpers, the
    request envelope and the decoding of the node's reply. The HTTP round
    trip itself is the node oracle: it receives the envelope and returns the
    reply body already parsed. */
module Rpc {
  import opened Values

  /** The first argument of the type-check helpers: typing.Any or a class. */
  datatype TypeSpec = AnyType | Of(cls: PyClass)

  /** _check_type: None is always refused; otherwise the value passes
      unchanged when the type is Any or the value is an instance of it. */
  function CheckType(t: TypeSpec, v: Json): (r: Result<Json>)
    ensures r.Ok? <==> v != JNull && (t.AnyType? || IsInstance(t.cls, v))
    ensures r.Ok? ==> r.value == v
    ensures r.Err? ==> r.exc == TypeError
  {
    if v.JNull? then Err(TypeError)
    else if t.AnyType? then Ok(v)
    else if !IsInstance(t.cls, v) then Err(TypeError)
    else Ok(v)
  }

  /** _check_nullable_type: None and anything checked against Any pass
      unchanged; otherwise the value must be an instance of the class. */
  function CheckNullableType(t: TypeSpec, v: Json): (r: Result<Json>)
    ensures r.Ok? <==> v == JNull || t.AnyType? || IsInstance(t.cls, v)
    ensures r.Ok? ==> r.value == v
    ensures r.Err? ==> r.exc == TypeError
  {
    if v.JNull? || t.AnyType? then Ok(v)
    else if !IsInstance(t.cls, v) then Err(TypeError)
    else Ok(v)
  }

  /** The two helpers differ on None alone. */
  lemma CheckTypesAgreeOffNull(t: TypeSpec, v: Json)
    ensures v != JNull ==> CheckType(t, v) == CheckNullableType(t, v)
    ensures CheckType(t, JNull) == Err(TypeError)
    ensures CheckNullableType(t, JNull) == Ok(JNull)
  {
  }

  /** A JSON boolean passes the int check (bool is a subclass of int), and a
      JSON integer fails the float check. */
  lemma CheckTypeNumericQuirks(b: bool, n: int)
    ensures CheckType(Of(Int), JBool(b)) == Ok(JBool(b))
    ensures CheckType(Of(Float), JInt(n)) == Err(TypeError)
  {
  }

  /** One remote call: the method name and its parameters. */
  datatype Call = Call(name: string, params: Json)

  /** The request body rpc sends: jsonrpc and id are fixed, method and params
      are passed through, in this key order. */
  function Envelope(c: Call): (r: Json)
    ensures r.JObj? && |r.fields| == 4
    ensures Get(r.fields, "jsonrpc") == JStr("2.0")
    ensures Get(r.fields, "id") == JInt(1)
    ensures Get(r.fields, "method") == JStr(c.name)
    ensures Get(r.fields, "params") == c.params
  {
    var fields := [("jsonrpc", JStr("2.0")), ("id", JInt(1)),
                   ("method", JStr(c.name)), ("params", c.params)];
    LookupDistinct(fields, 0);
    LookupDistinct(fields, 1);
    LookupDistinct(fields, 2);
    LookupDistinct(fields, 3);
    JObj(fields)
  }

  /** Distinct calls put distinct envelopes on the wire. */
  lemma EnvelopeInjective(c1: Call, c2: Call)
    requires Envelope(c1) == Envelope(c2)
    ensures c1 == c2
  {
    assert Envelope(c1).fields[2] == Envelope(c2).fields[2];
    assert Envelope(c1).fields[3] == Envelope(c2).fields[3];
  }

  /** The node: given the request envelope, the parsed reply body. */
  type Node = Json -> Json

  /** The error text rpc reports: an empty message is replaced by the
      result when the result is a non-empty string. */
  function ErrorMessage(message: string, result: Json): (m: string)
    ensures m != message <==> message == "" && result.JStr? && result.s != ""
    ensures m != message ==> JStr(m) == result
  {
    if message == "" && result.JStr? && result.s != "" then result.s else message
  }

  /** The reply's error member is an object whose code is an int and whose
      message is a string: exactly the replies that rpc turns into RpcError. */
  predicate WellFormedError(resp: Json)
  {
    && resp.JObj?
    && var error := Get(resp.fields, "error");
    && error.JObj?
    && Lookup(error.fields, "code").Some?
    && IsInstance(Int, Lookup(error.fields, "code").value)
    && Lookup(error.fields, "message").Some?
    && Lookup(error.fields, "message").value.JStr?
  }

  /** The second half of rpc, once the body is parsed: a reply without an
      error yields its result (null when absent); an error object raises
      RpcError; anything malformed raises TypeError, KeyError or, for a body
      that is not an object, AttributeError. */
  function DecodeResponse(resp: Json): (r: Result<Json>)
    ensures !resp.JObj? ==> r == Err(AttributeError)
    ensures r.Ok? <==> resp.JObj? && Get(resp.fields, "error") == JNull
    ensures r.Ok? ==> r.value == Get(resp.fields, "result")
    ensures resp.JObj? && !Get(resp.fields, "error").JNull? && !Get(resp.fields, "error").JObj?
      ==> r == Err(TypeError)
    ensures resp.JObj? && Get(resp.fields, "error").JObj? ==>
      r.Err? && (r.exc.RpcError? || r.exc.TypeError? || r.exc.KeyError?)
    ensures r.Err? && r.exc.RpcError? <==> WellFormedError(resp)
    ensures WellFormedError(resp) ==>
      var error := Get(resp.fields, "error");
      var message := Lookup(error.fields, "message").value.s;
      && r.exc.code == Lookup(error.fields, "code").value
      && r.exc.data == Get(error.fields, "data")
      && r.exc.message == ErrorMessage(message, Get(resp.fields, "result"))
    ensures resp.JObj? && Get(resp.fields, "error").JObj? ==>
      (Lookup(Get(resp.fields, "error").fields, "code").None? ==> r == Err(KeyError("code")))
    ensures resp.JObj? && Get(resp.fields, "error").JObj? ==>
      var error := Get(resp.fields, "error");
      var code := Lookup(error.fields, "code");
      var message := Lookup(error.fields, "message");
      && (code.Some? && !IsInstance(Int, code.value) ==> r == Err(TypeError))
      && (code.Some? && IsInstance(Int, code.value) && message.None? ==> r == Err(KeyError("message")))
      && (code.Some? && IsInstance(Int, code.value) && message.Some? && !message.value.JStr?
          ==> r == Err(TypeError))
  {
    if !resp.JObj? then Err(AttributeError)
    else
      var error :- CheckNullableType(Of(Dict), Get(resp.fields, "error"));
      var result := CheckNullableType(AnyType, Get(resp.fields, "result")).value;
      if error.JNull? then Ok(result)
      else
        var code :- Subscript(error, "code");
        var code' :- CheckType(Of(Int), code);
        var message :- Subscript(error, "message");
        var message' :- CheckType(Of(Str), message);
        var data := CheckNullableType(AnyType, Get(error.fields, "data")).value;
        Err(RpcError(code', ErrorMessage(message'.s, result), data))
  }

  /** The rpc function as the operations see it: a call in, its decoded
      result or the exception it raised out. */
  type RpcCall = Call -> Result<Json>

  /** rpc(opener, conn, method, params) against a node: send the envelope,
      decode the reply. */
  function RpcOf(node: Node): (rpc: RpcCall)
    ensures forall c :: var reply := node(Envelope(c));
      && (rpc(c).Ok? <==> reply.JObj? && Get(reply.fields, "error") == JNull)
      && (rpc(c).Ok? ==> rpc(c).value == Get(reply.fields, "result"))
      && (rpc(c).Err? && rpc(c).exc.RpcError? <==> WellFormedError(reply))
      && (!reply.JObj? ==> rpc(c) == Err(AttributeError))
  {
    c => DecodeResponse(node(Envelope(c)))
  }

  /** A node that answers every request with a bare result. */
  lemma RpcOfResult(node: Node, c: Call, result: Json)
    requires node(Envelope(c)) == JObj([("result", result)])
    ensures RpcOf(node)(c) == Ok(result)
  {
    LookupLast(node(Envelope(c)).fields, "error");
  }
}

/** The outbound encoder of WebSocketService.swift: `AnyCodable` turns a Foundation
    object into a JSON value (RFC 8259), and `WsRequest` wraps a request type and
    its payload dictionary into the outbound envelope. JSON text and bytes are
    left to Foundation; the model stops at the JSON value. */
module Json {

  import opened Wrappers

  /** Swift's `Int` on a 64-bit platform. */
  type Int64 = i: int | -0x8000_0000_0000_0000 <= i < 0x8000_0000_0000_0000

  /** A Foundation object as `AnyCodable` receives it. Floating-point numbers are
      not modelled. `ANull` is NSNull; `AOpaque` is any other kind of object
      (a Date, a custom class, ...). */
  datatype AnyValue =
    | AString(s: string)
    | AInt(i: Int64)
    | ABool(b: bool)
    | ADict(entries: map<string, AnyValue>)
    | AArray(items: seq<AnyValue>)
    | ANull
    | AOpaque

  /** A JSON value (RFC 8259) without floating-point numbers. */
  datatype Json =
    | JNull
    | JBool(b: bool)
    | JInt(i: Int64)
    | JString(s: string)
    | JArray(items: seq<Json>)
    | JObject(members: map<string, Json>)

  /** An object JSONSerialization accepts: no `AOpaque` anywhere inside. */
  predicate JsonCompatible(v: AnyValue) {
    match v
    case ADict(m) => forall k | k in m :: JsonCompatible(m[k])
    case AArray(xs) => forall i | 0 <= i < |xs| :: JsonCompatible(xs[i])
    case AOpaque => false
    case _ => true
  }

  /** `AnyCodable.encode(to:)`: strings, ints and bools pass through, dictionaries
      and arrays are encoded member by member, anything else becomes null. */
  function Encode(v: AnyValue): (j: Json)
    ensures v.AString? ==> j == JString(v.s)
    ensures v.AInt? ==> j == JInt(v.i)
    ensures v.ABool? ==> j == JBool(v.b)
    ensures v.ADict? ==> j.JObject? && j.members.Keys == v.entries.Keys
    ensures v.ADict? ==> forall k | k in v.entries :: j.members[k] == Encode(v.entries[k])
    ensures v.AArray? ==> j.JArray? && |j.items| == |v.items|
    ensures v.AArray? ==> forall i | 0 <= i < |v.items| :: j.items[i] == Encode(v.items[i])
    ensures v.ANull? || v.AOpaque? ==> j == JNull
  {
    match v
    case AString(s) => JString(s)
    case AInt(i) => JInt(i)
    case ABool(b) => JBool(b)
    case ADict(m) => JObject(map k | k in m :: Encode(m[k]))
    case AArray(xs) => JArray(seq(|xs|, i requires 0 <= i < |xs| => Encode(xs[i])))
    case ANull => JNull
    case AOpaque => JNull
  }

  /** The Foundation object `JSONSerialization.jsonObject(with:)` yields for a JSON value. */
  function Embed(j: Json): (v: AnyValue)
    ensures j.JArray? <==> v.AArray?
    ensures j.JArray? ==> |v.items| == |j.items|
    ensures j.JObject? <==> v.ADict?
    ensures j.JObject? ==> v.entries.Keys == j.members.Keys
    ensures j.JString? ==> v == AString(j.s)
    ensures v != AOpaque
  {
    match j
    case JNull => ANull
    case JBool(b) => ABool(b)
    case JInt(i) => AInt(i)
    case JString(s) => AString(s)
    case JArray(xs) => AArray(seq(|xs|, i requires 0 <= i < |xs| => Embed(xs[i])))
    case JObject(m) => ADict(map k | k in m :: Embed(m[k]))
  }

  /** Every JSON value read back by Foundation is an object JSONSerialization accepts. */
  lemma {:induction false} EmbedCompatible(j: Json)
    ensures JsonCompatible(Embed(j))
  {
    match j
    case JArray(xs) =>
      forall i | 0 <= i < |xs| ensures JsonCompatible(Embed(j).items[i]) {
        EmbedCompatible(xs[i]);
      }
    case JObject(m) =>
      forall k | k in m ensures JsonCompatible(Embed(j).entries[k]) {
        EmbedCompatible(m[k]);
      }
    case _ =>
  }

  /** Encoding what Foundation parsed gives back the JSON value it parsed. */
  lemma {:induction false} EncodeEmbed(j: Json)
    ensures Encode(Embed(j)) == j
  {
    match j
    case JArray(xs) =>
      var r := Encode(Embed(j));
      forall i | 0 <= i < |xs| ensures r.items[i] == xs[i] {
        EncodeEmbed(xs[i]);
      }
    case JObject(m) =>
      var r := Encode(Embed(j));
      forall k | k in m ensures r.members[k] == m[k] {
        EncodeEmbed(m[k]);
      }
    case _ =>
  }

  /** On objects JSONSerialization accepts, the encoder loses nothing: parsing its
      output gives back the object. */
  lemma {:induction false} EmbedEncode(v: AnyValue)
    requires JsonCompatible(v)
    ensures Embed(Encode(v)) == v
  {
    match v
    case AArray(xs) =>
      var r := Embed(Encode(v));
      forall i | 0 <= i < |xs| ensures r.items[i] == xs[i] {
        EmbedEncode(xs[i]);
      }
    case ADict(m) =>
      var r := Embed(Encode(v));
      forall k | k in m ensures r.entries[k] == m[k] {
        EmbedEncode(m[k]);
      }
    case _ =>
  }

  /** The outbound request. The Swift field `type` is `msgType` here
      (`type` is a Dafny keyword). */
  datatype WsRequest = WsRequest(msgType: string, payload: map<string, AnyValue>)

  /** `WsRequest.encode(to:)`: the type under "type", and the payload, after a
      round trip through JSONSerialization, encoded by AnyCodable under "payload".
      JSONSerialization traps on a payload it cannot serialize, hence the requires. */
  function EncodeRequest(r: WsRequest): (j: Json)
    requires JsonCompatible(ADict(r.payload))
    ensures j.JObject? && j.members.Keys == {"type", "payload"}
    ensures j.members["type"] == JString(r.msgType)
    ensures Embed(j.members["payload"]) == ADict(r.payload)
  {
    var reparsed := Embed(Encode(ADict(r.payload)));
    EmbedEncode(ADict(r.payload));
    JObject(map["type" := JString(r.msgType), "payload" := Encode(reparsed)])
  }

  /** What `handleMessage` reads from a parsed frame: the string under "type" of a
      top-level object, if there is one. */
  function FrameType(j: Json): (t: Option<string>)
    ensures t.Some? <==> j.JObject? && "type" in j.members && j.members["type"].JString?
    ensures t.Some? ==> j.members["type"] == JString(t.value)
  {
    if j.JObject? && "type" in j.members && j.members["type"].JString?
    then Some(j.members["type"].s)
    else None
  }

  /** An encoded request read back as a frame carries the request's own type. */
  lemma RequestFrameType(r: WsRequest)
    requires JsonCompatible(ADict(r.payload))
    ensures FrameType(EncodeRequest(r)) == Some(r.msgType)
  {
  }

  /** Whether `JSONDecoder().decode(ErrorResponse.self, from:)` succeeds on a value:
      a top-level "error" object with string "code" and "message", and an
      "httpStatus" (the default coding key) that is absent, null or an integer.
      Other keys are ignored. */
  predicate IsErrorResponse(j: Json): (b: bool)
    ensures b ==> j.JObject? && "error" in j.members && j.members["error"].JObject?
    ensures b ==> j.members["error"].members.Keys >= {"code", "message"}
  {
    && j.JObject?
    && "error" in j.members
    && var e := j.members["error"];
    && e.JObject?
    && "code" in e.members && e.members["code"].JString?
    && "message" in e.members && e.members["message"].JString?
    && ("httpStatus" in e.members ==> e.members["httpStatus"].JNull? || e.members["httpStatus"].JInt?)
  }

  /** No encoded request has the error shape: the envelope has no "error" key. */
  lemma RequestIsNotErrorResponse(r: WsRequest)
    requires JsonCompatible(ADict(r.payload))
    ensures !IsErrorResponse(EncodeRequest(r))
  {
  }
}

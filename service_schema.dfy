/** The service's message schemas, read as validity predicates over JSON
    values with the same conventions as the core's schemas. */
module ServiceSchema {
  import opened JsValues
  import opened CoreSchema

  /** The sensor credentials of a call: `nest`, `ring` and `whip` are all
      optional; `whip` is a list of WHIP credentials. */
  predicate IsPartialSensors(v: JsValue) {
    && v.Obj?
    && (Absent(v, "nest") || IsGoogleNestCredentials(v.fields["nest"]))
    && (Absent(v, "ring") || IsRingCredentials(v.fields["ring"]))
    && (Absent(v, "whip") || IsWhipCredentialList(v.fields["whip"]))
  }

  predicate IsWhipCredentialList(v: JsValue) {
    v.Arr? && forall i :: 0 <= i < |v.items| ==> IsWhipSensorCredential(v.items[i])
  }

  /** The parameters of a front call. */
  predicate IsFunctionFrontCall(v: JsValue) {
    && v.Obj?
    && RequiredString(v, "userId")
    && OptionalString(v, "name")
    && OptionalString(v, "email")
    && RequiredString(v, "offer")
    && HasKey(v, "sensors") && IsPartialSensors(v.fields["sensors"])
    && HasKey(v, "frontDevice") && IsFrontDeviceName(v.fields["frontDevice"])
    && OptionalString(v, "token")
  }

  /** The reply to a WHIP front call: the SDP answer as a plain string. */
  predicate IsFunctionFrontCallResponseWhip(v: JsValue) {
    v.Str?
  }

  predicate IsFunctionFrontNegotiation(v: JsValue) {
    v.Obj? && RequiredString(v, "userId") && RequiredAny(v, "payload") && OptionalString(v, "token")
  }

  predicate IsFunctionFrontNegotiationPayloadWhip(v: JsValue) {
    IsNegotiationPayloadWhip(v)
  }

  predicate IsFunctionSensorAdd(v: JsValue) {
    && v.Obj? && RequiredString(v, "userId")
    && HasKey(v, "sensor") && IsPartialSensors(v.fields["sensor"])
  }

  predicate IsFunctionSensorNegotiation(v: JsValue) {
    v.Obj? && RequiredString(v, "userId") && RequiredString(v, "sensorId") && RequiredAny(v, "payload")
  }

  /** The WHIP credentials a valid list holds, in order. */
  function WhipCredentials(items: seq<JsValue>): (cs: seq<CoreSession.WhipCredential>)
    requires forall i :: 0 <= i < |items| ==> IsWhipSensorCredential(items[i])
    ensures |cs| == |items|
    ensures forall i :: 0 <= i < |cs| ==>
      Get(items[i], "id") == Str(cs[i].id) && Get(items[i], "offer") == Str(cs[i].offer)
  {
    if items == [] then []
    else [WhipCredentialOf(items[0])] + WhipCredentials(items[1..])
  }

  // ---------------------------------------------------------------------
  // Properties

  /** A front call needs `userId`, `offer`, `sensors` and `frontDevice`;
      `name`, `email` and `token` may be left out, and so may every group
      of sensor credentials. */
  lemma MinimalFrontCall(userId: string, offer: string, device: string)
    requires device == "whip" || device == "alexa"
    ensures IsFunctionFrontCall(Obj(map["userId" := Str(userId), "offer" := Str(offer),
                                        "sensors" := Obj(map[]), "frontDevice" := Str(device)]))
    ensures !IsFunctionFrontCall(Obj(map["userId" := Str(userId), "offer" := Str(offer), "frontDevice" := Str(device)]))
    ensures !IsFunctionFrontCall(Obj(map["userId" := Str(userId), "offer" := Str(offer),
                                         "sensors" := Obj(map[]), "frontDevice" := Str("speaker")]))
  {
    var m := map["userId" := Str(userId), "offer" := Str(offer), "sensors" := Obj(map[]), "frontDevice" := Str(device)];
    assert !HasKey(Obj(m), "name") && !HasKey(Obj(m), "email") && !HasKey(Obj(m), "token");
    assert !HasKey(Obj(map[]), "nest") && !HasKey(Obj(map[]), "ring") && !HasKey(Obj(map[]), "whip");
    assert !HasKey(Obj(map["userId" := Str(userId), "offer" := Str(offer), "frontDevice" := Str(device)]), "sensors");
  }

  /** The negotiations and the sensor add all need `userId`; a front
      negotiation's payload may be anything, even `undefined`, but must be present. */
  lemma NegotiationsNeedUserAndPayload(v: JsValue)
    ensures IsFunctionFrontNegotiation(v) ==> RequiredString(v, "userId") && HasKey(v, "payload")
    ensures IsFunctionSensorNegotiation(v) ==> RequiredString(v, "sensorId") && HasKey(v, "payload")
    ensures IsFunctionSensorAdd(v) ==> RequiredString(v, "userId") && HasKey(v, "sensor")
    ensures IsFunctionFrontNegotiation(Obj(map["userId" := Str("u"), "payload" := Undefined]))
  {
    assert !HasKey(Obj(map["userId" := Str("u"), "payload" := Undefined]), "token");
  }

  /** Only the first WHIP credential of a valid list is used by `addSensor`,
      and it is the list's first entry decoded. */
  lemma {:induction false} FirstWhipCredential(v: JsValue)
    requires IsWhipCredentialList(v) && v.items != []
    ensures WhipCredentials(v.items)[0] == WhipCredentialOf(v.items[0])
  {
  }
}

/** The core's message schemas, read as validity predicates over JSON values.

    An object schema accepts an object (not an array) that has every
    required property with a valid value; further keys are allowed. An
    optional property may be absent or `undefined`, and must be valid
    otherwise. A required property of type "any" must be present, whatever
    its value. */
module CoreSchema {
  import opened JsValues
  import opened CoreSession

  /** A required property holding a string. */
  predicate RequiredString(v: JsValue, key: string) {
    HasKey(v, key) && v.fields[key].Str?
  }

  /** A required property of any type: present, whatever its value. */
  predicate RequiredAny(v: JsValue, key: string) {
    HasKey(v, key)
  }

  /** An optional property is absent or `undefined`. */
  predicate Absent(v: JsValue, key: string) {
    !HasKey(v, key) || v.fields[key].Undefined?
  }

  predicate OptionalString(v: JsValue, key: string) {
    Absent(v, key) || v.fields[key].Str?
  }

  predicate OptionalNumberOrNull(v: JsValue, key: string) {
    Absent(v, key) || v.fields[key].Num? || v.fields[key].Null?
  }

  predicate OptionalStringOrNull(v: JsValue, key: string) {
    Absent(v, key) || v.fields[key].Str? || v.fields[key].Null?
  }

  predicate IsGoogleNestCredentials(v: JsValue) {
    && v.Obj?
    && RequiredString(v, "clientId") && RequiredString(v, "clientSecret")
    && RequiredString(v, "refreshToken") && RequiredString(v, "projectId")
  }

  predicate IsRingCredentials(v: JsValue) {
    v.Obj? && RequiredString(v, "refreshToken")
  }

  predicate IsWhipSensorCredential(v: JsValue) {
    v.Obj? && RequiredString(v, "id") && RequiredString(v, "offer")
  }

  /** The front device names: the literals "whip" and "alexa". */
  predicate IsFrontDeviceName(v: JsValue) {
    v == Str("whip") || v == Str("alexa")
  }

  /** A trickle-ICE candidate as a WHIP peer sends it; every field optional. */
  predicate IsNegotiationPayloadWhip(v: JsValue) {
    && v.Obj?
    && OptionalString(v, "candidate")
    && OptionalNumberOrNull(v, "sdpMLineIndex")
    && OptionalStringOrNull(v, "sdpMid")
    && OptionalStringOrNull(v, "usernameFragment")
  }

  predicate IsSensorAddResponse(v: JsValue) {
    v.Obj? && RequiredString(v, "sensorId") && RequiredAny(v, "negotiation")
  }

  /** A WHIP credential as JSON. */
  function WhipCredentialJson(c: WhipCredential): (v: JsValue)
    ensures IsWhipSensorCredential(v)
  {
    Obj(map["id" := Str(c.id), "offer" := Str(c.offer)])
  }

  /** The credential a valid WHIP credential value describes. */
  function WhipCredentialOf(v: JsValue): (c: WhipCredential)
    requires IsWhipSensorCredential(v)
    ensures Str(c.id) == v.fields["id"] && Str(c.offer) == v.fields["offer"]
  {
    WhipCredential(v.fields["id"].s, v.fields["offer"].s)
  }

  /** A sensor-add response as JSON. */
  function SensorAddResponseJson(r: SensorAddResponse): (v: JsValue)
    ensures IsSensorAddResponse(v)
    ensures v.fields["sensorId"] == Str(r.sensorId) && v.fields["negotiation"] == r.negotiation
  {
    Obj(map["sensorId" := Str(r.sensorId), "negotiation" := r.negotiation])
  }

  // ---------------------------------------------------------------------
  // Properties

  /** The schema's front device names are exactly the names the session
      binds; every other name makes the session throw. */
  lemma FrontDeviceNamesAgree(name: string)
    ensures IsFrontDeviceName(Str(name)) <==> name == WHIP_FRONT_NAME || name == ALEXA_FRONT_NAME
  {
  }

  /** Decoding a WHIP credential written as JSON gives it back. */
  lemma WhipCredentialRoundTrip(c: WhipCredential)
    ensures WhipCredentialOf(WhipCredentialJson(c)) == c
  {
  }

  /** Extra keys do not make a credential invalid. */
  lemma ExtraKeysAllowed(v: JsValue, key: string, x: JsValue)
    requires v.Obj? && key !in {"clientId", "clientSecret", "refreshToken", "projectId", "id", "offer"}
    ensures IsGoogleNestCredentials(v) ==> IsGoogleNestCredentials(Obj(v.fields[key := x]))
    ensures IsRingCredentials(v) ==> IsRingCredentials(Obj(v.fields[key := x]))
    ensures IsWhipSensorCredential(v) ==> IsWhipSensorCredential(Obj(v.fields[key := x]))
  {
  }

  /** Nest credentials also pass as Ring credentials, but not the reverse. */
  lemma NestCredentialsAreRingShaped(v: JsValue)
    ensures IsGoogleNestCredentials(v) ==> IsRingCredentials(v)
    ensures !IsGoogleNestCredentials(Obj(map["refreshToken" := Str("")]))
    ensures IsRingCredentials(Obj(map["refreshToken" := Str("")]))
  {
    assert !HasKey(Obj(map["refreshToken" := Str("")]), "clientId");
  }

  /** In a negotiation payload an empty object is valid, and null is
      allowed for the index, the media id and the fragment but not for the
      candidate. */
  lemma NegotiationPayloadNulls()
    ensures IsNegotiationPayloadWhip(Obj(map[]))
    ensures IsNegotiationPayloadWhip(Obj(map["sdpMLineIndex" := Null, "sdpMid" := Null, "usernameFragment" := Null]))
    ensures !IsNegotiationPayloadWhip(Obj(map["candidate" := Null]))
    ensures !IsNegotiationPayloadWhip(Obj(map["sdpMLineIndex" := Str("0")]))
  {
    var m := map["sdpMLineIndex" := Null, "sdpMid" := Null, "usernameFragment" := Null];
    assert !HasKey(Obj(m), "candidate");
  }

  /** What `addSensor` returns is a list of valid sensor-add responses,
      one per new sensor, in order. */
  lemma {:induction false} AddResponsesConform(sensors: seq<Accessory.Sensor>, i: nat)
    requires i < |sensors|
    ensures i < |AddResponses(sensors)|
    ensures var v := SensorAddResponseJson(AddResponses(sensors)[i]);
      IsSensorAddResponse(v) && v.fields["sensorId"] == Str(sensors[i].id) && v.fields["negotiation"] == sensors[i].negotiation
  {
  }
}

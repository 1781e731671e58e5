/** Sensor devices as the session and the task agents see them. The device
    adapters (Nest, Ring, WHIP peer connections) are opaque; what remains is
    each device's identity, its video codec, its negotiation payload, and
    the recordings asked of it. */
module Accessory {
  import opened JsValues

  datatype VideoCodec = Vp8 | H264

  datatype Sensor = Sensor(id: string, name: string, videoCodec: VideoCodec, negotiation: JsValue)

  /** A request to record the device for `durationMs`, into a file named
      after the millisecond clock reading `stampMs`. */
  datatype RecordingRequest = RecordingRequest(durationMs: int, stampMs: int)

  const WHIP_NAME_PREFIX: string := "WHIP_"

  /** A WHIP sensor is named after its id and uses VP8. */
  function WhipSensor(id: string, negotiation: JsValue): (s: Sensor)
    ensures s.id == id && s.videoCodec == Vp8 && s.negotiation == negotiation
    ensures |s.name| == |WHIP_NAME_PREFIX| + |id|
    ensures s.name[..|WHIP_NAME_PREFIX|] == WHIP_NAME_PREFIX && s.name[|WHIP_NAME_PREFIX|..] == id
  {
    Sensor(id, WHIP_NAME_PREFIX + id, Vp8, negotiation)
  }

  /** Distinct WHIP ids give distinct sensor names. */
  lemma {:induction false} WhipNamesDistinct(a: string, b: string, na: JsValue, nb: JsValue)
    requires a != b
    ensures WhipSensor(a, na).name != WhipSensor(b, nb).name
  {
    var n := |WHIP_NAME_PREFIX|;
    assert WhipSensor(a, na).name[n..] == a;
    assert WhipSensor(b, nb).name[n..] == b;
  }
}

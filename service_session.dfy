/** The service's session factory: a core session under the given id, bound
    to the named front device when one is named, whose Nest and Ring devices
    are gathered afterwards, appended to the session's sensors and only then
    announced to the conversational agent by `Init`.

    The factory returns before the devices are gathered; the two halves are
    `CreateSession` and `CompleteSetup`. Setting up the devices of a group is
    opaque: it either yields the group's devices or is rejected. */
module SessionFactory {
  import opened JsValues
  import opened Accessory
  import opened LlmAgent
  import opened CoreSession
  import Prompt

  /** The devices one credential group contributes: none when the group is
      absent (falsy) or its setup was rejected. */
  function GroupDevices(credentials: JsValue, setup: JsValue -> Result<seq<Sensor>, string>): (r: seq<Sensor>)
    ensures !Truthy(credentials) ==> r == []
    ensures Truthy(credentials) && setup(credentials).Failure? ==> r == []
    ensures Truthy(credentials) && setup(credentials).Success? ==> r == setup(credentials).value
  {
    if !Truthy(credentials) then []
    else
      match setup(credentials)
      case Success(devices) => devices
      case Failure(_) => []
  }

  /** The gathered sensors: the Nest group's devices, then the Ring group's. */
  function GatherSensors(init: SensorInit,
                         nestSetup: JsValue -> Result<seq<Sensor>, string>,
                         ringSetup: JsValue -> Result<seq<Sensor>, string>): seq<Sensor>
  {
    GroupDevices(init.nest, nestSetup) + GroupDevices(init.ring, ringSetup)
  }

  /** The front device is bound only when `frontDevice` is a non-empty name;
      an unknown name makes the factory throw. */
  method CreateSession(id: string, frontDevice: Option<string>) returns (r: Result<Session, string>)
    ensures r.Success? ==> fresh(r.value) && r.value.Valid()
    ensures r.Success? ==>
      && r.value.id == id && r.value.sensors == [] && r.value.tasks == [] && r.value.frontLLM == null
      && (r.value.frontDevice.Some? <==> frontDevice.Some? && frontDevice.value != "")
    ensures r.Failure? <==>
      frontDevice.Some? && frontDevice.value !in {"", WHIP_FRONT_NAME, ALEXA_FRONT_NAME}
    ensures r.Failure? ==> r.error == "Unknown front device: " + frontDevice.value
  {
    var session := new Session(Some(id), id, None);
    if frontDevice.Some? && frontDevice.value != "" {
      var bound := session.SetFrontDevice(frontDevice.value);
      if bound.Failure? {
        return Failure(bound.error);
      }
    }
    r := Success(session);
  }

  /** The asynchronous half: the gathered devices are pushed one by one onto
      the session's sensors, then the conversational agent is created, told
      every sensor name, and started. */
  method CompleteSetup(session: Session, init: SensorInit,
                       nestSetup: JsValue -> Result<seq<Sensor>, string>,
                       ringSetup: JsValue -> Result<seq<Sensor>, string>,
                       proxyOk: bool, negotiationOk: bool) returns (ok: bool)
    requires session.Valid()
    modifies session
    ensures session.Valid()
    ensures session.sensors == old(session.sensors) + GatherSensors(init, nestSetup, ringSetup)
    ensures fresh(session.frontLLM)
    ensures session.frontLLM.systemInstruction == Prompt.SystemInstruction(SensorNames(session.sensors))
    ensures ok == (proxyOk && negotiationOk)
    ensures session.tasks == old(session.tasks) && session.frontDevice == old(session.frontDevice)
  {
    var accessories := GatherSensors(init, nestSetup, ringSetup);
    for i := 0 to |accessories|
      invariant session.sensors == old(session.sensors) + accessories[..i]
      invariant session.Valid()
      invariant session.tasks == old(session.tasks) && session.frontDevice == old(session.frontDevice)
    {
      session.sensors := session.sensors + [accessories[i]];
    }
    assert accessories[..|accessories|] == accessories;
    ok := session.Init(proxyOk, negotiationOk);
  }

  // ---------------------------------------------------------------------
  // Properties

  /** The gathered sensors are the Nest devices followed by the Ring
      devices, a group that is absent or rejected contributing nothing. */
  lemma GatherOrder(init: SensorInit,
                    nestSetup: JsValue -> Result<seq<Sensor>, string>,
                    ringSetup: JsValue -> Result<seq<Sensor>, string>)
    ensures var g := GatherSensors(init, nestSetup, ringSetup);
      var nest := GroupDevices(init.nest, nestSetup);
      && |g| == |nest| + |GroupDevices(init.ring, ringSetup)|
      && g[..|nest|] == nest && g[|nest|..] == GroupDevices(init.ring, ringSetup)
      && (nest == [] ==> g == GroupDevices(init.ring, ringSetup))
      && (!Truthy(init.ring) || ringSetup(init.ring).Failure? ==> g == nest)
  {
    var g := GatherSensors(init, nestSetup, ringSetup);
    var nest := GroupDevices(init.nest, nestSetup);
    assert g == nest + GroupDevices(init.ring, ringSetup);
    assert nest + [] == nest;
  }

  /** WHIP credentials play no part in what the factory gathers. */
  lemma WhipIgnored(init: SensorInit, whip: Option<seq<WhipCredential>>,
                    nestSetup: JsValue -> Result<seq<Sensor>, string>,
                    ringSetup: JsValue -> Result<seq<Sensor>, string>)
    ensures GatherSensors(init, nestSetup, ringSetup) == GatherSensors(init.(whip := whip), nestSetup, ringSetup)
  {
  }

  /** Every gathered sensor comes from a group that was given and fulfilled. */
  lemma {:induction false} GatheredFromFulfilledGroups(init: SensorInit,
                                                       nestSetup: JsValue -> Result<seq<Sensor>, string>,
                                                       ringSetup: JsValue -> Result<seq<Sensor>, string>,
                                                       k: nat)
    requires k < |GatherSensors(init, nestSetup, ringSetup)|
    ensures var s := GatherSensors(init, nestSetup, ringSetup)[k];
      || (Truthy(init.nest) && nestSetup(init.nest).Success? && s in nestSetup(init.nest).value)
      || (Truthy(init.ring) && ringSetup(init.ring).Success? && s in ringSetup(init.ring).value)
  {
    var nest := GroupDevices(init.nest, nestSetup);
    var ring := GroupDevices(init.ring, ringSetup);
    var g := GatherSensors(init, nestSetup, ringSetup);
    assert g == nest + ring;
    if k < |nest| {
      assert g[k] == nest[k];
    } else {
      assert g[k] == ring[k - |nest|];
    }
  }
}

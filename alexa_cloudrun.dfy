/** The Cloud Run edition of the Alexa skill handler. It routes and answers
    Discover, AcceptGrant and SessionConnected exactly as the first edition
    does; InitiateSessionWithOffer instead looks up the Amazon profile of the
    endpoint's bearer token and asks the signalling service, over JSON-RPC,
    for the SDP answer with a `front_call` naming the Alexa front device.

    The profile lookup, `JSON.parse` of the NEST and RING settings and the
    RPC call are parameters. */
module AlexaCloudRun {
  import opened JsValues
  import opened AlexaLambda
  import CoreSchema
  import ServiceSchema

  /** The profile lookup: the parsed profile on an ok response, else the status text. */
  datatype ProfileResponse = ProfileOk(data: JsValue) | ProfileFailed(statusText: string)

  /** The NEST and RING settings of the environment; `None` when unset. */
  datatype Env = Env(nest: Option<string>, ring: Option<string>)

  const FRONT_CALL_METHOD: string := "front_call"
  const PROFILE_ERROR_PREFIX: string := "Failed to get user profile: "

  /** `SETTING ? JSON.parse(SETTING) : undefined`. */
  function FromEnv(setting: Option<string>, parse: string -> Result<JsValue, string>): (r: Result<JsValue, string>)
    ensures setting.None? || setting == Some("") ==> r == Success(Undefined)
    ensures setting.Some? && setting.value != "" ==> r == parse(setting.value)
  {
    if setting.None? || setting.value == "" then Success(Undefined) else parse(setting.value)
  }

  /** The `front_call` parameters: the credentials from the environment,
      the profile's user id, the offer's SDP, the Alexa front device, and
      the profile's email and name. */
  function FrontCallParams(data: JsValue, offerValue: JsValue, nest: JsValue, ring: JsValue): (v: JsValue)
    ensures v.Obj? && Get(v, "frontDevice") == Str("alexa")
    ensures Get(v, "userId") == Get(data, "user_id") && Get(v, "offer") == offerValue
    ensures Get(v, "email") == Get(data, "email") && Get(v, "name") == Get(data, "name")
    ensures Get(Get(v, "sensors"), "nest") == nest && Get(Get(v, "sensors"), "ring") == ring
    ensures !HasKey(v, "token") && !HasKey(Get(v, "sensors"), "whip")
  {
    Obj(map[
      "sensors" := Obj(map["nest" := nest, "ring" := ring]),
      "userId" := Get(data, "user_id"),
      "offer" := offerValue,
      "frontDevice" := Str("alexa"),
      "email" := Get(data, "email"),
      "name" := Get(data, "name")])
  }

  /** The Initiate answer of this edition, in the order the source runs:
      the profile (reading `endpoint.scope.token`), the offer, the
      environment's credentials, the parameters, the RPC call, and the
      `answer` field of its result under a copy of the request header. */
  function InitiateAnswer(h: HeaderValue, d: Directive, env: Env,
                          profile: JsValue -> ProfileResponse,
                          parse: string -> Result<JsValue, string>,
                          rpc: JsValue -> Result<JsValue, string>): (a: Answer)
    ensures !a.Unanswered?
    ensures a.Succeeded? ==>
      && a.event.AnswerGenerated? && a.event.format == "SDP"
      && a.event.header == h.(name := "AnswerGeneratedForSession") && a.event.endpoint == d.endpoint
    ensures Nullish(d.endpoint) || Nullish(d.payload) || Nullish(Get(d.payload, "offer")) ==> a.Threw?
  {
    if Nullish(d.endpoint) || Nullish(Get(d.endpoint, "scope")) then Threw(ReadOfUndefined)
    else
      match profile(Get(Get(d.endpoint, "scope"), "token"))
      case ProfileFailed(statusText) => Threw(PROFILE_ERROR_PREFIX + statusText)
      case ProfileOk(data) =>
        if Nullish(d.payload) then Threw(ReadOfUndefined)
        else
          var offer := Get(d.payload, "offer");
          match FromEnv(env.nest, parse)
          case Failure(e) => Threw(e)
          case Success(nest) =>
            match FromEnv(env.ring, parse)
            case Failure(e) => Threw(e)
            case Success(ring) =>
              if Nullish(data) || Nullish(offer) then Threw(ReadOfUndefined)
              else
                match rpc(FrontCallParams(data, Get(offer, "value"), nest, ring))
                case Failure(e) => Threw(e)
                case Success(result) =>
                  if Nullish(result) then Threw(ReadOfUndefined)
                  else Succeeded(AnswerGenerated(h.(name := "AnswerGeneratedForSession"), d.endpoint, "SDP", Get(result, "answer")))
  }

  /** The skill's handler, Cloud Run edition. */
  method Handle(d: Directive, env: Env,
                profile: JsValue -> ProfileResponse,
                parse: string -> Result<JsValue, string>,
                rpc: JsValue -> Result<JsValue, string>) returns (a: Answer)
    modifies d.header
    ensures var h := old(d.header.Value());
      match RouteOf(h.namespace, h.name)
      case ToDiscovery =>
        d.header.Value() == h.(name := "Discover.Response") && a == Succeeded(DiscoverResponse(d.header.Value(), DiscoveryPayload))
      case ToAcceptGrant =>
        d.header.Value() == h.(name := "AcceptGrant.Response") && a == Succeeded(GrantResponse(d.header.Value()))
      case ToInitiate => d.header.Value() == h && a == InitiateAnswer(h, d, env, profile, parse, rpc)
      case ToSessionConnected => d.header.Value() == h && a == ConnectedAnswer(h, d)
      case ToNothing => d.header.Value() == h && a == Unanswered
  {
    var h := d.header.Value();
    match RouteOf(h.namespace, h.name)
    case ToDiscovery => a := HandleDiscovery(d);
    case ToAcceptGrant => a := HandleAuthorization(d);
    case ToInitiate => a := InitiateAnswer(h, d, env, profile, parse, rpc);
    case ToSessionConnected => a := ConnectedAnswer(h, d);
    case ToNothing => a := Unanswered;
  }

  // ---------------------------------------------------------------------
  // Properties

  /** A failed profile lookup throws with the status text, whatever the
      service would have answered: nothing is asked of it and nothing is answered. */
  lemma ProfileFailureThrows(h: HeaderValue, d: Directive, env: Env, profile: JsValue -> ProfileResponse,
                             parse: string -> Result<JsValue, string>, rpc: JsValue -> Result<JsValue, string>,
                             other: JsValue -> Result<JsValue, string>)
    requires !Nullish(d.endpoint) && !Nullish(Get(d.endpoint, "scope"))
    requires profile(Get(Get(d.endpoint, "scope"), "token")).ProfileFailed?
    ensures InitiateAnswer(h, d, env, profile, parse, rpc) ==
      Threw(PROFILE_ERROR_PREFIX + profile(Get(Get(d.endpoint, "scope"), "token")).statusText)
    ensures InitiateAnswer(h, d, env, profile, parse, rpc) == InitiateAnswer(h, d, env, profile, parse, other)
  {
  }

  /** A successful answer carries the `answer` field of what the service
      returned for the `front_call` built from the profile, the offer and
      the environment, under a copy of the request header, with the
      endpoint echoed. */
  lemma AnswerComesFromFrontCall(h: HeaderValue, d: Directive, env: Env, profile: JsValue -> ProfileResponse,
                                 parse: string -> Result<JsValue, string>, rpc: JsValue -> Result<JsValue, string>)
    ensures var a := InitiateAnswer(h, d, env, profile, parse, rpc);
      a.Succeeded? ==>
        && !Nullish(d.endpoint) && !Nullish(Get(d.endpoint, "scope"))
        && var p := profile(Get(Get(d.endpoint, "scope"), "token"));
        && p.ProfileOk?
        && FromEnv(env.nest, parse).Success? && FromEnv(env.ring, parse).Success?
        && var params := FrontCallParams(p.data, Get(Get(d.payload, "offer"), "value"),
                                         FromEnv(env.nest, parse).value, FromEnv(env.ring, parse).value);
        && rpc(params).Success?
        && a.event == AnswerGenerated(h.(name := "AnswerGeneratedForSession"), d.endpoint, "SDP", Get(rpc(params).value, "answer"))
  {
  }

  /** The parameters satisfy the service's front-call schema when the
      profile's user id and the offer's SDP are strings, its email and name
      are strings or absent, and the environment's credentials are valid or unset. */
  lemma FrontCallConforms(data: JsValue, offerValue: JsValue, nest: JsValue, ring: JsValue)
    requires Get(data, "user_id").Str? && offerValue.Str?
    requires Get(data, "email").Str? || Get(data, "email").Undefined?
    requires Get(data, "name").Str? || Get(data, "name").Undefined?
    requires nest.Undefined? || CoreSchema.IsGoogleNestCredentials(nest)
    requires ring.Undefined? || CoreSchema.IsRingCredentials(ring)
    ensures ServiceSchema.IsFunctionFrontCall(FrontCallParams(data, offerValue, nest, ring))
  {
    var v := FrontCallParams(data, offerValue, nest, ring);
    assert v.fields["frontDevice"] == Str("alexa");
    assert CoreSchema.IsFrontDeviceName(Str("alexa"));
  }

  /** A profile without a string user id gives parameters the schema refuses. */
  lemma FrontCallNeedsUserId(data: JsValue, offerValue: JsValue, nest: JsValue, ring: JsValue)
    requires !Get(data, "user_id").Str?
    ensures !ServiceSchema.IsFunctionFrontCall(FrontCallParams(data, offerValue, nest, ring))
  {
    var v := FrontCallParams(data, offerValue, nest, ring);
    assert v.fields["userId"] == Get(data, "user_id");
  }

  /** An unset or empty setting gives `undefined` without consulting the
      parser; a set one gives whatever parsing its text gives, so two
      parsers that agree on that text agree on the setting. */
  lemma FromEnvConsultsParserOnlyWhenSet(setting: Option<string>,
                                         parse1: string -> Result<JsValue, string>,
                                         parse2: string -> Result<JsValue, string>)
    requires setting.Some? && setting.value != "" ==> parse1(setting.value) == parse2(setting.value)
    ensures FromEnv(setting, parse1) == FromEnv(setting, parse2)
    ensures FromEnv(setting, parse1).Failure? ==> setting.Some? && setting.value != ""
  {
  }
}

/** The Alexa Smart Home skill handler: routes a directive by its header's
    namespace and name to one of four handlers, each of which answers by
    succeeding with an event, under payload version 3 of the
    Alexa.RTCSessionController interface.

    Discovery and AcceptGrant rename the request's header object in place
    and answer with that same header; the two session handlers answer with a
    copy of the header under a new name and leave the request alone. The
    signalling service's `/offer` endpoint is a parameter: it maps the
    posted body to the response text. */
module AlexaLambda {
  import opened JsValues

  datatype HeaderValue = HeaderValue(namespace: string, name: string, messageId: string,
                                     correlationToken: string, payloadVersion: string)

  /** A directive's header: an object the handlers may write to. */
  class Header {
    var namespace: string
    var name: string
    var messageId: string
    var correlationToken: string
    var payloadVersion: string

    function Value(): HeaderValue
      reads this
    {
      HeaderValue(namespace, name, messageId, correlationToken, payloadVersion)
    }

    constructor(v: HeaderValue)
      ensures Value() == v
    {
      namespace := v.namespace;
      name := v.name;
      messageId := v.messageId;
      correlationToken := v.correlationToken;
      payloadVersion := v.payloadVersion;
    }

    /** `header.name = name`. */
    method Rename(name: string)
      modifies this`name
      ensures Value() == old(Value()).(name := name)
    {
      this.name := name;
    }
  }

  /** `request.directive`: the header object, the endpoint and the payload as parsed JSON. */
  datatype Directive = Directive(header: Header, endpoint: JsValue, payload: JsValue)

  /** The body posted to the signalling service. */
  datatype OfferBody = OfferBody(sdp: JsValue, sessionId: JsValue)

  datatype Event =
    | GrantResponse(header: HeaderValue)
    | DiscoverResponse(header: HeaderValue, payload: JsValue)
    | AnswerGenerated(header: HeaderValue, endpoint: JsValue, format: string, answer: JsValue)
    | SessionConnectedEvent(header: HeaderValue, endpoint: JsValue, sessionId: JsValue)

  /** What the handler did: succeeded with an event, finished without
      answering, or threw (before answering). */
  datatype Answer = Succeeded(event: Event) | Unanswered | Threw(message: string)

  datatype Route = ToDiscovery | ToInitiate | ToSessionConnected | ToAcceptGrant | ToNothing

  const DISCOVERY_NAMESPACE: string := "Alexa.Discovery"
  const RTC_NAMESPACE: string := "Alexa.RTCSessionController"
  const AUTHORIZATION_NAMESPACE: string := "Alexa.Authorization"
  const ENDPOINT_ID: string := "sample-chatgpt02"

  /** The error reading a property of `undefined` raises. */
  const ReadOfUndefined: string := "Cannot read properties of undefined"

  /** Which handler a directive goes to. */
  function RouteOf(namespace: string, name: string): (r: Route)
    ensures r == ToDiscovery <==> namespace == DISCOVERY_NAMESPACE && name == "Discover"
    ensures r == ToInitiate <==> namespace == RTC_NAMESPACE && name == "InitiateSessionWithOffer"
    ensures r == ToSessionConnected <==> namespace == RTC_NAMESPACE && name == "SessionConnected"
    ensures r == ToAcceptGrant <==> namespace == AUTHORIZATION_NAMESPACE && name == "AcceptGrant"
  {
    if namespace == DISCOVERY_NAMESPACE && name == "Discover" then ToDiscovery
    else if namespace == RTC_NAMESPACE then
      if name == "InitiateSessionWithOffer" then ToInitiate
      else if name == "SessionConnected" then ToSessionConnected
      else ToNothing
    else if namespace == AUTHORIZATION_NAMESPACE && name == "AcceptGrant" then ToAcceptGrant
    else ToNothing
  }

  /** The one endpoint the skill reports: a doorbell speaking full-duplex
      audio over the RTC session controller, version 3. */
  const DiscoveryPayload: JsValue := Obj(map["endpoints" := Arr([Obj(map[
    "endpointId" := Str(ENDPOINT_ID),
    "manufacturerName" := Str("エージェント"),
    "friendlyName" := Str("エージェント"),
    "description" := Str("ChatGPT"),
    "displayCategories" := Arr([Str("DOORBELL")]),
    "capabilities" := Arr([Obj(map[
      "type" := Str("AlexaInterface"),
      "interface" := Str(RTC_NAMESPACE),
      "version" := Str("3"),
      "configuration" := Obj(map["isFullDuplexAudioSupported" := Bool(true)])])])])])])

  /** `request.directive.payload.sessionId`, which throws on an absent payload. */
  function SessionIdOf(payload: JsValue): (r: Result<JsValue, string>)
    ensures Nullish(payload) <==> r.Failure?
    ensures r.Success? ==> r.value == Get(payload, "sessionId")
  {
    if Nullish(payload) then Failure(ReadOfUndefined) else Success(Get(payload, "sessionId"))
  }

  /** The SessionConnected answer: the request header copied under the name
      "SessionConnected", the endpoint and the session id echoed. */
  function ConnectedAnswer(h: HeaderValue, d: Directive): (a: Answer)
    ensures Nullish(d.payload) ==> a.Threw?
    ensures !Nullish(d.payload) ==> a == Succeeded(SessionConnectedEvent(h.(name := "SessionConnected"), d.endpoint, Get(d.payload, "sessionId")))
  {
    match SessionIdOf(d.payload)
    case Failure(e) => Threw(e)
    case Success(id) => Succeeded(SessionConnectedEvent(h.(name := "SessionConnected"), d.endpoint, id))
  }

  /** The Initiate answer: the offer's SDP and the session id are posted to
      the service and the response text is the SDP answer, sent under a copy
      of the request header named "AnswerGeneratedForSession". */
  function InitiateAnswer(h: HeaderValue, d: Directive, post: OfferBody -> string): (a: Answer)
    ensures !a.Unanswered?
    ensures Nullish(Get(d.payload, "offer")) ==> a.Threw?
    ensures !Nullish(Get(d.payload, "offer")) ==>
      var body := OfferBody(Get(Get(d.payload, "offer"), "value"), Get(d.payload, "sessionId"));
      a == Succeeded(AnswerGenerated(h.(name := "AnswerGeneratedForSession"), d.endpoint, "SDP", Str(post(body))))
  {
    var offer := Get(d.payload, "offer");
    if Nullish(offer) then Threw(ReadOfUndefined)
    else
      var sdp := post(OfferBody(Get(offer, "value"), Get(d.payload, "sessionId")));
      Succeeded(AnswerGenerated(h.(name := "AnswerGeneratedForSession"), d.endpoint, "SDP", Str(sdp)))
  }

  /** AcceptGrant: the request's header is renamed in place and answered with an empty payload. */
  method HandleAuthorization(d: Directive) returns (a: Answer)
    modifies d.header
    ensures d.header.Value() == old(d.header.Value()).(name := "AcceptGrant.Response")
    ensures a == Succeeded(GrantResponse(d.header.Value()))
  {
    d.header.Rename("AcceptGrant.Response");
    a := Succeeded(GrantResponse(d.header.Value()));
  }

  /** Discover: the request's header is renamed in place and answered with the endpoint list. */
  method HandleDiscovery(d: Directive) returns (a: Answer)
    modifies d.header
    ensures d.header.Value() == old(d.header.Value()).(name := "Discover.Response")
    ensures a == Succeeded(DiscoverResponse(d.header.Value(), DiscoveryPayload))
  {
    d.header.Rename("Discover.Response");
    a := Succeeded(DiscoverResponse(d.header.Value(), DiscoveryPayload));
  }

  /** The skill's handler. */
  method Handle(d: Directive, post: OfferBody -> string) returns (a: Answer)
    modifies d.header
    ensures var h := old(d.header.Value());
      match RouteOf(h.namespace, h.name)
      case ToDiscovery =>
        d.header.Value() == h.(name := "Discover.Response") && a == Succeeded(DiscoverResponse(d.header.Value(), DiscoveryPayload))
      case ToAcceptGrant =>
        d.header.Value() == h.(name := "AcceptGrant.Response") && a == Succeeded(GrantResponse(d.header.Value()))
      case ToInitiate => d.header.Value() == h && a == InitiateAnswer(h, d, post)
      case ToSessionConnected => d.header.Value() == h && a == ConnectedAnswer(h, d)
      case ToNothing => d.header.Value() == h && a == Unanswered
  {
    var h := d.header.Value();
    match RouteOf(h.namespace, h.name)
    case ToDiscovery => a := HandleDiscovery(d);
    case ToAcceptGrant => a := HandleAuthorization(d);
    case ToInitiate => a := InitiateAnswer(h, d, post);
    case ToSessionConnected => a := ConnectedAnswer(h, d);
    case ToNothing => a := Unanswered;
  }

  // ---------------------------------------------------------------------
  // Properties

  /** Exactly four (namespace, name) pairs are answered; in particular no
      other name under the RTC session controller is. */
  lemma OnlyFourDirectives(namespace: string, name: string)
    ensures RouteOf(namespace, name) != ToNothing <==>
      (namespace, name) in {(DISCOVERY_NAMESPACE, "Discover"), (RTC_NAMESPACE, "InitiateSessionWithOffer"),
                            (RTC_NAMESPACE, "SessionConnected"), (AUTHORIZATION_NAMESPACE, "AcceptGrant")}
  {
  }

  /** The discovery payload lists one endpoint, "sample-chatgpt02", with
      one capability: the RTC session controller, version 3, full duplex. */
  lemma DiscoveryPayloadShape()
    ensures var endpoints := Get(DiscoveryPayload, "endpoints");
      && endpoints.Arr? && |endpoints.items| == 1
      && Get(endpoints.items[0], "endpointId") == Str(ENDPOINT_ID)
      && var caps := Get(endpoints.items[0], "capabilities");
      && caps.Arr? && |caps.items| == 1
      && Get(caps.items[0], "interface") == Str(RTC_NAMESPACE)
      && Get(caps.items[0], "version") == Str("3")
      && Get(Get(caps.items[0], "configuration"), "isFullDuplexAudioSupported") == Bool(true)
  {
  }

  /** The copied headers differ from the request's only in their name. */
  lemma CopiedHeadersKeepIdentity(h: HeaderValue, d: Directive, post: OfferBody -> string)
    ensures var a := InitiateAnswer(h, d, post);
      a.Succeeded? ==>
        && a.event.header.messageId == h.messageId && a.event.header.correlationToken == h.correlationToken
        && a.event.header.namespace == h.namespace && a.event.header.payloadVersion == h.payloadVersion
        && a.event.header.name == "AnswerGeneratedForSession"
    ensures var a := ConnectedAnswer(h, d);
      a.Succeeded? ==> a.event.header == h.(name := "SessionConnected") && a.event.endpoint == d.endpoint
  {
  }

  /** The SessionConnected answer depends on the directive only through its
      endpoint and its payload's `sessionId` (and whether a payload is there
      at all); nothing is posted to the service. */
  lemma ConnectedAnswerDeterminedBy(h: HeaderValue, d1: Directive, d2: Directive)
    requires d1.endpoint == d2.endpoint
    requires Nullish(d1.payload) == Nullish(d2.payload)
    requires Get(d1.payload, "sessionId") == Get(d2.payload, "sessionId")
    ensures ConnectedAnswer(h, d1) == ConnectedAnswer(h, d2)
    ensures ConnectedAnswer(h, d1).Succeeded? ==> ConnectedAnswer(h, d1).event.sessionId == Get(d1.payload, "sessionId")
  {
  }

  /** The Initiate answer depends on the directive only through its
      endpoint, the offer's `value` and the payload's `sessionId`, and on
      the service only through its response to that one body; without an
      offer it throws whatever the service would answer. */
  lemma InitiateAnswerDeterminedBy(h: HeaderValue, d1: Directive, d2: Directive,
                                   post1: OfferBody -> string, post2: OfferBody -> string)
    requires d1.endpoint == d2.endpoint
    requires Nullish(Get(d1.payload, "offer")) == Nullish(Get(d2.payload, "offer"))
    requires !Nullish(Get(d1.payload, "offer")) ==>
      var body := OfferBody(Get(Get(d1.payload, "offer"), "value"), Get(d1.payload, "sessionId"));
      && Get(Get(d2.payload, "offer"), "value") == body.sdp
      && Get(d2.payload, "sessionId") == body.sessionId
      && post1(body) == post2(body)
    ensures InitiateAnswer(h, d1, post1) == InitiateAnswer(h, d2, post2)
    ensures InitiateAnswer(h, d1, post1).Threw? <==> Nullish(Get(d1.payload, "offer"))
  {
  }
}

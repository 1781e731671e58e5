/** The signalling service: a registry of sessions keyed by id behind one
    JSON-RPC method, `offer`, reached over a websocket.

    The session factory and the front device's offer handling are opaque
    here: the registry keeps, per session, the arguments the factory got,
    and answering an offer is a parameter. Session ids that the factory
    draws at random come from a numbered supply, `uuid(k)` for the k-th. */
module ServiceMain {
  import opened JsValues
  import opened JsonRpcServer

  const OFFER_METHOD: string := "offer"

  /** What the registry knows of a session: its id and the factory's arguments. */
  datatype SessionHandle = SessionHandle(id: JsValue, accessories: JsValue, frontDevice: JsValue)

  /** The sessions by id, and how many random ids have been drawn. */
  datatype Registry = Registry(sessions: map<JsValue, SessionHandle>, drawn: nat)

  /** Every session is stored under its own id, which is never null or undefined. */
  predicate Keyed(r: Registry) {
    forall k :: k in r.sessions ==> r.sessions[k].id == k && !Nullish(k)
  }

  /** The error destructuring `null` or `undefined` parameters raises. */
  const DestructureError: string := "Cannot destructure the handler's parameters"

  /** The session an `offer` call is served by: the one stored under its
      `userId`, or else a new one with id `userId ?? randomUUID()`. */
  function SessionFor(uuid: nat -> string, r: Registry, params: JsValue): (s: SessionHandle)
    ensures Get(params, "userId") in r.sessions ==> s == r.sessions[Get(params, "userId")]
    ensures Get(params, "userId") !in r.sessions ==>
      && s.id == (if Nullish(Get(params, "userId")) then Str(uuid(r.drawn)) else Get(params, "userId"))
      && s.accessories == Get(params, "accessories")
      && s.frontDevice == Obj(map["name" := Get(params, "frontDevice")])
  {
    var userId := Get(params, "userId");
    if userId in r.sessions then r.sessions[userId]
    else SessionHandle(Coalesce(userId, Str(uuid(r.drawn))), Get(params, "accessories"),
                       Obj(map["name" := Get(params, "frontDevice")]))
  }

  /** The `offer` handler: the serving session is (re)stored under its id
      before the offer is handed to its front device, whose answer, or
      failure, is the handler's. Destructuring null or undefined parameters
      throws before anything changes. */
  function Offer(uuid: nat -> string, answerOffer: (SessionHandle, JsValue) -> Outcome,
                 r: Registry, params: JsValue): (st: Step<Registry>)
    ensures Nullish(params) ==> st.state == r && st.outcome.Threw?
    ensures !Nullish(params) ==> st.outcome == answerOffer(SessionFor(uuid, r, params), Get(params, "offer"))
    ensures r.sessions.Keys <= st.state.sessions.Keys
    ensures !Nullish(params) ==> st.state.sessions.Keys - r.sessions.Keys <= {SessionFor(uuid, r, params).id}
    ensures r.drawn <= st.state.drawn <= r.drawn + 1
  {
    if Nullish(params) then Step(r, Threw(DestructureError, Undefined))
    else
      var session := SessionFor(uuid, r, params);
      var drawn := if Get(params, "userId") in r.sessions || !Nullish(Get(params, "userId")) then r.drawn else r.drawn + 1;
      Step(Registry(r.sessions[session.id := session], drawn), answerOffer(session, Get(params, "offer")))
  }

  /** What the socket listener does with a message before dispatching it. */
  datatype Screened = AnswerParseError | Drop | Dispatch(request: JsValue)

  /** The listener's screening as written: `tryWith` hands back either
      `{error}` (`None` here, the text was not JSON) or the parsed value
      itself, and the value is then tested with `"error" in`. That test
      throws on a primitive or null, so nothing is sent, and it sends the
      parse error for an object that merely has an `error` key. */
  function Screen(message: Option<JsValue>): (r: Screened)
    ensures r.Dispatch? <==> message.Some? && (message.value.Arr? || message.value.Obj?) && !HasKey(message.value, "error")
    ensures r.Dispatch? ==> r.request == message.value
    ensures r.Drop? <==> message.Some? && !message.value.Arr? && !message.value.Obj?
  {
    match message
    case None => AnswerParseError
    case Some(v) =>
      if !v.Arr? && !v.Obj? then Drop
      else if HasKey(v, "error") then AnswerParseError
      else Dispatch(v)
  }

  /** The screening the listener is evidently meant to do: only text that
      is not JSON gets the parse error, and every parsed value is
      dispatched (the server answers the malformed ones itself). */
  function IntendedScreen(message: Option<JsValue>): (r: Screened)
    ensures r.AnswerParseError? <==> message.None?
    ensures message.Some? ==> r == Dispatch(message.value)
  {
    match message
    case None => AnswerParseError
    case Some(v) => Dispatch(v)
  }

  class Service {
    const server: Server<Registry>
    const uuid: nat -> string
    const answerOffer: (SessionHandle, JsValue) -> Outcome
    var registry: Registry
    /** The replies sent on the socket, in order. */
    var sent: seq<Reply>

    /** The handler registered under `offer`. */
    function OfferHandler(): Handler<Registry>
    {
      (r, params) => Offer(uuid, answerOffer, r, params)
    }

    /** Registers `offer` and nothing else, on an empty registry. */
    constructor(uuid: nat -> string, answerOffer: (SessionHandle, JsValue) -> Outcome)
      ensures this.uuid == uuid && this.answerOffer == answerOffer
      ensures server.methods == map[OFFER_METHOD := OfferHandler()]
      ensures registry == Registry(map[], 0) && sent == []
    {
      this.uuid := uuid;
      this.answerOffer := answerOffer;
      var s := new Server<Registry>();
      var _ := s.RegisterMethod(OFFER_METHOD, (r, params) => Offer(uuid, answerOffer, r, params));
      server := s;
      registry := Registry(map[], 0);
      sent := [];
    }

    /** One socket message, screened as the listener does: the parse error
        is sent for text that is not JSON and for an object with an `error`
        key; a primitive makes the listener throw, so nothing is sent; any
        other value is dispatched and the dispatch result is sent when
        there is one, nothing when the handling rejected or yielded
        nothing. */
    method OnMessage(message: Option<JsValue>)
      modifies this`registry, this`sent
      ensures Screen(message).AnswerParseError? ==> registry == old(registry) && sent == old(sent) + [One(ParseErrorResponse)]
      ensures Screen(message).Drop? ==> registry == old(registry) && sent == old(sent)
      ensures Screen(message).Dispatch? ==>
        var d := HandleRequest(server.methods, old(registry), message.value);
        && registry == d.state
        && sent == old(sent) + (if d.reply.One? || d.reply.Many? then [d.reply] else [])
    {
      var screened := Screen(message);
      if screened.AnswerParseError? {
        sent := sent + [One(ParseErrorResponse)];
        return;
      } else if screened.Drop? {
        return;
      }
      var d := HandleRequest(server.methods, registry, screened.request);
      registry := d.state;
      if d.reply.One? || d.reply.Many? {
        sent := sent + [d.reply];
      }
    }
  }

  // ---------------------------------------------------------------------
  // Properties

  /** Null or undefined parameters make `offer` throw and change nothing. */
  lemma OfferWithoutParams(uuid: nat -> string, answerOffer: (SessionHandle, JsValue) -> Outcome, r: Registry, params: JsValue)
    requires Nullish(params)
    ensures Offer(uuid, answerOffer, r, params) == Step(r, Threw(DestructureError, Undefined))
  {
  }

  /** Every `offer` call is answered by the serving session's front device,
      and that session is registered under its id whatever the answer. */
  lemma OfferAnswersAndRegisters(uuid: nat -> string, answerOffer: (SessionHandle, JsValue) -> Outcome, r: Registry, params: JsValue)
    requires !Nullish(params)
    ensures var s := SessionFor(uuid, r, params);
      var st := Offer(uuid, answerOffer, r, params);
      && st.outcome == answerOffer(s, Get(params, "offer"))
      && s.id in st.state.sessions && st.state.sessions[s.id] == s
      && st.state.sessions.Keys == r.sessions.Keys + {s.id}
  {
  }

  /** The registry stays keyed by session id. */
  lemma OfferKeepsKeyed(uuid: nat -> string, answerOffer: (SessionHandle, JsValue) -> Outcome, r: Registry, params: JsValue)
    requires Keyed(r)
    ensures Keyed(Offer(uuid, answerOffer, r, params).state)
  {
    if !Nullish(params) {
      var s := SessionFor(uuid, r, params);
      assert !Nullish(s.id);
    }
  }

  /** A known `userId` leaves the registry as it was: no session is created
      and no random id is drawn. */
  lemma RepeatedUserKeepsRegistry(uuid: nat -> string, answerOffer: (SessionHandle, JsValue) -> Outcome, r: Registry, params: JsValue)
    requires Keyed(r) && !Nullish(params) && Get(params, "userId") in r.sessions
    ensures Offer(uuid, answerOffer, r, params).state == r
    ensures |Offer(uuid, answerOffer, r, params).state.sessions| == |r.sessions|
  {
    var userId := Get(params, "userId");
    assert r.sessions[userId].id == userId;
    assert r.sessions[userId := r.sessions[userId]] == r.sessions;
  }

  /** A new `userId` adds exactly one session, stored under that id. */
  lemma NewUserAddsSession(uuid: nat -> string, answerOffer: (SessionHandle, JsValue) -> Outcome, r: Registry, params: JsValue)
    requires !Nullish(params) && !Nullish(Get(params, "userId")) && Get(params, "userId") !in r.sessions
    ensures var st := Offer(uuid, answerOffer, r, params);
      && |st.state.sessions| == |r.sessions| + 1
      && Get(params, "userId") in st.state.sessions && st.state.drawn == r.drawn
  {
  }

  /** Without a `userId` every call makes a new session under a freshly
      drawn id; a second call with the same parameters does not find it. */
  lemma AnonymousOfferDrawsId(uuid: nat -> string, answerOffer: (SessionHandle, JsValue) -> Outcome, r: Registry, params: JsValue)
    requires Keyed(r) && !Nullish(params) && Nullish(Get(params, "userId"))
    ensures var st := Offer(uuid, answerOffer, r, params);
      && st.state.drawn == r.drawn + 1
      && Str(uuid(r.drawn)) in st.state.sessions
      && Get(params, "userId") !in st.state.sessions
  {
    OfferKeepsKeyed(uuid, answerOffer, r, params);
  }

  /** Any method other than `offer` is answered with "Method not found"
      under the request's id, and leaves the registry alone. */
  lemma OnlyOfferIsServed(handler: Handler<Registry>, r: Registry, request: JsValue)
    requires IsValidRequest(request) && Get(request, "method").s != OFFER_METHOD && !request.Arr?
    ensures HandleRequest(map[OFFER_METHOD := handler], r, request) ==
      Dispatched(r, One(ErrorResponse(ErrorObject(METHOD_NOT_FOUND, "Method not found", Undefined), EchoedId(request))))
  {
  }

  /** The written screening agrees with the intended one exactly on the
      messages that are not JSON and on the arrays and objects without an
      `error` key. */
  lemma ScreenDisagreement(message: Option<JsValue>)
    ensures Screen(message) != IntendedScreen(message) <==>
      message.Some? && (!(message.value.Arr? || message.value.Obj?) || HasKey(message.value, "error"))
  {
  }

  /** A well-formed `offer` call that also carries an `error` member is
      answered with the parse error and never reaches the handler, while
      the intended screening dispatches it. */
  lemma ErrorKeyMistakenForParseFailure()
    ensures var v := Obj(map["jsonrpc" := Str("2.0"), "method" := Str(OFFER_METHOD),
                             "params" := Obj(map["offer" := Str("x")]), "id" := Num(1), "error" := Num(0)]);
      && IsValidRequest(v)
      && Screen(Some(v)) == AnswerParseError
      && IntendedScreen(Some(v)) == Dispatch(v)
  {
  }

  /** The JSON text `5` gets no answer at all as written; the intended
      screening dispatches it and the server answers "Invalid Request". */
  lemma PrimitiveGetsNoAnswer(methods: map<string, Handler<Registry>>, r: Registry)
    ensures Screen(Some(Num(5))) == Drop
    ensures IntendedScreen(Some(Num(5))) == Dispatch(Num(5))
    ensures HandleRequest(methods, r, Num(5)) ==
      Dispatched(r, One(ErrorResponse(ErrorObject(INVALID_REQUEST, "Invalid Request", Num(5)), Null)))
  {
  }
}

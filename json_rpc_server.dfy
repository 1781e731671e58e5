/** The server half of the JSON-RPC 2.0 engine: a method registry, the
    validation and dispatch of one request, and batches.

    Handlers are opaque: each is a function from the application's state and
    the request's `params` to a new state and either a result or a thrown
    error. The entries of a batch are handled left to right, each handler
    seeing the state the previous one left (the source starts every entry's
    handler synchronously, in input order, before awaiting any of them). */
module JsonRpcServer {
  import opened JsValues

  const PARSE_ERROR: int := -32700
  const INVALID_REQUEST: int := -32600
  const METHOD_NOT_FOUND: int := -32601
  const SERVER_ERROR: int := -32000

  /** The `error` member of an error response; `data` is `undefined` when absent. */
  datatype ErrorObject = ErrorObject(code: int, message: string, data: JsValue)

  datatype Response =
    | SuccessResponse(result: JsValue, id: JsValue)
    | ErrorResponse(error: ErrorObject, id: JsValue)

  /** What a handler did: returned (or resolved to) a value, threw (or
      rejected with) an error carrying a message and optional data, or threw
      (or rejected with) null or undefined, on which reading `message` in
      the catch block throws in turn. */
  datatype Outcome = Returned(value: JsValue) | Threw(message: string, data: JsValue) | ThrewNullish

  datatype Step<S> = Step(state: S, outcome: Outcome)

  type Handler<!S> = (S, JsValue) -> Step<S>

  /** The fate of one request: the handling promise rejects (Crash), it
      resolves to `undefined` (Silent), or it resolves to a response. */
  datatype Answer = Crash | Silent | Respond(response: Response)

  datatype Handled<S> = Handled(state: S, answer: Answer)

  datatype Run<S> = Run(state: S, answers: seq<Answer>)

  /** What `handleRequest` resolves to, or Crashed when it rejects. */
  datatype Reply = Crashed | NoReply | One(response: Response) | Many(responses: seq<Response>)

  datatype Dispatched<S> = Dispatched(state: S, reply: Reply)

  /** The fixed reply to a message that is not JSON. */
  const ParseErrorResponse: Response :=
    ErrorResponse(ErrorObject(PARSE_ERROR, "Parse error", Undefined), Null)

  /** The registry of methods. */
  class Server<S> {
    var methods: map<string, Handler<S>>

    constructor()
      ensures methods == map[]
    {
      methods := map[];
    }

    /** Adds `name`; fails, leaving the table as it was, when it is taken. */
    method RegisterMethod(name: string, handler: Handler<S>) returns (r: Result<(), string>)
      modifies this
      ensures old(name in methods) ==> r == Failure("Method " + name + " is already registered")
      ensures old(name in methods) ==> methods == old(methods)
      ensures old(name !in methods) ==> r.Success? && methods == old(methods)[name := handler]
      ensures methods.Keys == old(methods.Keys) + {name}
    {
      if name in methods {
        r := Failure("Method " + name + " is already registered");
      } else {
        methods := methods[name := handler];
        r := Success(());
      }
    }
  }

  /** An id is a string, a number or null. */
  predicate IdShaped(v: JsValue) {
    v.Str? || v.Num? || v.Null?
  }

  /** The envelope check: truthy, `jsonrpc` is "2.0", `method` is a string,
      and an `id` key, if present, holds a string, a number or null. */
  predicate IsValidRequest(v: JsValue) {
    && Truthy(v)
    && Get(v, "jsonrpc") == Str("2.0")
    && Get(v, "method").Str?
    && (HasKey(v, "id") ==> IdShaped(Get(v, "id")))
  }

  function MakeErrorResponse(id: JsValue, code: int, message: string, data: JsValue): (r: Response)
    ensures r.ErrorResponse? && r.id == id && r.error == ErrorObject(code, message, data)
  {
    ErrorResponse(ErrorObject(code, message, data), id)
  }

  /** The message of a server error: the thrown message, or a default when it is empty. */
  function ServerErrorMessage(thrown: string): string {
    if thrown == "" then "Server error" else thrown
  }

  /** One request. Reading `request.id` on a null or undefined entry throws;
      every other request is answered under its `id ?? null`, and only a
      handler that ran can change the state. */
  function HandleSingleRequest<S>(methods: map<string, Handler<S>>, s: S, request: JsValue): (h: Handled<S>)
    ensures h.answer.Crash? <==> Nullish(request) || ThrowsNullish(methods, s, request)
    ensures h.answer.Respond? ==> h.answer.response.id == Coalesce(Get(request, "id"), Null)
    ensures h.answer.Silent? ==> IsValidRequest(request) && Nullish(Get(request, "id"))
    ensures !(IsValidRequest(request) && Get(request, "method").s in methods) ==> h.state == s
  {
    if !IsValidRequest(request) then
      if Nullish(request) then Handled(s, Crash)
      else Handled(s, Respond(MakeErrorResponse(Coalesce(Get(request, "id"), Null), INVALID_REQUEST, "Invalid Request", request)))
    else
      var name := Get(request, "method").s;
      var id := Get(request, "id");
      if name !in methods then
        Handled(s, Respond(MakeErrorResponse(Coalesce(id, Null), METHOD_NOT_FOUND, "Method not found", Undefined)))
      else
        var step := methods[name](s, Get(request, "params"));
        match step.outcome
        case Returned(v) =>
          if Nullish(id) then Handled(step.state, Silent) else Handled(step.state, Respond(SuccessResponse(v, id)))
        case Threw(m, d) =>
          Handled(step.state, Respond(MakeErrorResponse(Coalesce(id, Null), SERVER_ERROR, ServerErrorMessage(m), d)))
        case ThrewNullish =>
          Handled(step.state, Crash)
  }

  /** The entry is a well-formed request naming a registered method. */
  predicate IsRegisteredCall<S>(methods: map<string, Handler<S>>, v: JsValue) {
    IsValidRequest(v) && Get(v, "method").s in methods
  }

  /** The entry's handler, run in state `s`, throws null or undefined. */
  predicate ThrowsNullish<S>(methods: map<string, Handler<S>>, s: S, v: JsValue) {
    IsRegisteredCall(methods, v) && methods[Get(v, "method").s](s, Get(v, "params")).outcome.ThrewNullish?
  }

  /** Every entry of a batch, in input order, threading the state. */
  function RunAll<S>(methods: map<string, Handler<S>>, s: S, entries: seq<JsValue>): (r: Run<S>)
    ensures |r.answers| == |entries|
    decreases |entries|
  {
    if entries == [] then Run(s, [])
    else
      var h := HandleSingleRequest(methods, s, entries[0]);
      var rest := RunAll(methods, h.state, entries[1..]);
      Run(rest.state, [h.answer] + rest.answers)
  }

  /** The responses among the answers, in order: the notification gaps removed. */
  function Responses(answers: seq<Answer>): (rs: seq<Response>)
    ensures |rs| <= |answers|
    ensures forall r :: r in rs <==> Respond(r) in answers
  {
    if answers == [] then []
    else if answers[0].Respond? then [answers[0].response] + Responses(answers[1..])
    else Responses(answers[1..])
  }

  predicate AnyCrash(answers: seq<Answer>) {
    exists i :: 0 <= i < |answers| && answers[i].Crash?
  }

  /** `handleRequest`: a batch (a JSON array) or a single request. */
  function HandleRequest<S>(methods: map<string, Handler<S>>, s: S, request: JsValue): (d: Dispatched<S>)
    ensures !request.Arr? ==> !d.reply.Many?
    ensures request.Arr? && request.items != [] ==> !d.reply.One?
    ensures d.reply.Many? ==> d.reply.responses != []
    ensures request == Arr([]) ==> d.state == s && d.reply.One? && d.reply.response.id == Null
  {
    match request
    case Arr(entries) =>
      if entries == [] then
        Dispatched(s, One(MakeErrorResponse(Null, INVALID_REQUEST, "Invalid Request: empty batch", Undefined)))
      else
        var run := RunAll(methods, s, entries);
        if AnyCrash(run.answers) then Dispatched(run.state, Crashed)
        else
          var rs := Responses(run.answers);
          Dispatched(run.state, if rs == [] then NoReply else Many(rs))
    case _ =>
      var h := HandleSingleRequest(methods, s, request);
      Dispatched(h.state, match h.answer
                          case Crash => Crashed
                          case Silent => NoReply
                          case Respond(r) => One(r))
  }

  // ---------------------------------------------------------------------
  // Properties

  /** The id a request is answered under: its `id`, or null when that is absent or null. */
  function EchoedId(request: JsValue): JsValue {
    Coalesce(Get(request, "id"), Null)
  }

  /** What one request yields, case by case. Only a null (or undefined)
      request, or a handler that throws null or undefined, makes the handling
      throw; an invalid one is answered with -32600 carrying the request as
      data; an unregistered method gets -32601 and a handler throwing an
      error -32000, even for a notification; a successful handler is
      answered iff the request carries a non-null id. */
  lemma SingleRequestCases<S>(methods: map<string, Handler<S>>, s: S, request: JsValue)
    ensures var h := HandleSingleRequest(methods, s, request);
      && (h.answer.Crash? <==> Nullish(request) || ThrowsNullish(methods, s, request))
      && (!IsValidRequest(request) && !Nullish(request) ==>
            h == Handled(s, Respond(ErrorResponse(ErrorObject(INVALID_REQUEST, "Invalid Request", request), EchoedId(request)))))
      && (IsValidRequest(request) && Get(request, "method").s !in methods ==>
            h == Handled(s, Respond(ErrorResponse(ErrorObject(METHOD_NOT_FOUND, "Method not found", Undefined), EchoedId(request)))))
      && (IsValidRequest(request) && Get(request, "method").s in methods ==>
            var step := methods[Get(request, "method").s](s, Get(request, "params"));
            && h.state == step.state
            && (step.outcome.Returned? ==>
                  (h.answer.Silent? <==> Nullish(Get(request, "id")))
                  && (h.answer.Respond? ==> h.answer.response == SuccessResponse(step.outcome.value, Get(request, "id"))))
            && (step.outcome.Threw? ==>
                  h.answer == Respond(ErrorResponse(ErrorObject(SERVER_ERROR, ServerErrorMessage(step.outcome.message), step.outcome.data), EchoedId(request))))
            && (step.outcome.ThrewNullish? ==> h.answer == Crash))
  {
  }

  /** Every response, whatever its kind, carries the request's `id ?? null`. */
  lemma ResponseEchoesId<S>(methods: map<string, Handler<S>>, s: S, request: JsValue)
    ensures var h := HandleSingleRequest(methods, s, request);
      h.answer.Respond? ==> h.answer.response.id == EchoedId(request)
  {
  }

  /** An empty batch is answered by one error object, not an array. */
  lemma EmptyBatch<S>(methods: map<string, Handler<S>>, s: S)
    ensures HandleRequest(methods, s, Arr([])) ==
      Dispatched(s, One(ErrorResponse(ErrorObject(INVALID_REQUEST, "Invalid Request: empty batch", Undefined), Null)))
  {
  }

  /** Every registered handler returns normally, whatever the state and params. */
  ghost predicate NeverThrows<S(!new)>(methods: map<string, Handler<S>>) {
    forall name, s, p :: name in methods ==> methods[name](s, p).outcome.Returned?
  }

  /** The ids of the entries that are calls rather than notifications, in order. */
  function CallIds(entries: seq<JsValue>): (ids: seq<JsValue>)
    ensures |ids| <= |entries|
  {
    if entries == [] then []
    else if Nullish(Get(entries[0], "id")) then CallIds(entries[1..])
    else [Get(entries[0], "id")] + CallIds(entries[1..])
  }

  function Ids(rs: seq<Response>): (ids: seq<JsValue>)
    ensures |ids| == |rs|
  {
    if rs == [] then [] else [rs[0].id] + Ids(rs[1..])
  }

  /** Running a batch of registered calls whose handlers never throw: nothing
      crashes and the responses carry exactly the ids of the non-notification
      entries, in input order (N requests, M notifications: N - M responses). */
  lemma {:induction false} RunAllAnswersCalls<S(!new)>(methods: map<string, Handler<S>>, s: S, entries: seq<JsValue>)
    requires NeverThrows(methods)
    requires forall i :: 0 <= i < |entries| ==> IsRegisteredCall(methods, entries[i])
    ensures var run := RunAll(methods, s, entries);
      && !AnyCrash(run.answers)
      && Ids(Responses(run.answers)) == CallIds(entries)
    decreases |entries|
  {
    if entries != [] {
      var h := HandleSingleRequest(methods, s, entries[0]);
      var name := Get(entries[0], "method").s;
      assert methods[name](s, Get(entries[0], "params")).outcome.Returned?;
      RunAllAnswersCalls(methods, h.state, entries[1..]);
      var rest := RunAll(methods, h.state, entries[1..]);
      var answers := [h.answer] + rest.answers;
      assert answers[1..] == rest.answers;
    }
  }

  /** The batch-level statement: a non-empty batch of registered calls whose
      handlers never throw is answered by the responses to its calls, in
      order, and by nothing at all when every entry is a notification. */
  lemma BatchOfCalls<S(!new)>(methods: map<string, Handler<S>>, s: S, entries: seq<JsValue>)
    requires entries != []
    requires NeverThrows(methods)
    requires forall i :: 0 <= i < |entries| ==> IsRegisteredCall(methods, entries[i])
    ensures var d := HandleRequest(methods, s, Arr(entries));
      && (d.reply.NoReply? <==> CallIds(entries) == [])
      && (d.reply.Many? ==> Ids(d.reply.responses) == CallIds(entries))
      && (d.reply.NoReply? || d.reply.Many?)
  {
    RunAllAnswersCalls(methods, s, entries);
    var run := RunAll(methods, s, entries);
    var rs := Responses(run.answers);
    assert |Ids(rs)| == |rs|;
  }

  /** A crashing entry makes the whole batch reject, after every entry ran. */
  lemma {:induction false} NullEntryCrashesBatch<S>(methods: map<string, Handler<S>>, s: S, entries: seq<JsValue>, k: nat)
    requires k < |entries| && entries[k] == Null
    ensures HandleRequest(methods, s, Arr(entries)).reply == Crashed
  {
    var run := RunAll(methods, s, entries);
    NullEntryAnswersCrash(methods, s, entries, k);
    assert run.answers[k].Crash?;
  }

  lemma {:induction false} NullEntryAnswersCrash<S>(methods: map<string, Handler<S>>, s: S, entries: seq<JsValue>, k: nat)
    requires k < |entries| && entries[k] == Null
    ensures RunAll(methods, s, entries).answers[k].Crash?
    decreases |entries|
  {
    if k > 0 {
      var h := HandleSingleRequest(methods, s, entries[0]);
      NullEntryAnswersCrash(methods, h.state, entries[1..], k - 1);
    }
  }

  /** Answer i of a batch is what entry i gets on its own, in the state the
      entries before it left. */
  lemma {:induction false} RunAllPointwise<S>(methods: map<string, Handler<S>>, s: S, entries: seq<JsValue>)
    ensures forall i :: 0 <= i < |entries| ==>
      RunAll(methods, s, entries).answers[i] == HandleSingleRequest(methods, RunAll(methods, s, entries[..i]).state, entries[i]).answer
    decreases |entries|
  {
    if entries != [] {
      var h := HandleSingleRequest(methods, s, entries[0]);
      RunAllPointwise(methods, h.state, entries[1..]);
      forall i | 0 < i < |entries|
        ensures RunAll(methods, s, entries[..i]).state == RunAll(methods, h.state, entries[1..][..i - 1]).state
      {
        assert entries[..i][0] == entries[0];
        assert entries[..i][1..] == entries[1..][..i - 1];
      }
      assert entries[..0] == [];
    }
  }

  /** Dropping the gaps commutes with concatenation: the responses of a
      batch are those of its first part followed by those of the rest. */
  lemma {:induction false} ResponsesAppend(a: seq<Answer>, b: seq<Answer>)
    ensures Responses(a + b) == Responses(a) + Responses(b)
    ensures forall r :: Responses([Respond(r)]) == [r]
    ensures Responses([Silent]) == [] && Responses([Crash]) == []
    decreases |a|
  {
    if a == [] {
      assert a + b == b;
    } else {
      assert (a + b)[0] == a[0] && (a + b)[1..] == a[1..] + b;
      ResponsesAppend(a[1..], b);
    }
  }

  /** The reply to any non-empty batch: it rejects exactly when some entry
      is null or undefined or has its handler, in the state the entries
      before it left, throw null or undefined; otherwise it holds the entries' own responses,
      in input order, and is absent when there are none. */
  lemma BatchReply<S>(methods: map<string, Handler<S>>, s: S, entries: seq<JsValue>)
    requires entries != []
    ensures var run := RunAll(methods, s, entries);
      var d := HandleRequest(methods, s, Arr(entries));
      && (d.reply.Crashed? <==>
            exists i :: 0 <= i < |entries| &&
              (Nullish(entries[i]) || ThrowsNullish(methods, RunAll(methods, s, entries[..i]).state, entries[i])))
      && (!d.reply.Crashed? ==>
            && (d.reply.NoReply? <==> Responses(run.answers) == [])
            && (d.reply.Many? ==> d.reply.responses == Responses(run.answers))
            && (d.reply.NoReply? || d.reply.Many?))
      && d.state == run.state
  {
    var run := RunAll(methods, s, entries);
    RunAllPointwise(methods, s, entries);
    if exists i :: 0 <= i < |entries| &&
         (Nullish(entries[i]) || ThrowsNullish(methods, RunAll(methods, s, entries[..i]).state, entries[i])) {
      var i :| 0 <= i < |entries| &&
        (Nullish(entries[i]) || ThrowsNullish(methods, RunAll(methods, s, entries[..i]).state, entries[i]));
      assert run.answers[i].Crash?;
    }
    if AnyCrash(run.answers) {
      var i :| 0 <= i < |run.answers| && run.answers[i].Crash?;
      assert Nullish(entries[i]) || ThrowsNullish(methods, RunAll(methods, s, entries[..i]).state, entries[i]);
    }
  }

  /** The code of an error response tells which check failed: -32600 for a
      request failing the envelope check, -32601 for an unknown method,
      -32000 for a handler that threw an error (a handler throwing null or
      undefined gets no response at all). */
  lemma ErrorCodeTellsCase<S>(methods: map<string, Handler<S>>, s: S, request: JsValue)
    ensures var h := HandleSingleRequest(methods, s, request);
      var code := if h.answer.Respond? && h.answer.response.ErrorResponse? then h.answer.response.error.code else 0;
      && (code == INVALID_REQUEST <==> !IsValidRequest(request) && !Nullish(request))
      && (code == METHOD_NOT_FOUND <==> IsValidRequest(request) && Get(request, "method").s !in methods)
      && (code == SERVER_ERROR <==> IsRegisteredCall(methods, request)
                                     && methods[Get(request, "method").s](s, Get(request, "params")).outcome.Threw?)
      && (h.answer.Respond? && h.answer.response.ErrorResponse? ==> code in {INVALID_REQUEST, METHOD_NOT_FOUND, SERVER_ERROR})
  {
  }

  /** Only objects pass the envelope check, and an object passes exactly
      when it names version "2.0", has a string `method`, and any `id` key
      holds a string, a number or null. */
  lemma EnvelopeCheck(v: JsValue)
    ensures !v.Obj? ==> !IsValidRequest(v)
    ensures v.Obj? ==> (IsValidRequest(v) <==>
      && "jsonrpc" in v.fields && v.fields["jsonrpc"] == Str("2.0")
      && "method" in v.fields && v.fields["method"].Str?
      && ("id" in v.fields ==> v.fields["id"].Str? || v.fields["id"].Num? || v.fields["id"].Null?))
  {
  }
}

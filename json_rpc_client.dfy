/** The client half of the JSON-RPC 2.0 engine: an id counter, a table of
    pending calls, and the correlation of incoming responses with them.

    The transport's `send` is modelled as an outbox of the request objects
    handed to it; the promise a call returns is modelled by the settlement
    (resolution with `result` or rejection with `error`) recorded when its
    response arrives. */
module JsonRpcClient {
  import opened JsValues
  import JsonRpcServer

  datatype Settlement = Resolved(id: int, result: JsValue) | Rejected(id: int, error: JsValue)

  /** The pending table together with the settlements made so far. */
  datatype Table = Table(pending: set<int>, settled: seq<Settlement>)

  /** The outcome of delivering a message: the table, and whether an entry
      made the handling throw (reading `id` of a null response). */
  datatype Delivery = Delivery(table: Table, threw: bool)

  /** A request object for a call. */
  function CallMessage(name: string, params: JsValue, id: int): JsValue {
    Obj(map["jsonrpc" := Str("2.0"), "method" := Str(name), "params" := params, "id" := Num(id)])
  }

  /** A request object for a notification: it has no `id` key. */
  function NotificationMessage(name: string, params: JsValue): JsValue {
    Obj(map["jsonrpc" := Str("2.0"), "method" := Str(name), "params" := params])
  }

  /** How the pending resolver settles: resolve when the response has a
      `result` key, reject with its `error` otherwise. */
  function SettlementFor(id: int, response: JsValue): Settlement {
    if HasKey(response, "result") then Resolved(id, Get(response, "result"))
    else Rejected(id, Get(response, "error"))
  }

  /** One response that is not null or undefined: a response whose id is a
      pending call settles it and removes it; any other is ignored. */
  function Settle(t: Table, response: JsValue): (r: Table)
    ensures r.pending <= t.pending
    ensures r.pending == t.pending ==> r == t
    ensures r.pending != t.pending ==>
      var id := Get(response, "id");
      && id.Num? && t.pending - r.pending == {id.n}
      && r.settled == t.settled + [SettlementFor(id.n, response)]
    ensures Get(response, "id").Num? && Get(response, "id").n in t.pending ==>
      r == Table(t.pending - {Get(response, "id").n}, t.settled + [SettlementFor(Get(response, "id").n, response)])
  {
    var id := Get(response, "id");
    if id.Num? && id.n in t.pending then
      Table(t.pending - {id.n}, t.settled + [SettlementFor(id.n, response)])
    else t
  }

  /** The responses of a message in order; a null or undefined entry throws
      and the entries after it are not handled. */
  function SettleAll(t: Table, entries: seq<JsValue>): (d: Delivery)
    ensures d.threw <==> exists i :: 0 <= i < |entries| && Nullish(entries[i])
    ensures d.table.pending <= t.pending
    ensures |d.table.settled| >= |t.settled| && d.table.settled[..|t.settled|] == t.settled
    decreases |entries|
  {
    if entries == [] then Delivery(t, false)
    else if Nullish(entries[0]) then Delivery(t, true)
    else SettleAll(Settle(t, entries[0]), entries[1..])
  }

  /** An incoming message: `None` stands for text that is not JSON, which is dropped. */
  function Receive(t: Table, message: Option<JsValue>): (d: Delivery)
  {
    match message
    case None => Delivery(t, false)
    case Some(Arr(entries)) => SettleAll(t, entries)
    case Some(v) => SettleAll(t, [v])
  }

  class Client {
    var idCounter: int
    var pending: set<int>
    var settled: seq<Settlement>
    var outbox: seq<JsValue>

    /** Every pending id was handed out by an earlier call. */
    ghost predicate Valid()
      reads this
    {
      idCounter >= 1 && forall k :: k in pending ==> 1 <= k < idCounter
    }

    function State(): Table
      reads this
    {
      Table(pending, settled)
    }

    constructor()
      ensures Valid()
      ensures idCounter == 1 && pending == {} && settled == [] && outbox == []
    {
      idCounter := 1;
      pending := {};
      settled := [];
      outbox := [];
    }

    /** A call takes the next id, registers it as pending, then sends.
        `sendOk` says whether the transport's `send` returned; when it
        throws, inside the promise executor, the call's promise rejects
        and the id stays pending. */
    method Call(name: string, params: JsValue, sendOk: bool) returns (id: int, rejected: bool)
      requires Valid()
      modifies this
      ensures Valid()
      ensures id == old(idCounter) && idCounter == id + 1
      ensures id !in old(pending) && pending == old(pending) + {id}
      ensures rejected == !sendOk
      ensures outbox == old(outbox) + (if sendOk then [CallMessage(name, params, id)] else [])
      ensures settled == old(settled)
    {
      id := idCounter;
      idCounter := idCounter + 1;
      pending := pending + {id};
      if sendOk {
        outbox := outbox + [CallMessage(name, params, id)];
      }
      rejected := !sendOk;
    }

    /** A notification is sent without an id; counter and table are
        untouched. A throwing `send` throws to the caller and sends nothing. */
    method Notify(name: string, params: JsValue, sendOk: bool) returns (threw: bool)
      modifies this`outbox
      ensures threw == !sendOk
      ensures outbox == old(outbox) + (if sendOk then [NotificationMessage(name, params)] else [])
    {
      if sendOk {
        outbox := outbox + [NotificationMessage(name, params)];
      }
      threw := !sendOk;
    }

    method HandleResponse(response: JsValue) returns (threw: bool)
      requires Valid()
      modifies this`pending, this`settled
      ensures Valid()
      ensures threw <==> Nullish(response)
      ensures threw ==> State() == old(State())
      ensures !threw ==> State() == Settle(old(State()), response)
    {
      if Nullish(response) {
        return true;
      }
      threw := false;
      var id := Get(response, "id");
      if id.Num? && id.n in pending {
        settled := settled + [SettlementFor(id.n, response)];
        pending := pending - {id.n};
      }
    }

    method OnMessage(message: Option<JsValue>) returns (threw: bool)
      requires Valid()
      modifies this`pending, this`settled
      ensures Valid()
      ensures Delivery(State(), threw) == Receive(old(State()), message)
    {
      if message.None? {
        return false;
      }
      var entries := if message.value.Arr? then message.value.items else [message.value];
      assert Receive(State(), message) == SettleAll(State(), entries);
      var i := 0;
      while i < |entries|
        invariant 0 <= i <= |entries|
        invariant Valid()
        invariant SettleAll(State(), entries[i..]) == Receive(old(State()), message)
      {
        threw := HandleResponse(entries[i]);
        if threw {
          return;
        }
        assert entries[i..][1..] == entries[i + 1..];
        i := i + 1;
      }
      threw := false;
    }
  }

  // ---------------------------------------------------------------------
  // Properties

  /** The settlements added by delivering `entries` settle distinct ids, each
      of them one that was pending and is no longer; the others stay pending. */
  lemma {:induction false} SettleAllOnce(t: Table, entries: seq<JsValue>)
    ensures var d := SettleAll(t, entries).table;
      && d.pending <= t.pending
      && |t.settled| <= |d.settled| && d.settled[..|t.settled|] == t.settled
      && (forall j :: |t.settled| <= j < |d.settled| ==> d.settled[j].id in t.pending - d.pending)
      && (forall j, k :: |t.settled| <= j < k < |d.settled| ==> d.settled[j].id != d.settled[k].id)
      && (forall x :: x in t.pending - d.pending ==> exists j :: |t.settled| <= j < |d.settled| && d.settled[j].id == x)
    decreases |entries|
  {
    if entries != [] && !Nullish(entries[0]) {
      var t1 := Settle(t, entries[0]);
      SettleAllOnce(t1, entries[1..]);
      var d := SettleAll(t, entries).table;
      assert d == SettleAll(t1, entries[1..]).table;
      if t1 != t {
        var id := Get(entries[0], "id").n;
        assert t1.settled[|t.settled|].id == id;
        assert d.settled[|t.settled|] == t1.settled[|t.settled|];
        forall x | x in t.pending - d.pending
          ensures exists j :: |t.settled| <= j < |d.settled| && d.settled[j].id == x
        {
          if x == id {
            assert d.settled[|t.settled|].id == x;
          } else {
            assert x in t1.pending - d.pending;
            var j :| |t1.settled| <= j < |d.settled| && d.settled[j].id == x;
          }
        }
      }
    }
  }

  /** A response to a pending call settles it: when entry k of a message
      carries the pending id x, and no entry before it is null or undefined
      or carries x, then delivering the message removes x from the table and
      settles it as entry k says. */
  lemma {:induction false} PendingResponseSettles(t: Table, entries: seq<JsValue>, k: nat, x: int)
    requires k < |entries|
    requires forall j :: 0 <= j < k ==> !Nullish(entries[j]) && Get(entries[j], "id") != Num(x)
    requires Get(entries[k], "id") == Num(x) && x in t.pending
    ensures var d := SettleAll(t, entries);
      && x !in d.table.pending
      && SettlementFor(x, entries[k]) in d.table.settled[|t.settled|..]
    decreases k
  {
    var t1 := Settle(t, entries[0]);
    assert !Nullish(entries[0]);
    assert SettleAll(t, entries) == SettleAll(t1, entries[1..]);
    if k == 0 {
      var d := SettleAll(t1, entries[1..]);
      assert t1.settled[|t.settled|] == SettlementFor(x, entries[0]);
      assert d.table.settled[|t.settled|] == t1.settled[|t.settled|];
    } else {
      assert x in t1.pending;
      PendingResponseSettles(t1, entries[1..], k - 1, x);
      var d := SettleAll(t1, entries[1..]);
      assert d.table.settled[|t.settled|..][|t1.settled| - |t.settled|..] == d.table.settled[|t1.settled|..];
    }
  }

  /** A second response with the same id is ignored. */
  lemma DuplicateResponseIgnored(t: Table, response: JsValue)
    ensures Settle(Settle(t, response), response) == Settle(t, response)
  {
  }

  /** Responses whose id is null, absent, or not pending leave the table alone. */
  lemma ForeignResponseIgnored(t: Table, response: JsValue)
    requires !(Get(response, "id").Num? && Get(response, "id").n in t.pending)
    ensures Settle(t, response) == t
  {
  }

  /** What the client sends is what the server accepts: a call is a valid
      request answered under its own id, a notification is a valid request
      with no id. */
  lemma MessagesAreValidRequests(name: string, params: JsValue, id: int)
    ensures JsonRpcServer.IsValidRequest(CallMessage(name, params, id))
    ensures JsonRpcServer.EchoedId(CallMessage(name, params, id)) == Num(id)
    ensures JsonRpcServer.IsValidRequest(NotificationMessage(name, params))
    ensures !HasKey(NotificationMessage(name, params), "id")
  {
  }
}

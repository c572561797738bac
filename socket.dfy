// The protocol socket's bookkeeping: request ids, the queue of requests made
// before the socket opened, the table of requests awaiting a response, and the
// table of event listeners.  The WebSocket itself is a log of the messages it
// was given to send; the promises of the requests are a log of how each was
// settled.

module ProtocolSocket {
  import opened Basics
  import opened JsValues

  /** A request as `sendMessage` builds it. */
  datatype Request = Request(id: nat, sessionId: Option<string>, pauseId: Option<string>, methodName: string, params: Json)

  /** A message from the server, after `JSON.parse`; an `id` of 0 is a message without id. */
  datatype Incoming = Incoming(id: nat, error: Json, result: Json, methodName: string, params: Json)

  /** What `onSocketMessage` does with a message. */
  datatype Delivery =
    | Resolve(id: nat, result: Json)
    | Reject(id: nat, error: Json)
    | Handle(handler: nat, params: Json)
    | Unknown
    | MissingWaiter(id: nat)

  /**
   * The dispatch of an incoming message: a response settles the request it
   * answers (rejecting it when the response carries an error), an event goes
   * to the listener for its method, and anything else is only logged.  A
   * response for a request nobody waits for fails before changing anything.
   */
  function Dispatch(waiters: map<nat, string>, listeners: map<string, nat>, msg: Incoming): (r: Delivery)
    ensures r.Resolve? || r.Reject? || r.MissingWaiter? <==> msg.id != 0
    ensures (r.Resolve? || r.Reject?) <==> msg.id != 0 && msg.id in waiters
    ensures r.Reject? <==> msg.id != 0 && msg.id in waiters && Truthy(msg.error)
    ensures (r.Resolve? || r.Reject? || r.MissingWaiter?) ==> r.id == msg.id
    ensures r.Handle? <==> msg.id == 0 && msg.methodName in listeners
    ensures r.Handle? ==> r.handler == listeners[msg.methodName] && r.params == msg.params
  {
    if msg.id != 0 then
      if msg.id !in waiters then MissingWaiter(msg.id)
      else if Truthy(msg.error) then Reject(msg.id, msg.error)
      else Resolve(msg.id, msg.result)
    else if msg.methodName in listeners then Handle(listeners[msg.methodName], msg.params)
    else Unknown
  }

  /** The ids of a list of requests strictly increase. */
  predicate IncreasingIds(requests: seq<Request>)
  {
    forall i, j :: 0 <= i < j < |requests| ==> requests[i].id < requests[j].id
  }

  class Socket {
    var isOpen: bool
    var pending: seq<Request>
    var nextId: nat
    /** `gMessageWaiters`: request id to method. */
    var waiters: map<nat, string>
    /** `gEventListeners`: method to handler. */
    var listeners: map<string, nat>
    /** What was handed to the WebSocket, in order. */
    var sent: seq<Request>
    /** What was done with each incoming message, in order. */
    var deliveries: seq<Delivery>
    /** The requests that have had their response. */
    ghost var answered: set<nat>

    /**
     * Ids are handed out from 1 upwards, every request made so far was either
     * sent or is queued (queued ones only while the socket is closed), and a
     * request has a waiter exactly until its response arrives.
     */
    ghost predicate Valid()
      reads this
    {
      1 <= nextId &&
      IncreasingIds(sent + pending) &&
      (forall i :: 0 <= i < |sent + pending| ==> 1 <= (sent + pending)[i].id < nextId) &&
      (isOpen ==> pending == []) &&
      (forall id :: id in waiters ==> 1 <= id < nextId && id !in answered) &&
      (forall id :: id in answered ==> 1 <= id < nextId) &&
      (forall id :: 1 <= id < nextId && id !in answered ==> id in waiters)
    }

    constructor()
      ensures Valid()
      ensures !isOpen && pending == [] && nextId == 1 && waiters == map[] && listeners == map[] && sent == [] && deliveries == []
    {
      isOpen, pending, nextId, waiters, listeners, sent, deliveries := false, [], 1, map[], map[], [], [];
      answered := {};
    }

    /** `sendMessage`: the next id is used, the request is sent or queued, and its waiter is recorded. */
    method SendMessage(methodName: string, params: Json, sessionId: Option<string>, pauseId: Option<string>) returns (id: nat)
      requires Valid()
      modifies this
      ensures Valid()
      ensures id == old(nextId) && nextId == id + 1
      ensures var request := Request(id, sessionId, pauseId, methodName, params);
        if isOpen then sent == old(sent) + [request] && pending == old(pending)
        else pending == old(pending) + [request] && sent == old(sent)
      ensures waiters == old(waiters)[id := methodName]
      ensures isOpen == old(isOpen) && listeners == old(listeners) && deliveries == old(deliveries) && answered == old(answered)
    {
      id := nextId;
      nextId := nextId + 1;
      var request := Request(id, sessionId, pauseId, methodName, params);
      ghost var all := sent + pending;
      if isOpen {
        sent := sent + [request];
        assert sent + pending == all + [request];
      } else {
        pending := pending + [request];
        assert sent + pending == all + [request];
      }
      waiters := waiters[id := methodName];
    }

    /** `onSocketOpen`: the queued requests are sent in order, the queue is emptied and the socket is open. */
    method OnSocketOpen()
      requires Valid()
      modifies this
      ensures Valid()
      ensures isOpen && pending == [] && sent == old(sent) + old(pending)
      ensures nextId == old(nextId) && waiters == old(waiters) && listeners == old(listeners) && deliveries == old(deliveries)
    {
      var i := 0;
      while i < |pending|
        invariant 0 <= i <= |pending|
        invariant pending == old(pending)
        invariant sent == old(sent) + pending[..i]
        invariant isOpen == old(isOpen) && nextId == old(nextId) && waiters == old(waiters) && answered == old(answered)
        invariant listeners == old(listeners) && deliveries == old(deliveries)
      {
        sent := sent + [pending[i]];
        i := i + 1;
      }
      assert pending[..i] == pending;
      pending := [];
      isOpen := true;
      assert sent + pending == old(sent + pending);
    }

    /** `addEventListener`: a second listener for the same method is an error. */
    method AddEventListener(methodName: string, handler: nat) returns (error: Option<string>)
      modifies this
      ensures old(methodName in listeners) <==> error.Some?
      ensures error.Some? ==> error.value == "Duplicate event listener" && listeners == old(listeners)
      ensures error.None? ==> listeners == old(listeners)[methodName := handler]
      ensures isOpen == old(isOpen) && pending == old(pending) && nextId == old(nextId) && waiters == old(waiters)
      ensures sent == old(sent) && deliveries == old(deliveries) && answered == old(answered)
    {
      if methodName in listeners {
        return Some("Duplicate event listener");
      }
      listeners := listeners[methodName := handler];
      error := None;
    }

    /** `removeEventListener`. */
    method RemoveEventListener(methodName: string)
      modifies this
      ensures listeners == old(listeners) - {methodName}
      ensures isOpen == old(isOpen) && pending == old(pending) && nextId == old(nextId) && waiters == old(waiters)
      ensures sent == old(sent) && deliveries == old(deliveries) && answered == old(answered)
    {
      listeners := listeners - {methodName};
    }

    /** `onSocketMessage`: a response removes its waiter and settles it once; events reach their listener. */
    method OnSocketMessage(msg: Incoming) returns (delivery: Delivery)
      requires Valid()
      modifies this
      ensures Valid()
      ensures delivery == Dispatch(old(waiters), old(listeners), msg)
      ensures deliveries == old(deliveries) + [delivery]
      ensures delivery.Resolve? || delivery.Reject? ==> waiters == old(waiters) - {msg.id} && answered == old(answered) + {msg.id}
      ensures !(delivery.Resolve? || delivery.Reject?) ==> waiters == old(waiters) && answered == old(answered)
      ensures isOpen == old(isOpen) && pending == old(pending) && nextId == old(nextId) && listeners == old(listeners) && sent == old(sent)
    {
      delivery := Dispatch(waiters, listeners, msg);
      if delivery.Resolve? || delivery.Reject? {
        waiters := waiters - {msg.id};
        answered := answered + {msg.id};
      }
      deliveries := deliveries + [delivery];
    }
  }

  /** A response to a request that was already answered settles nothing: each request is settled at most once. */
  method SettledOnce(socket: Socket, msg: Incoming, again: Incoming) returns (first: Delivery, second: Delivery)
    requires socket.Valid()
    requires again.id == msg.id
    modifies socket
    ensures first.Resolve? || first.Reject? ==> second == MissingWaiter(msg.id)
  {
    first := socket.OnSocketMessage(msg);
    second := socket.OnSocketMessage(again);
  }
}

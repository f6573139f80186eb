/** The five request handlers. Each is given twice: as a pure transition of
    the connection's value (`...Step`), which carries what the handler
    promises, and as a method that updates a `Connection` in place and is
    proved to perform exactly that transition. */
module Handlers {
  import opened Wrappers
  import opened Protocol
  import opened Collaborators

  /** `r` is `s` with exactly one more message sent. */
  predicate SentOne(s: Session, r: Session) {
    |r.outbox| == |s.outbox| + 1 && r.outbox[..|s.outbox|] == s.outbox
  }

  /** `list || []`: a missing list reads as the empty one. */
  function OrEmpty(list: Option<seq<string>>): seq<string> {
    if list.Some? then list.value else []
  }

  /** The `services` handler: one response with the server's service list. */
  function ServicesStep(server: Server, s: Session, req: Request): (r: Session)
    ensures r.instances == s.instances && r.nextId == s.nextId
    ensures SentOne(s, r) && Echoes(r.outbox[|s.outbox|], req)
    ensures server.serviceList.Some? ==> r.outbox[|s.outbox|].result == Some(Names(server.serviceList.value))
    ensures server.serviceList.None? ==> r.outbox[|s.outbox|].result == Some(Names([]))
  {
    var response := CreateResponse(req);
    s.Send(response.(result := Some(Names(OrEmpty(server.serviceList)))))
  }

  /** The `exports` handler: one response with the service's export list. */
  function ExportsStep(server: Server, s: Session, req: Request): (r: Session)
    ensures r.instances == s.instances && r.nextId == s.nextId
    ensures SentOne(s, r) && Echoes(r.outbox[|s.outbox|], req)
    ensures server.exportList(req.service).Some? ==>
      r.outbox[|s.outbox|].result == Some(Names(server.exportList(req.service).value))
    ensures server.exportList(req.service).None? ==> r.outbox[|s.outbox|].result == Some(Names([]))
  {
    var response := CreateResponse(req);
    s.Send(response.(result := Some(Names(OrEmpty(server.exportList(req.service))))))
  }

  /** The `instance` handler: register a new instance and report its id and
      exports, or send a `NewInstanceError` and leave the instances alone. */
  function InstanceStep(server: Server, s: Session, req: Request): (r: Session)
    ensures SentOne(s, r) && AnswersTo(r.outbox[|s.outbox|], req)
    ensures r.outbox[|s.outbox|].Error? <==> server.construct(req.service).None?
    ensures server.construct(req.service).None? ==>
      r.instances == s.instances &&
      r.outbox[|s.outbox|] == Error(NewInstanceError, "Could not create instance", Some(req.id))
    ensures server.construct(req.service).Some? ==>
      var m := r.outbox[|s.outbox|];
      m.result.Some? && m.result.value.Created? &&
      r.instances == s.instances[m.result.value.instance := server.construct(req.service).value] &&
      (s.Valid() ==> m.result.value.instance !in s.instances) &&
      m.result.value.exports == server.exportList(req.service)
    ensures s.Valid() ==> r.Valid()
  {
    var (s', id) := Allocate(server, s, req.service);
    match id
    case None => s'.Send(Error(NewInstanceError, "Could not create instance", Some(req.id)))
    case Some(id) =>
      s'.Send(CreateResponse(req).(result := Some(Created(id, server.exportList(req.service)))))
  }

  /** The two callbacks registered on a thenable, waiting for its settlement. */
  datatype Pending = Pending(req: Request, settlement: Settlement)

  /** How an `invoke` ended: a message was sent, callbacks wait on a thenable,
      or the handler threw before sending anything. */
  datatype Reply = Answered | Awaiting(pending: Pending) | Escaped

  /** The message an invocation settles into. A fulfilment becomes the
      response's result; a rejection is relayed as an error with the
      rejection's own name and message, correlated to the request. */
  function SettleReply(req: Request, settlement: Settlement): (m: Message)
    ensures AnswersTo(m, req)
    ensures m.Response? <==> settlement.Fulfilled?
    ensures settlement.Fulfilled? ==> m.result == Some(Result(settlement.value))
    ensures settlement.Rejected? ==>
      m.name == settlement.error.name && m.message == settlement.error.message
  {
    match settlement
    case Fulfilled(v) => CreateResponse(req).(result := Some(Result(v)))
    case Rejected(e) => Error(e.name, e.message, Some(req.id))
  }

  /** The `invoke` handler. An unknown instance gets an uncorrelated
      `InstanceNotFound`; a method missing from the exports gets
      `NoSuchMethod` and is never called; otherwise the call's outcome is
      relayed, a synchronous return or throw exactly as the corresponding
      settlement of a thenable would be. */
  function InvokeStep(s: Session, req: Request): (r: (Session, Reply))
    ensures r.0.instances == s.instances && r.0.nextId == s.nextId
    ensures r.1.Answered? ==> SentOne(s, r.0)
    ensures !r.1.Answered? ==> r.0.outbox == s.outbox
    ensures req.instance !in s.instances ==>
      r.1.Answered? &&
      r.0.outbox[|s.outbox|] == Error(InstanceNotFound, "Requested instance could not be found", None)
    ensures req.instance in s.instances && req.methodName !in s.instances[req.instance].exports ==>
      r.1.Answered? &&
      r.0.outbox[|s.outbox|] == Error(NoSuchMethod, "Method is not exported by the service", Some(req.id))
    ensures req.instance in s.instances && req.methodName in s.instances[req.instance].exports ==>
      match s.instances[req.instance].call(req.methodName, req.args)
      case Returned(v) =>
        if v.Undefined? || v.Null? then r.1.Escaped?
        else r.1.Answered? && r.0.outbox[|s.outbox|] == SettleReply(req, Fulfilled(v))
      case Thrown(e) => r.1.Answered? && r.0.outbox[|s.outbox|] == SettleReply(req, Rejected(e))
      case Deferred(settlement) => r.1 == Awaiting(Pending(req, settlement))
  {
    if req.instance !in s.instances then
      (s.Send(Error(InstanceNotFound, "Requested instance could not be found", None)), Answered)
    else
      var instance := s.instances[req.instance];
      if req.methodName in instance.exports then
        match instance.call(req.methodName, req.args)
        case Thrown(e) => (s.Send(Error(e.name, e.message, Some(req.id))), Answered)
        case Returned(v) =>
          if v.Undefined? || v.Null? then (s, Escaped)
          else (s.Send(CreateResponse(req).(result := Some(Result(v)))), Answered)
        case Deferred(settlement) => (s, Awaiting(Pending(req, settlement)))
      else
        (s.Send(Error(NoSuchMethod, "Method is not exported by the service", Some(req.id))), Answered)
  }

  /** The `release` handler: forget the instance, known or not, and send a
      bare response. */
  function ReleaseStep(s: Session, req: Request): (r: Session)
    ensures req.instance !in r.instances
    ensures forall k :: k in s.instances && k != req.instance ==> k in r.instances && r.instances[k] == s.instances[k]
    ensures r.instances.Keys <= s.instances.Keys && r.nextId == s.nextId
    ensures SentOne(s, r) && Echoes(r.outbox[|s.outbox|], req) && r.outbox[|s.outbox|].result.None?
  {
    Forget(s, req.instance).Send(CreateResponse(req))
  }

  method HandleServices(server: Server, c: Connection, req: Request)
    modifies c
    ensures c.Snapshot() == ServicesStep(server, old(c.Snapshot()), req)
  {
    var response := CreateResponse(req);
    response := response.(result := Some(Names(OrEmpty(server.serviceList))));
    c.Send(response);
  }

  method HandleExports(server: Server, c: Connection, req: Request)
    modifies c
    ensures c.Snapshot() == ExportsStep(server, old(c.Snapshot()), req)
  {
    var response := CreateResponse(req);
    response := response.(result := Some(Names(OrEmpty(server.exportList(req.service)))));
    c.Send(response);
  }

  method HandleInstance(server: Server, c: Connection, req: Request)
    modifies c
    ensures c.Snapshot() == InstanceStep(server, old(c.Snapshot()), req)
  {
    var response := CreateResponse(req);
    var id := c.AddInstance(server, req.service);
    if id.None? {
      c.SendError(NewInstanceError, "Could not create instance", Some(req.id));
      return;
    }
    response := response.(result := Some(Created(id.value, server.exportList(req.service))));
    c.Send(response);
  }

  /** Returns what became of the request; `Awaiting` hands back the callbacks
      registered on the thenable, to be run by `Settle`. */
  method HandleInvoke(server: Server, c: Connection, req: Request) returns (reply: Reply)
    modifies c
    ensures (c.Snapshot(), reply) == InvokeStep(old(c.Snapshot()), req)
  {
    var response := CreateResponse(req);
    if req.instance !in c.instances {
      c.SendError(InstanceNotFound, "Requested instance could not be found", None);
      return Answered;
    }
    var instance := c.instances[req.instance];
    if req.methodName in instance.exports {
      var returned := instance.call(req.methodName, req.args);
      match returned
      case Thrown(e) =>
        c.SendError(e.name, e.message, Some(req.id));
        return Answered;
      case Returned(v) =>
        if v.Undefined? || v.Null? {
          // reading `then` off undefined or null throws outside the try
          return Escaped;
        }
        response := response.(result := Some(Result(v)));
        c.Send(response);
        return Answered;
      case Deferred(settlement) =>
        return Awaiting(Pending(req, settlement));
    } else {
      c.SendError(NoSuchMethod, "Method is not exported by the service", Some(req.id));
      return Answered;
    }
  }

  /** The thenable settles: exactly one of the two registered callbacks runs. */
  method Settle(c: Connection, pending: Pending)
    modifies c
    ensures c.Snapshot() == old(c.Snapshot()).Send(SettleReply(pending.req, pending.settlement))
  {
    match pending.settlement
    case Fulfilled(result) =>
      var response := CreateResponse(pending.req);
      response := response.(result := Some(Result(result)));
      c.Send(response);
    case Rejected(error) =>
      c.SendError(error.name, error.message, Some(pending.req.id));
  }

  method HandleRelease(server: Server, c: Connection, req: Request)
    modifies c
    ensures c.Snapshot() == ReleaseStep(old(c.Snapshot()), req)
  {
    c.RemoveInstance(req.instance);
    c.Send(CreateResponse(req));
  }
}

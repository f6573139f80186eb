/** The collaborators the handlers consume: the server (service registry),
    the service instances it constructs, and the per-client connection. */
module Collaborators {
  import opened Wrappers
  import opened Protocol

  /** How a deferred (thenable) outcome eventually settles. */
  datatype Settlement = Fulfilled(value: Value) | Rejected(error: JsError)

  /** What calling an instance method does: return a plain value, throw
      synchronously, or return a thenable that settles later. */
  datatype Outcome =
    | Returned(value: Value)
    | Thrown(error: JsError)
    | Deferred(settlement: Settlement)

  /** A constructed service object: its declared exports and its members,
      abstracted as one call table from method name and arguments to outcome
      (a call on a member the object lacks is a `Thrown` TypeError). */
  datatype Instance = Instance(exports: seq<string>, call: (string, seq<Value>) -> Outcome)

  /** The server: its service list, each service's export list (both may be
      missing), and construction of a service instance (which may fail). */
  datatype Server = Server(
    serviceList: Option<seq<string>>,
    exportList: string -> Option<seq<string>>,
    construct: string -> Option<Instance>)

  /** The value of a connection: live instances, the next id to hand out,
      and every message sent so far, in order. */
  datatype Session = Session(instances: map<InstanceId, Instance>, nextId: nat, outbox: seq<Message>)
  {
    /** Every live instance id was handed out before `nextId`. */
    predicate Valid() {
      forall k :: k in instances ==> k < nextId
    }

    /** The session after sending `m`. */
    function Send(m: Message): Session {
      this.(outbox := outbox + [m])
    }
  }

  /** `connection.addInstance(service)`: construct the instance and register
      it under a fresh id, or fail (no id) leaving the session as it was. */
  function Allocate(server: Server, s: Session, service: string): (r: (Session, Option<InstanceId>))
    ensures r.0.outbox == s.outbox
    ensures r.1.None? <==> server.construct(service).None?
    ensures r.1.None? ==> r.0 == s
    ensures r.1.Some? ==> r.0.instances == s.instances[r.1.value := server.construct(service).value]
    ensures r.1.Some? && s.Valid() ==> r.1.value !in s.instances
    ensures s.Valid() ==> r.0.Valid()
  {
    match server.construct(service)
    case None => (s, None)
    case Some(instance) =>
      (s.(instances := s.instances[s.nextId := instance], nextId := s.nextId + 1), Some(s.nextId))
  }

  /** `connection.removeInstance(id)`: forget `id`, whether or not it is live. */
  function Forget(s: Session, id: InstanceId): (r: Session)
    ensures id !in r.instances
    ensures forall k :: k in s.instances && k != id ==> k in r.instances && r.instances[k] == s.instances[k]
    ensures r.instances.Keys <= s.instances.Keys
    ensures r.nextId == s.nextId && r.outbox == s.outbox
    ensures s.Valid() ==> r.Valid()
  {
    s.(instances := s.instances - {id})
  }

  /** A client connection. Its fields are updated in place by the handlers
      through the methods below; `Snapshot` is its value as a `Session`. */
  class Connection {
    var instances: map<InstanceId, Instance>
    var nextId: nat
    var outbox: seq<Message>

    ghost function Snapshot(): Session
      reads this
    {
      Session(instances, nextId, outbox)
    }

    constructor ()
      ensures Snapshot() == Session(map[], 0, [])
      ensures Snapshot().Valid()
    {
      instances, nextId, outbox := map[], 0, [];
    }

    method AddInstance(server: Server, service: string) returns (id: Option<InstanceId>)
      modifies this
      ensures (Snapshot(), id) == Allocate(server, old(Snapshot()), service)
    {
      match server.construct(service)
      case None =>
        id := None;
      case Some(instance) =>
        instances := instances[nextId := instance];
        id := Some(nextId);
        nextId := nextId + 1;
    }

    method RemoveInstance(id: InstanceId)
      modifies this
      ensures Snapshot() == Forget(old(Snapshot()), id)
    {
      instances := instances - {id};
    }

    method Send(m: Message)
      modifies this
      ensures Snapshot() == old(Snapshot()).Send(m)
    {
      outbox := outbox + [m];
    }

    method SendError(name: string, message: string, correlation: Option<string>)
      modifies this
      ensures Snapshot() == old(Snapshot()).Send(Error(name, message, correlation))
    {
      outbox := outbox + [Error(name, message, correlation)];
    }
  }
}

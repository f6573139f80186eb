/** A connection over time. Requests are dispatched one after another, and a
    thenable returned by an invoked method settles at some later point,
    interleaved with further requests in any order. Every delivered request
    adds exactly one of: a message, a waiting invocation, or a drop; a
    settlement turns one waiting invocation into one message; drops happen
    only when an invoked method returns `undefined` or `null`. Every message
    can be matched to a request, except the uncorrelated `InstanceNotFound`
    error. */
module Sessions {
  import opened Wrappers
  import opened Protocol
  import opened Collaborators
  import opened Handlers

  /** The handler a request was routed to. */
  datatype Op = ListServices | ListExports | NewInstance | Invoke | Release

  /** Either a request arrives, or the `index`-th waiting thenable settles. */
  datatype Event = Deliver(op: Op, req: Request) | Fire(index: nat)

  /** The connection, the invocations waiting on thenables, and the number of
      invocations whose handler threw before sending anything. */
  datatype World = World(session: Session, awaiting: seq<Pending>, unanswered: nat)

  /** Requests accounted for: answered, waiting, or dropped. */
  function Load(w: World): nat {
    |w.session.outbox| + |w.awaiting| + w.unanswered
  }

  function Deliveries(evs: seq<Event>): nat {
    if evs == [] then 0 else (if evs[0].Deliver? then 1 else 0) + Deliveries(evs[1..])
  }

  function RequestIds(evs: seq<Event>): set<string> {
    if evs == [] then {} else (if evs[0].Deliver? then {evs[0].req.id} else {}) + RequestIds(evs[1..])
  }

  function AwaitingIds(ps: seq<Pending>): set<string> {
    set p | p in ps :: p.req.id
  }

  /** A message the client can match to one of `ids`; the one message that
      carries no correlation at all is the `InstanceNotFound` error. */
  predicate Correlated(m: Message, ids: set<string>) {
    match m
    case Response(id, _, _) => id in ids
    case Error(name, _, correlation) =>
      if correlation.Some? then correlation.value in ids else name == InstanceNotFound
  }

  /** Every message sent after the first `n` is correlated to one of `ids`. */
  predicate CorrelatedFrom(outbox: seq<Message>, n: nat, ids: set<string>) {
    forall j :: n <= j < |outbox| ==> Correlated(outbox[j], ids)
  }

  /** The call `instance` makes never returns `undefined` or `null`. */
  ghost predicate NeverBare(instance: Instance) {
    forall name, args :: !IsBare(instance.call(name, args))
  }

  predicate IsBare(o: Outcome) {
    o.Returned? && (o.value.Undefined? || o.value.Null?)
  }

  /** No instance the server constructs returns `undefined` or `null`. */
  ghost predicate ServerNeverBare(server: Server) {
    forall name :: server.construct(name).Some? ==> NeverBare(server.construct(name).value)
  }

  /** No live instance returns `undefined` or `null`. */
  ghost predicate LiveNeverBare(s: Session) {
    forall k :: k in s.instances ==> NeverBare(s.instances[k])
  }

  /** Dispatch one request to the handler it was routed to. Every handler
      but `invoke` sends exactly one message; `invoke` sends one, leaves one
      invocation waiting on a thenable, or drops the request when the method
      returned `undefined` or `null`. Waiting invocations are never lost. */
  function Dispatch(server: Server, w: World, op: Op, req: Request): (r: World)
    ensures Load(r) == Load(w) + 1
    ensures !op.Invoke? ==>
      SentOne(w.session, r.session) && r.awaiting == w.awaiting && r.unanswered == w.unanswered
    ensures op.Invoke? ==>
      var (s, reply) := InvokeStep(w.session, req);
      w.awaiting <= r.awaiting &&
      match reply
      case Answered =>
        SentOne(w.session, r.session) && r.awaiting == w.awaiting && r.unanswered == w.unanswered
      case Awaiting(p) =>
        r.session.outbox == w.session.outbox && r.awaiting == w.awaiting + [p] &&
        p.req == req && r.unanswered == w.unanswered
      case Escaped =>
        r.session.outbox == w.session.outbox && r.awaiting == w.awaiting &&
        r.unanswered == w.unanswered + 1 &&
        IsBare(w.session.instances[req.instance].call(req.methodName, req.args))
    ensures forall k :: k in r.session.instances ==>
      (k in w.session.instances && r.session.instances[k] == w.session.instances[k]) ||
      server.construct(req.service) == Some(r.session.instances[k])
    ensures w.session.outbox <= r.session.outbox
    ensures CorrelatedFrom(r.session.outbox, |w.session.outbox|, {req.id})
    ensures AwaitingIds(r.awaiting) <= AwaitingIds(w.awaiting) + {req.id}
    ensures w.session.Valid() ==> r.session.Valid()
  {
    match op
    case ListServices => w.(session := ServicesStep(server, w.session, req))
    case ListExports => w.(session := ExportsStep(server, w.session, req))
    case NewInstance => w.(session := InstanceStep(server, w.session, req))
    case Release => w.(session := ReleaseStep(w.session, req))
    case Invoke =>
      var (s, reply) := InvokeStep(w.session, req);
      match reply
      case Answered => w.(session := s)
      case Awaiting(p) => w.(session := s, awaiting := w.awaiting + [p])
      case Escaped => w.(session := s, unanswered := w.unanswered + 1)
  }

  /** The `index`-th waiting thenable settles and runs one of its callbacks,
      which is then no longer waiting; an index with nothing waiting is a
      no-op. */
  function FireAt(w: World, index: nat): (r: World)
    ensures Load(r) == Load(w)
    ensures w.session.outbox <= r.session.outbox
    ensures CorrelatedFrom(r.session.outbox, |w.session.outbox|, AwaitingIds(w.awaiting))
    ensures AwaitingIds(r.awaiting) <= AwaitingIds(w.awaiting)
    ensures r.session.instances == w.session.instances && r.session.nextId == w.session.nextId
    ensures r.unanswered == w.unanswered
    ensures index < |w.awaiting| ==>
      r.session.outbox == w.session.outbox + [SettleReply(w.awaiting[index].req, w.awaiting[index].settlement)] &&
      r.awaiting == w.awaiting[..index] + w.awaiting[index + 1..]
    ensures index >= |w.awaiting| ==> r == w
  {
    if index < |w.awaiting| then
      var p := w.awaiting[index];
      assert p in w.awaiting;
      w.(session := w.session.Send(SettleReply(p.req, p.settlement)),
         awaiting := w.awaiting[..index] + w.awaiting[index + 1..])
    else
      w
  }

  function Step(server: Server, w: World, e: Event): World {
    match e
    case Deliver(op, req) => Dispatch(server, w, op, req)
    case Fire(index) => FireAt(w, index)
  }

  function Run(server: Server, w: World, evs: seq<Event>): World
    decreases |evs|
  {
    if evs == [] then w else Run(server, Step(server, w, evs[0]), evs[1..])
  }

  /** No silent drop: when no live or constructible instance ever returns
      `undefined` or `null`, no request of any trace is dropped, so each one
      is answered or still waiting on its thenable. */
  lemma {:induction false} RunDropsNothing(server: Server, w: World, evs: seq<Event>)
    requires ServerNeverBare(server) && LiveNeverBare(w.session)
    ensures Run(server, w, evs).unanswered == w.unanswered
    decreases |evs|
  {
    if evs != [] {
      var w' := Step(server, w, evs[0]);
      if evs[0].Deliver? {
        var req := evs[0].req;
        if evs[0].op.Invoke? && InvokeStep(w.session, req).1.Escaped? {
          assert false;
        }
        forall k | k in w'.session.instances
          ensures NeverBare(w'.session.instances[k])
        {
          if !(k in w.session.instances && w'.session.instances[k] == w.session.instances[k]) {
            assert server.construct(req.service).Some?;
          }
        }
      }
      RunDropsNothing(server, w', evs[1..]);
    }
  }

  /** Accounting: every delivered request adds exactly one unit to the
      load (a message, a waiting thenable, or a drop), and every settlement
      turns one waiting thenable into one message. */
  lemma {:induction false} RunAccountsForEveryRequest(server: Server, w: World, evs: seq<Event>)
    ensures Load(Run(server, w, evs)) == Load(w) + Deliveries(evs)
    decreases |evs|
  {
    if evs != [] {
      RunAccountsForEveryRequest(server, Step(server, w, evs[0]), evs[1..]);
    }
  }

  /** The outbox only grows, and everything added to it answers a request
      delivered in the trace or one that was already waiting. */
  lemma {:induction false} RunCorrelatesEveryMessage(server: Server, w: World, evs: seq<Event>)
    ensures w.session.outbox <= Run(server, w, evs).session.outbox
    ensures CorrelatedFrom(Run(server, w, evs).session.outbox, |w.session.outbox|,
                           AwaitingIds(w.awaiting) + RequestIds(evs))
    decreases |evs|
  {
    if evs != [] {
      var w' := Step(server, w, evs[0]);
      var ids := AwaitingIds(w.awaiting) + RequestIds(evs);
      assert AwaitingIds(w'.awaiting) + RequestIds(evs[1..]) <= ids;
      RunCorrelatesEveryMessage(server, w', evs[1..]);
      var out := Run(server, w, evs).session.outbox;
      forall j | |w.session.outbox| <= j < |out|
        ensures Correlated(out[j], ids)
      {
        if j < |w'.session.outbox| {
          assert out[j] == w'.session.outbox[j];
        }
      }
    }
  }

  /** Instance ids stay fresh: no trace registers an id twice. */
  lemma {:induction false} RunKeepsIdsFresh(server: Server, w: World, evs: seq<Event>)
    requires w.session.Valid()
    ensures Run(server, w, evs).session.Valid()
    decreases |evs|
  {
    if evs != [] {
      RunKeepsIdsFresh(server, Step(server, w, evs[0]), evs[1..]);
    }
  }
}

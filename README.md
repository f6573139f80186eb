# Request handlers of an RPC gateway, in Dafny

This project models `lib/handlers.js`, the request-dispatch core of the
remoting.io gateway. Its five handlers act on a server (the service
registry) and a client connection:

- `services` lists the server's services.
- `exports` lists the methods one service exports.
- `instance` creates a service instance on the connection.
- `invoke` calls an exported method on a live instance. It relays a
  synchronous return or throw, or the later fulfilment or rejection of a
  returned thenable.
- `release` forgets an instance.

Every handler starts from the response shell built by `createResponse`.

The model has five modules:

- `Protocol` holds requests, values, outgoing messages and `CreateResponse`.
- `Collaborators` holds the server, the instances it constructs, and the
  connection. The server and instances are datatypes of functions. The
  connection is a class whose fields the handlers update in place, and its
  value is a `Session` (live instances, the next id, the outbox).
- `Handlers` gives each handler twice. The pure transition (`ServicesStep`,
  `InvokeStep`, ...) carries what the handler promises. The method
  (`HandleServices`, `HandleInvoke`, ...) updates a `Connection` and is
  proved to perform exactly that transition.
- `Sessions` runs a connection over any interleaving of requests and
  thenable settlements. Each delivered request adds exactly one of: a
  message, a waiting invocation, or a drop. Each settlement turns one
  waiting invocation into one message and ends its wait. Over a whole
  trace, messages plus waiting invocations plus drops grow by exactly the
  number of requests. Drops happen only when an invoked method returns
  `undefined` or `null`, so with no such method no request is dropped.
  Every message can be matched to a request, except the uncorrelated
  `InstanceNotFound` error.
- `Properties` relates several handler runs (uniform error mapping, the
  export guard, idempotent release). It also drives a small calculator
  service through a `Connection`.

The request's `type` and `method` fields are reserved words in Dafny, so they
are named `tag` and `methodName`.

Every request is meant to be answered. But in the code, an invoked method
that returns `undefined` or `null` makes the handler throw at
`lib/handlers.js:79`, outside the `try`, so nothing is sent. The model
gives this outcome explicitly as `Reply.Escaped`. The exactly-once accounting
counts it as a drop and not as a message.

## Model

| member | source | states |
|---|---|---|
| Protocol.CreateResponse | lib/handlers.js:10-12 | the shell is a response echoing the request's id and type, with no result |
| Collaborators.Allocate | lib/handlers.js:44-49 | `addInstance` fails exactly when construction fails, and then leaves the session unchanged; on success it registers the constructed instance under an id that was not live, keeps ids fresh and sends nothing |
| Collaborators.Forget | lib/handlers.js:99 | `removeInstance` makes the id absent, keeps every other instance unchanged, adds no instance and sends nothing |
| Collaborators.Connection.AddInstance | lib/handlers.js:45 | updates the connection in place exactly as `Allocate` and returns its id or failure |
| Collaborators.Connection.RemoveInstance | lib/handlers.js:99 | updates the connection in place exactly as `Forget` |
| Collaborators.Connection.Send | lib/handlers.js:22 | appends the message to the outbox and changes nothing else |
| Collaborators.Connection.SendError | lib/handlers.js:47 | appends an error with the given name, message and optional correlation id, and changes nothing else |
| Handlers.ServicesStep | lib/handlers.js:17-23 | exactly one message, a response echoing id and type, whose result is the server's service list or the empty list when there is none; instances untouched, never an error |
| Handlers.ExportsStep | lib/handlers.js:28-34 | exactly one message, a response echoing id and type, whose result is the service's export list or the empty list when there is none; instances untouched, never an error |
| Handlers.InstanceStep | lib/handlers.js:39-54 | exactly one message answering the request; it is an error exactly when construction fails, and then it is `NewInstanceError` / "Could not create instance" with the request id and the instances are unchanged; otherwise the response names a fresh id, now bound to the constructed instance, and the server's export list for the service |
| Handlers.SettleReply | lib/handlers.js:80-85 | a settlement answers the request: a fulfilment is a response echoing id and type with the value as result; a rejection is an error with the rejection's own name and message and the request id |
| Handlers.InvokeStep | lib/handlers.js:59-93 | instances unchanged; an unknown instance gets one `InstanceNotFound` error with no correlation id; a method not in the exports gets one `NoSuchMethod` error with the request id, without calling it; otherwise a plain return and a synchronous throw are sent as the fulfilment and rejection of a thenable would be, a thenable leaves its callbacks waiting and sends nothing yet, and a return of `undefined` or `null` sends nothing |
| Handlers.ReleaseStep | lib/handlers.js:98-101 | the instance is absent afterwards, whether or not it was live, and all other instances are unchanged; exactly one bare response echoing id and type is sent, never an error |
| Handlers.HandleServices | lib/handlers.js:17-23 | updates the connection in place exactly as `ServicesStep` |
| Handlers.HandleExports | lib/handlers.js:28-34 | updates the connection in place exactly as `ExportsStep` |
| Handlers.HandleInstance | lib/handlers.js:39-54 | updates the connection in place exactly as `InstanceStep` |
| Handlers.HandleInvoke | lib/handlers.js:59-93 | updates the connection in place and returns the reply exactly as `InvokeStep` |
| Handlers.Settle | lib/handlers.js:80-85 | running the thenable's callback appends exactly `SettleReply` for the waiting request |
| Handlers.HandleRelease | lib/handlers.js:98-101 | updates the connection in place exactly as `ReleaseStep` |
| Sessions.Dispatch | lib/handlers.js:17-101 | every handler but `invoke` sends exactly one message and leaves waiting invocations and drops alone; `invoke` either sends one message, or sends nothing and adds exactly its own invocation to the waiting ones, or drops the request only when the method returned `undefined` or `null`; earlier waiting invocations are kept, every new message is correlated to the request (or is the uncorrelated `InstanceNotFound`), every live instance was live before or was just constructed, and ids stay fresh |
| Sessions.FireAt | lib/handlers.js:80-85 | settling a waiting invocation sends exactly its `SettleReply` and removes it from the waiting ones, so it cannot answer twice; settling nothing changes nothing |
| Sessions.RunAccountsForEveryRequest | lib/handlers.js:59-93 | over any interleaving of requests and settlements, messages plus waiting invocations plus drops grow by exactly the number of requests delivered |
| Sessions.RunDropsNothing | lib/handlers.js:79-89 | over any interleaving, when no live or constructible instance returns `undefined` or `null`, no request is dropped |
| Sessions.RunCorrelatesEveryMessage | lib/handlers.js:59-93 | over any interleaving, the outbox only grows and each new message answers a delivered or waiting request, except `InstanceNotFound`, the only error without a correlation id |
| Sessions.RunKeepsIdsFresh | lib/handlers.js:45 | over any interleaving, every live instance id stays below the next id, so `instance` never reuses a live id |
| Properties.SyncThrowMatchesAsyncRejection | lib/handlers.js:72-85 | a synchronous throw and a thenable's rejection with the same error produce the same error message, name and message relayed unchanged with the request id |
| Properties.ExportsGuardEveryCall | lib/handlers.js:69-92 | for a method outside the export list, the reply is `NoSuchMethod` and does not depend on what members the object has |
| Properties.ReleaseIsIdempotent | lib/handlers.js:98-100 | releasing twice leaves the same instances as releasing once, and both releases get the same bare response |

## Left out

- Transport and encoding behind `connection.send` and `connection.sendError` are not modelled. Sending is an append to the connection's outbox.
- The routing of a request's `type` to a handler is not in `lib/handlers.js`. A trace event names the handler it was routed to.
- The internals of `serviceList`, `exportList` and service construction are not modelled. They are functions of the server. Instance ids come from a counter on the connection and are natural numbers, not arbitrary object keys. Lookups of inherited object properties such as `"toString"` in `connection.instances` are therefore not modelled.
- The dynamic member lookup `instance[request.method]` and `Function.prototype.apply` are one call table per instance. A missing member shows up as a `Thrown` TypeError outcome.
- Promise scheduling is not modelled. A thenable is a deferred settlement, and a later event runs exactly one of its two callbacks, once. The code relies on this but does not enforce it. A thenable whose `then` itself throws is not modelled.
- A thrown or rejected value that is not an `Error`, whose `name` and `message` are `undefined`, is not modelled. Errors always carry both as strings.
- A falsy list other than a missing one (`0`, `""`, `false`) returned by `serviceList` or `exportList` is not modelled. A list is either present or missing.
- Handlers run as atomic steps. A release racing the lookup inside an in-flight invoke cannot occur on the single-threaded host.
- Logging and process bootstrapping are outside the handlers.

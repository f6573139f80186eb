/** Properties that relate several runs of a handler, and the scenarios of a
    small calculator service driven through a `Connection`. */
module Properties {
  import opened Wrappers
  import opened Protocol
  import opened Collaborators
  import opened Handlers

  /** The session with `instance` registered under `id` in place of whatever
      was there. */
  function WithInstance(s: Session, id: InstanceId, instance: Instance): Session {
    s.(instances := s.instances[id := instance])
  }

  /** A synchronous throw and an asynchronous rejection with the same error
      reach the client as the same message. */
  lemma SyncThrowMatchesAsyncRejection(s: Session, req: Request, sync: Instance, async: Instance, e: JsError)
    requires req.methodName in sync.exports && req.methodName in async.exports
    requires sync.call(req.methodName, req.args) == Thrown(e)
    requires async.call(req.methodName, req.args) == Deferred(Rejected(e))
    ensures var (s1, r1) := InvokeStep(WithInstance(s, req.instance, sync), req);
            var (s2, r2) := InvokeStep(WithInstance(s, req.instance, async), req);
            r1.Answered? && r2.Awaiting? &&
            s1.outbox == s2.Send(SettleReply(r2.pending.req, r2.pending.settlement)).outbox &&
            s1.outbox[|s.outbox|] == Error(e.name, e.message, Some(req.id))
  {
  }

  /** The export list alone decides what is callable: an instance whose
      object does implement a non-exported member answers exactly as one
      whose object does not, with `NoSuchMethod`. */
  lemma ExportsGuardEveryCall(s: Session, req: Request, exports: seq<string>,
                              members: (string, seq<Value>) -> Outcome, others: (string, seq<Value>) -> Outcome)
    requires req.methodName !in exports
    ensures var (s1, r1) := InvokeStep(WithInstance(s, req.instance, Instance(exports, members)), req);
            var (s2, r2) := InvokeStep(WithInstance(s, req.instance, Instance(exports, others)), req);
            r1 == r2 == Answered && s1.outbox == s2.outbox &&
            s1.outbox[|s.outbox|].Error? && s1.outbox[|s.outbox|].name == NoSuchMethod
  {
  }

  /** Releasing twice leaves the same instances as releasing once, and each
      release is acknowledged by the same bare response. */
  lemma ReleaseIsIdempotent(s: Session, req: Request)
    ensures var once := ReleaseStep(s, req);
            var twice := ReleaseStep(once, req);
            twice.instances == once.instances &&
            twice.outbox == once.outbox + [once.outbox[|s.outbox|]]
  {
  }

  /** The calculator's members: `add` and a `subtract` it does not export,
      and a `slow` call whose thenable rejects with a timeout. */
  function CalcCall(name: string, args: seq<Value>): Outcome {
    if |args| == 2 && args[0].Num? && args[1].Num? && name == "add" then
      Returned(Num(args[0].n + args[1].n))
    else if |args| == 2 && args[0].Num? && args[1].Num? && name == "subtract" then
      Returned(Num(args[0].n - args[1].n))
    else if name == "slow" then
      Deferred(Rejected(JsError("Timeout", "slow")))
    else
      Thrown(JsError("TypeError", "not a function"))
  }

  function CalcServer(): Server {
    Server(
      Some(["Calc"]),
      name => if name == "Calc" then Some(["add", "slow"]) else None,
      name => if name == "Calc" then Some(Instance(["add", "slow"], CalcCall)) else None)
  }

  method CalcScenario() {
    var server := CalcServer();
    var c := new Connection();
    HandleServices(server, c, Request("s", "services", "", 0, "", []));
    HandleExports(server, c, Request("e", "exports", "Abacus", 0, "", []));
    assert c.outbox == [Response("s", "services", Some(Names(["Calc"]))), Response("e", "exports", Some(Names([])))];
    c := new Connection();
    HandleInstance(server, c, Request("1", "instance", "Calc", 0, "", []));
    assert c.outbox == [Response("1", "instance", Some(Created(0, Some(["add", "slow"]))))];

    var reply := HandleInvoke(server, c, Request("2", "invoke", "", 0, "add", [Num(2), Num(3)]));
    assert c.outbox[1] == Response("2", "invoke", Some(Result(Num(5))));

    reply := HandleInvoke(server, c, Request("3", "invoke", "", 0, "subtract", [Num(5), Num(2)]));
    assert c.outbox[2] == Error(NoSuchMethod, "Method is not exported by the service", Some("3"));

    var slow := HandleInvoke(server, c, Request("4", "invoke", "", 0, "slow", []));
    assert |c.outbox| == 3 && slow.Awaiting?;
    reply := HandleInvoke(server, c, Request("5", "invoke", "", 0, "add", [Num(1), Num(1)]));
    Settle(c, slow.pending);
    assert c.outbox[3] == Response("5", "invoke", Some(Result(Num(2))));
    assert c.outbox[4] == Error("Timeout", "slow", Some("4"));

    HandleRelease(server, c, Request("6", "release", "", 0, "", []));
    HandleRelease(server, c, Request("7", "release", "", 0, "", []));
    assert c.outbox[5] == Response("6", "release", None) && c.outbox[6] == Response("7", "release", None);
    reply := HandleInvoke(server, c, Request("8", "invoke", "", 0, "add", [Num(2), Num(3)]));
    assert c.outbox[7] == Error(InstanceNotFound, "Requested instance could not be found", None);

    HandleInstance(server, c, Request("9", "instance", "Abacus", 0, "", []));
    assert c.outbox[8] == Error(NewInstanceError, "Could not create instance", Some("9"));
  }
}

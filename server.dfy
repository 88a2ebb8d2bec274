/**
  The HTTP entry point of main.go, reduced to `actionHandler`: it decodes an action-run
  message, routes it by the action's trigger to Apply or Destroy, and reports the run's
  status to Port.
 */
module Server {
  import opened Wrappers
  import opened Port
  import opened Errors
  import opened Host
  import opened Terraform

  /** Where a trigger sends the action. */
  datatype Route = ToApply | ToDestroy | Unknown

  /** "CREATE" and "DAY-2" apply the configuration, "DELETE" destroys it. */
  function RouteOf(trigger: string): Route {
    if trigger == "CREATE" || trigger == "DAY-2" then ToApply
    else if trigger == "DELETE" then ToDestroy
    else Unknown
  }

  /** What handling one request amounts to: the error returned, the trace and the reports sent. */
  datatype Outcome = Outcome(err: Option<Error>, events: seq<Event>, reports: seq<Report>)

  /**
    actionHandler as a function of the world before it. `request` is None when the
    body does not decode; `unavailable` says whether Port's API rejects the report.
   */
  ghost function Handle(env: Env, request: Option<ActionBody>, templateFolder: string, ch: Choices,
                        unavailable: bool): Outcome
    requires IsUuid(ch.uuid)
  {
    match request
    case None => Outcome(Some(BindFailed), [], [])
    case Some(body) =>
      var route := RouteOf(body.payload.action.trigger);
      if route == Unknown then Outcome(Some(UnknownAction(body.payload.action.identifier)), [], [])
      else
        var r := if route == ToApply then ApplyRun(env, body, templateFolder, ch) else DestroyRun(env, body, ch);
        var status := if r.err.None? then Success else Failure;
        var err := if r.err.Some? then r.err else if unavailable then Some(PatchFailed) else None;
        Outcome(err, r.events, [Report(body.context.runId, status)])
  }

  /**
    actionHandler: the operation's own error wins over a failed status report; the
    report of a failed run is sent and its own failure ignored.
   */
  method ActionHandler(m: Machine, port: Client, request: Option<ActionBody>, templateFolder: string,
                       ch: Choices) returns (err: Option<Error>)
    requires IsUuid(ch.uuid) && ch.workDir !in m.fs
    modifies m, port
    ensures var o := Handle(old(m.Snapshot()), request, templateFolder, ch, port.unavailable);
      && err == o.err
      && m.trace == old(m.trace) + o.events
      && port.reports == old(port.reports) + o.reports
    ensures m.fs == old(m.fs)
  {
    if request.None? {
      return Some(BindFailed);
    }
    var body := request.value;
    ghost var env := m.Snapshot();
    ghost var r: Run;
    match RouteOf(body.payload.action.trigger) {
      case ToApply =>
        err := Apply(m, body, templateFolder, ch);
        r := ApplyRun(env, body, templateFolder, ch);
      case ToDestroy =>
        err := Destroy(m, body, ch);
        r := DestroyRun(env, body, ch);
      case Unknown =>
        return Some(UnknownAction(body.payload.action.identifier));
    }
    assert err == r.err && m.trace == old(m.trace) + r.events;
    if err.Some? {
      var _ := port.PatchActionRun(body.context.runId, Failure);
      return err;
    }
    var ok := port.PatchActionRun(body.context.runId, Success);
    if !ok {
      return Some(PatchFailed);
    }
    return None;
  }

  // ---------------------------------------------------------------------------------
  // Properties of the handler
  // ---------------------------------------------------------------------------------

  /**
    A request that does not decode, or whose trigger is none of the three, is answered
    with an error before anything is run or reported. Every other request runs Apply
    ("CREATE", "DAY-2") or Destroy ("DELETE"), has exactly that operation's trace, and
    reports the run exactly once, Failure iff the operation failed. The operation's own
    error is returned whatever becomes of the report; only after a successful operation
    does a rejected report make the handler fail.
   */
  lemma ReportsOnce(env: Env, request: Option<ActionBody>, templateFolder: string, ch: Choices,
                    unavailable: bool)
    requires IsUuid(ch.uuid)
    ensures var o := Handle(env, request, templateFolder, ch, unavailable);
      && (request.None? ==> o == Outcome(Some(BindFailed), [], []))
      && (request.Some? && RouteOf(request.value.payload.action.trigger) == Unknown ==>
            o == Outcome(Some(UnknownAction(request.value.payload.action.identifier)), [], []))
      && (request.Some? && RouteOf(request.value.payload.action.trigger) != Unknown ==>
            var body := request.value;
            var op := if RouteOf(body.payload.action.trigger) == ToApply
                      then ApplyRun(env, body, templateFolder, ch) else DestroyRun(env, body, ch);
            && (RouteOf(body.payload.action.trigger) == ToApply <==>
                  body.payload.action.trigger in {"CREATE", "DAY-2"})
            && (RouteOf(body.payload.action.trigger) == ToDestroy <==> body.payload.action.trigger == "DELETE")
            && o.events == op.events
            && (op.err.Some? ==> o.err == op.err)
            && (op.err.None? ==> o.err == (if unavailable then Some(PatchFailed) else None))
            && |o.reports| == 1
            && o.reports[0].runId == body.context.runId
            && (o.reports[0].status == Failure <==> op.err.Some?))
  {
  }

  /**
    The handler answers without error iff the request decodes, its trigger is known,
    the operation succeeds and Port accepts the Success report.
   */
  lemma HandlerSucceeds(env: Env, request: Option<ActionBody>, templateFolder: string, ch: Choices,
                        unavailable: bool)
    requires IsUuid(ch.uuid)
    ensures var o := Handle(env, request, templateFolder, ch, unavailable);
      o.err.None? <==>
        && request.Some?
        && !unavailable
        && match RouteOf(request.value.payload.action.trigger)
           case ToApply => ApplyRun(env, request.value, templateFolder, ch).err.None?
           case ToDestroy => DestroyRun(env, request.value, ch).err.None?
           case Unknown => false
  {
  }

  /** A "DAY-2" action is handled exactly like a "CREATE" action with the same message. */
  lemma Day2IsCreate(env: Env, body: ActionBody, templateFolder: string, ch: Choices, unavailable: bool)
    requires IsUuid(ch.uuid)
    requires body.payload.action.trigger == "DAY-2"
    ensures var create := body.(payload := body.payload.(action := body.payload.action.(trigger := "CREATE")));
      Handle(env, Some(body), templateFolder, ch, unavailable)
      == Handle(env, Some(create), templateFolder, ch, unavailable)
  {
  }
}

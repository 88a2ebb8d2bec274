/**
  The data Port sends with an action run (port/action.go), reduced to the fields the
  connector reads, and the part of Port's API client the connector calls.
 */
module Port {

  /** A JSON value as Go's encoding/json decodes it into `any`. */
  datatype Value =
    | Null
    | Bool(b: bool)
    | Number(n: real)
    | Str(s: string)
    | Array(items: seq<Value>)
    | Object(fields: map<string, Value>)

  /** A free-form property bag (`map[string]any`). */
  type Properties = map<string, Value>

  // Modelling choice: port/action.go declares `Entity` as a struct holding only an `ID`
  // (lines 21, 26 and 35-37), but terraform/terraform.go compares `Context.Entity` with ""
  // (lines 58 and 161) and reads `Payload.Entity.Properties` (line 98). The model follows
  // terraform.go: the context's entity is a string reference, empty when the entity does not
  // exist yet, and the payload's entity carries the entity's current properties.

  /** `Context`: which entity, which blueprint and which run the action is about. */
  datatype Context = Context(entity: string, blueprint: string, runId: string)

  /** `Payload.Entity`: the entity's current state. */
  datatype PayloadEntity = PayloadEntity(properties: Properties)

  /** `Payload.Action`: the action definition; `trigger` is "CREATE", "DAY-2" or "DELETE". */
  datatype Action = Action(identifier: string, trigger: string)

  /** `Payload`: the entity, the action and the user's inputs to this run. */
  datatype Payload = Payload(entity: PayloadEntity, action: Action, properties: Properties)

  /** `ActionBody`: one action-run message. */
  datatype ActionBody = ActionBody(context: Context, payload: Payload)

  /** `ActionStatusSuccess` / `ActionStatusFailure`. */
  datatype ActionStatus = Success | Failure

  /** One status report sent to Port for a run. */
  datatype Report = Report(runId: string, status: ActionStatus)

  /**
    Port's API client. Only `PatchActionRun` is used by the core; the HTTP call is
    replaced by a record of the reports sent, and `unavailable` says whether the API
    answers with an error.
   */
  class Client {
    var reports: seq<Report>
    const unavailable: bool

    constructor (unavailable: bool)
      ensures reports == [] && this.unavailable == unavailable
    {
      reports := [];
      this.unavailable := unavailable;
    }

    /** Reports the status of run `runId`; `ok` is false when the API call fails. */
    method PatchActionRun(runId: string, status: ActionStatus) returns (ok: bool)
      modifies this
      ensures reports == old(reports) + [Report(runId, status)]
      ensures ok == !unavailable
    {
      reports := reports + [Report(runId, status)];
      ok := !unavailable;
    }
  }
}

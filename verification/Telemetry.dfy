/** The records the Claude Code collector sends: spans, audit events and the
    end of an execution, wrapped as delivery operations. */
module Telemetry {
  import opened Wrappers

  /** An identifier drawn while preparing a hook. `seed` names the preparation,
      `draw` the position of the draw inside it; `NoSpan` is the empty string. */
  datatype SpanId = NoSpan | SpanId(seed: nat, draw: nat)

  /** The server derives an execution's id from the idempotency key alone. */
  datatype ExecId = NoExec | Exec(key: string)

  datatype Status = Running | Completed | Failed | Cancelled

  datatype Kind = ToolCall | ModelInvocation | HumanApproval | Custom

  datatype Span = Span(
    id: SpanId, exec: ExecId, kind: Kind, name: string, status: Status,
    startedAt: int, endedAt: Option<int>, parent: SpanId, toolUseId: string)

  datatype Action =
    | SessionStarted
    | PromptSubmitted
    | ToolUsed(tool: string, failed: bool)
    | PermissionAsked(tool: string, denied: bool)
    | Notified
    | SubagentStopped
    | TurnCompleted
    | SessionEnded

  datatype Op =
    | Spans(exec: ExecId, spans: seq<Span>)
    | Audit(id: SpanId, action: Action, exec: ExecId, time: int)
    | EndExecution(exec: ExecId, time: int)

  /** All spans an operation list carries, in order. */
  function SpansOf(ops: seq<Op>): seq<Span> {
    if ops == [] then []
    else (if ops[0].Spans? then ops[0].spans else []) + SpansOf(ops[1..])
  }

  lemma SpansOfConcat(a: seq<Op>, b: seq<Op>)
    ensures SpansOf(a + b) == SpansOf(a) + SpansOf(b)
  {
    if a == [] {
      assert a + b == b;
    } else {
      assert (a + b)[1..] == a[1..] + b;
      SpansOfConcat(a[1..], b);
    }
  }
}

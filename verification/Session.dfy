/** What each hook does to a session's persisted state and which operations it
    queues. These functions are the specification of the handler methods in
    `HookTransaction`; the lifecycle results are proved about them. */
module Session {
  import opened Wrappers
  import opened Telemetry
  import Batching
  import SortedKeys

  datatype Event =
    | SessionStart
    | Prompt
    | PreTool(tool: string, useId: string)
    | PostTool(tool: string, useId: string, failed: bool, usage: bool)
    | Permission(tool: string, denied: bool)
    | Notify
    | SubagentStop(agent: string)
    | Stop
    | SessionEnd

  datatype Hook = Hook(id: string, session: string, event: Event, time: int)

  /** What the outside world supplies to one preparation of a hook: fresh
      identifiers, the request limit in force, the encoded size of a span, and
      whether the captured turn reported token usage. */
  datatype Draw = Draw(seed: nat, limit: nat, bytes: Span -> nat, tokens: bool)

  datatype SpanStart = SpanStart(id: SpanId, name: string, startedAt: int, parent: SpanId, toolUseId: string)

  datatype State = State(
    key: string,
    exec: ExecId,
    turn: SpanId,
    pending: map<string, SpanStart>,
    completed: set<string>,
    closed: bool)

  const EMPTY := State("", NoExec, NoSpan, map[], {}, false)
  const NO_START := SpanStart(NoSpan, "", 0, NoSpan, "")
  const TURN_KEY := "__turn__"

  datatype Result = Result(state: State, ops: seq<Op>)

  /** The request limit: a configured value below 4 MiB, and 4 MiB otherwise. */
  function RequestLimit(configured: int): nat {
    if 0 < configured < 0x40_0000 then configured else 0x40_0000
  }

  // ---- Executions ----

  function StartKey(st: State, hookId: string): string {
    if st.closed || st.key == "" then "cc-" + hookId else st.key
  }

  function EnsureExecution(st: State, hookId: string): State {
    var s := if st.closed then EMPTY else st;
    if s.exec != NoExec then s
    else s.(key := StartKey(st, hookId), exec := Exec(StartKey(st, hookId)))
  }

  /** The handler asks the server to start an execution. */
  predicate Starts(st: State, h: Hook) {
    (st.closed || st.exec == NoExec) &&
    match h.event
    case SessionStart | Prompt | Permission(_, _) | SubagentStop(_) | Stop => true
    case PreTool(tool, useId) => !SkipsPreTool(st, tool, useId)
    case PostTool(tool, useId, _, _) => !AlreadyCompleted(st, tool, useId)
    case Notify | SessionEnd => false
  }

  // ---- Operations ----

  function Requests(exec: ExecId, batches: seq<seq<Span>>): seq<Op> {
    if batches == [] then [] else [Spans(exec, batches[0])] + Requests(exec, batches[1..])
  }

  function Ingest(exec: ExecId, spans: seq<Span>, d: Draw): seq<Op> {
    Requests(exec, Batching.Split(spans, d.limit, d.bytes))
  }

  lemma {:induction false} RequestsSpans(exec: ExecId, batches: seq<seq<Span>>)
    ensures SpansOf(Requests(exec, batches)) == Batching.Concat(batches)
  {
    if batches != [] {
      RequestsSpans(exec, batches[1..]);
      var r := Requests(exec, batches);
      assert r[0] == Spans(exec, batches[0]) && r[1..] == Requests(exec, batches[1..]);
    }
  }

  lemma IngestSpans(exec: ExecId, spans: seq<Span>, d: Draw)
    ensures SpansOf(Ingest(exec, spans, d)) == spans
  {
    RequestsSpans(exec, Batching.Split(spans, d.limit, d.bytes));
    Batching.SplitSound(spans, d.limit, d.bytes);
  }

  function Instant(id: SpanId, exec: ExecId, kind: Kind, name: string, time: int, parent: SpanId): Span {
    Span(id, exec, kind, name, Completed, time, Some(time), parent, "")
  }

  // ---- Tools ----

  function PendingKey(tool: string, useId: string): string {
    if useId != "" then useId else tool
  }

  predicate AlreadyCompleted(st: State, tool: string, useId: string) {
    useId != "" && PendingKey(tool, useId) in st.completed
  }

  predicate SkipsPreTool(st: State, tool: string, useId: string) {
    AlreadyCompleted(st, tool, useId) || PendingKey(tool, useId) in st.pending
  }

  function PreToolState(st: State, h: Hook, d: Draw): State
    requires h.event.PreTool?
  {
    var key := PendingKey(h.event.tool, h.event.useId);
    var added := st.(pending := st.pending[key :=
      SpanStart(SpanId(d.seed, 0), h.event.tool, h.time, st.turn, "")]);
    var s := EnsureExecution(added, h.id);
    var start := if key in s.pending then s.pending[key] else NO_START;
    s.(pending := s.pending[key := start.(toolUseId := h.event.useId)])
  }

  function PreToolSpan(s: State, h: Hook): Span
    requires h.event.PreTool? && PendingKey(h.event.tool, h.event.useId) in s.pending
  {
    var start := s.pending[PendingKey(h.event.tool, h.event.useId)];
    Span(start.id, s.exec, ToolCall, start.name, Running, start.startedAt, None, s.turn, h.event.useId)
  }

  function PostToolStart(st: State, h: Hook, d: Draw): SpanStart
    requires h.event.PostTool?
  {
    var key := PendingKey(h.event.tool, h.event.useId);
    if key in st.pending then st.pending[key]
    else SpanStart(SpanId(d.seed, 0), h.event.tool, h.time, st.turn, "")
  }

  function PostToolState(st: State, h: Hook): State
    requires h.event.PostTool?
  {
    var key := PendingKey(h.event.tool, h.event.useId);
    EnsureExecution(
      st.(pending := st.pending - {key},
          completed := if h.event.useId != "" then st.completed + {key} else st.completed),
      h.id)
  }

  function ToolBatch(start: SpanStart, exec: ExecId, h: Hook, d: Draw): seq<Span>
    requires h.event.PostTool?
  {
    [Span(start.id, exec, ToolCall, start.name, if h.event.failed then Failed else Completed,
          start.startedAt, Some(h.time), start.parent, h.event.useId)] +
    if h.event.usage
    then [Instant(SpanId(d.seed, 1), exec, ModelInvocation, "model_invocation", h.time, start.parent)]
    else []
  }

  function PostToolSpans(st: State, h: Hook, d: Draw): seq<Span>
    requires h.event.PostTool?
  {
    ToolBatch(PostToolStart(st, h, d), PostToolState(st, h).exec, h, d)
  }

  function PostToolAction(st: State, h: Hook, d: Draw): Action
    requires h.event.PostTool?
  {
    ToolUsed(if h.event.tool == "" then PostToolStart(st, h, d).name else h.event.tool, h.event.failed)
  }

  // ---- Turns ----

  function PromptState(st: State, h: Hook, d: Draw): State {
    var s := EnsureExecution(st, h.id);
    s.(turn := SpanId(d.seed, 0),
       pending := s.pending[TURN_KEY := SpanStart(SpanId(d.seed, 0), "turn", h.time, NoSpan, "")])
  }

  function TurnRunning(exec: ExecId, h: Hook, d: Draw): Span {
    Span(SpanId(d.seed, 0), exec, Custom, "turn", Running, h.time, None, NoSpan, "")
  }

  function TurnEnded(s: State, h: Hook): seq<Span> {
    if TURN_KEY in s.pending then
      var t := s.pending[TURN_KEY];
      [Span(t.id, s.exec, Custom, "turn", Completed, t.startedAt, Some(h.time), NoSpan, t.toolUseId)]
    else []
  }

  function TurnUsage(s: State, h: Hook, d: Draw): seq<Span> {
    if d.tokens then
      [Instant(SpanId(d.seed, 0), s.exec, ModelInvocation, "model_invocation", h.time,
               if TURN_KEY in s.pending then s.pending[TURN_KEY].id else NoSpan)]
    else []
  }

  // ---- Session end ----

  function Cancel(key: string, p: SpanStart, exec: ExecId, time: int): Span {
    Span(p.id, exec, if key == TURN_KEY then Custom else ToolCall, p.name, Cancelled,
         p.startedAt, Some(time), p.parent, p.toolUseId)
  }

  function CancelAll(keys: seq<string>, pending: map<string, SpanStart>, exec: ExecId, time: int): seq<Span>
    requires forall k :: k in keys ==> k in pending
  {
    if keys == [] then []
    else CancelAll(keys[..|keys| - 1], pending, exec, time) +
         [Cancel(keys[|keys| - 1], pending[keys[|keys| - 1]], exec, time)]
  }

  ghost function CancelledSpans(st: State, h: Hook): seq<Span> {
    if st.exec == NoExec then []
    else CancelAll(SortedKeys.Sorted(st.pending.Keys), st.pending, st.exec, h.time)
  }

  // ---- One hook ----

  ghost function Handle(st: State, h: Hook, d: Draw): Result {
    var s := EnsureExecution(st, h.id);
    match h.event
    case SessionStart =>
      Result(s, [Audit(SpanId(d.seed, 2), SessionStarted, s.exec, h.time)])
    case Prompt =>
      Result(PromptState(st, h, d),
             Ingest(s.exec, [TurnRunning(s.exec, h, d)], d) +
             [Audit(SpanId(d.seed, 2), PromptSubmitted, s.exec, h.time)])
    case PreTool(tool, useId) =>
      if SkipsPreTool(st, tool, useId) then Result(st, [])
      else
        var s := PreToolState(st, h, d);
        Result(s, Ingest(s.exec, [PreToolSpan(s, h)], d))
    case PostTool(tool, useId, failed, usage) =>
      if AlreadyCompleted(st, tool, useId) then Result(st, [])
      else
        var s := PostToolState(st, h);
        Result(s, Ingest(s.exec, PostToolSpans(st, h, d), d) +
                  [Audit(SpanId(d.seed, 2), PostToolAction(st, h, d), s.exec, h.time)])
    case Permission(tool, denied) =>
      Result(s, Ingest(s.exec, [Instant(SpanId(d.seed, 0), s.exec, HumanApproval, "permission:" + tool, h.time, s.turn)], d) +
                [Audit(SpanId(d.seed, 2), PermissionAsked(tool, denied), s.exec, h.time)])
    case Notify =>
      Result(st, [Audit(SpanId(d.seed, 2), Notified, st.exec, h.time)])
    case SubagentStop(agent) =>
      Result(s, Ingest(s.exec, [Instant(SpanId(d.seed, 0), s.exec, Custom, "subagent:" + agent, h.time, s.turn)], d) +
                [Audit(SpanId(d.seed, 2), SubagentStopped, s.exec, h.time)])
    case Stop =>
      Result(s.(turn := NoSpan, pending := s.pending - {TURN_KEY}),
             Ingest(s.exec, TurnEnded(s, h), d) +
             [Audit(SpanId(d.seed, 2), TurnCompleted, s.exec, h.time)] +
             Ingest(s.exec, TurnUsage(s, h, d), d))
    case SessionEnd =>
      Result(st.(closed := true),
             Ingest(st.exec, CancelledSpans(st, h), d) +
             (if st.exec != NoExec then [EndExecution(st.exec, h.time)] else []) +
             [Audit(SpanId(d.seed, 2), SessionEnded, st.exec, h.time)])
  }

  /** The spans one hook emits, in order. */
  ghost function Emitted(st: State, h: Hook, d: Draw): seq<Span> {
    var s := EnsureExecution(st, h.id);
    match h.event
    case SessionStart | Notify => []
    case Prompt => [TurnRunning(s.exec, h, d)]
    case PreTool(tool, useId) =>
      if SkipsPreTool(st, tool, useId) then [] else [PreToolSpan(PreToolState(st, h, d), h)]
    case PostTool(tool, useId, _, _) =>
      if AlreadyCompleted(st, tool, useId) then [] else PostToolSpans(st, h, d)
    case Permission(tool, _) =>
      [Instant(SpanId(d.seed, 0), s.exec, HumanApproval, "permission:" + tool, h.time, s.turn)]
    case SubagentStop(agent) =>
      [Instant(SpanId(d.seed, 0), s.exec, Custom, "subagent:" + agent, h.time, s.turn)]
    case Stop => TurnEnded(s, h) + TurnUsage(s, h, d)
    case SessionEnd => CancelledSpans(st, h)
  }

  /** Splitting spans into requests and adding audit operations between them
      neither loses nor reorders a span. */
  lemma HandleEmits(st: State, h: Hook, d: Draw)
    ensures SpansOf(Handle(st, h, d).ops) == Emitted(st, h, d)
  {
    var s := EnsureExecution(st, h.id);
    match h.event
    case SessionStart =>
    case Notify =>
    case PreTool(tool, useId) =>
      if !SkipsPreTool(st, tool, useId) {
        IngestSpans(PreToolState(st, h, d).exec, Emitted(st, h, d), d);
      }
    case PostTool(_, _, _, _) => PostToolEmits(st, h, d);
    case Prompt =>
      WithTail(s.exec, [TurnRunning(s.exec, h, d)], d, [Audit(SpanId(d.seed, 2), PromptSubmitted, s.exec, h.time)]);
    case Permission(tool, denied) =>
      WithTail(s.exec, Emitted(st, h, d), d, [Audit(SpanId(d.seed, 2), PermissionAsked(tool, denied), s.exec, h.time)]);
    case SubagentStop(agent) =>
      WithTail(s.exec, Emitted(st, h, d), d, [Audit(SpanId(d.seed, 2), SubagentStopped, s.exec, h.time)]);
    case Stop => StopEmits(st, h, d);
    case SessionEnd => SessionEndEmits(st, h, d);
  }

  lemma PostToolEmits(st: State, h: Hook, d: Draw)
    requires h.event.PostTool?
    ensures SpansOf(Handle(st, h, d).ops) == Emitted(st, h, d)
  {
    if !AlreadyCompleted(st, h.event.tool, h.event.useId) {
      var e := PostToolState(st, h).exec;
      WithTail(e, PostToolSpans(st, h, d), d, [Audit(SpanId(d.seed, 2), PostToolAction(st, h, d), e, h.time)]);
    }
  }

  lemma StopEmits(st: State, h: Hook, d: Draw)
    requires h.event.Stop?
    ensures SpansOf(Handle(st, h, d).ops) == Emitted(st, h, d)
  {
    var s := EnsureExecution(st, h.id);
    var audit := [Audit(SpanId(d.seed, 2), TurnCompleted, s.exec, h.time)];
    WithTail(s.exec, TurnEnded(s, h), d, audit);
    SpansOfConcat(Ingest(s.exec, TurnEnded(s, h), d) + audit, Ingest(s.exec, TurnUsage(s, h, d), d));
    IngestSpans(s.exec, TurnUsage(s, h, d), d);
  }

  lemma SessionEndEmits(st: State, h: Hook, d: Draw)
    requires h.event.SessionEnd?
    ensures SpansOf(Handle(st, h, d).ops) == Emitted(st, h, d)
  {
    var end := if st.exec != NoExec then [EndExecution(st.exec, h.time)] else [];
    var audit := [Audit(SpanId(d.seed, 2), SessionEnded, st.exec, h.time)];
    WithTail(st.exec, CancelledSpans(st, h), d, end);
    SpansOfConcat(Ingest(st.exec, CancelledSpans(st, h), d) + end, audit);
  }

  lemma WithTail(exec: ExecId, spans: seq<Span>, d: Draw, tail: seq<Op>)
    requires |tail| <= 1 && forall o :: o in tail ==> !o.Spans?
    ensures SpansOf(Ingest(exec, spans, d) + tail) == spans
  {
    SpansOfConcat(Ingest(exec, spans, d), tail);
    IngestSpans(exec, spans, d);
  }

  // ---- A closed state file that outlived its session end ----

  /** Hooks that discard a closed state before they look at anything else. */
  predicate ResetsFirst(e: Event) {
    e.SessionStart? || e.Prompt? || e.Permission? || e.SubagentStop? || e.Stop?
  }

  lemma ResetsIgnoreClosed(st: State, h: Hook, d: Draw)
    requires ResetsFirst(h.event) && st.closed
    ensures Handle(st, h, d) == Handle(EMPTY, h, d)
  {
  }
}

/** What the records of a run say: executions end once, after all their spans; each span
    and each audit event says what its hook reported. */
module SessionRecords {
  import opened Wrappers
  import opened Telemetry
  import opened Session
  import opened Lifecycle
  import Batching
  import SortedKeys
  import T = ToolUse

  /** The state a hook of a run meets. */
  ghost function Met(run: seq<Prepared>, i: nat): State
    requires i <= |run|
  {
    Load(Replay(run[..i]).state)
  }

  /** The operations a hook of a run adds. */
  ghost function Queued(run: seq<Prepared>, i: nat): seq<Op>
    requires i < |run|
  {
    var before, after := Replay(run[..i]).ops, Replay(run[..i + 1]).ops;
    if |before| <= |after| then after[|before|..] else []
  }

  lemma QueuedIs(run: seq<Prepared>, i: nat)
    requires i < |run|
    ensures Queued(run, i) == Handle(Met(run, i), run[i].hook, run[i].draw).ops
    ensures Replay(run[..i + 1]).ops == Replay(run[..i]).ops + Queued(run, i)
  {
    hide Handle;
    assert run[..i + 1][..i] == run[..i] && run[..i + 1][i] == run[i];
  }

  // ---- Executions end once ----

  /** The execution a hook reports to: the open one, or the one it starts. */
  function Reports(st: State, h: Hook): ExecId {
    if st.exec != NoExec || h.event.SessionEnd? || h.event.Notify? then st.exec else Exec("cc-" + h.id)
  }

  ghost predicate OnlyFor(ops: seq<Op>, x: ExecId) {
    forall o :: o in ops ==> o.Spans? && o.exec == x
  }

  lemma {:induction false} RequestsFor(exec: ExecId, batches: seq<seq<Span>>)
    ensures OnlyFor(Requests(exec, batches), exec)
    decreases batches
  {
    if batches != [] {
      RequestsFor(exec, batches[1..]);
    }
  }

  lemma IngestFor(exec: ExecId, spans: seq<Span>, d: Draw)
    ensures OnlyFor(Ingest(exec, spans, d), exec)
  {
    RequestsFor(exec, Batching.Split(spans, d.limit, d.bytes));
  }

  lemma NoRequests(exec: ExecId, d: Draw)
    ensures Ingest(exec, [], d) == []
  {
  }

  /** A hook's operations: spans of one execution, audit events, and the end of it only
      for a session end that finds one open, with nothing but audit events after. */
  ghost predicate HookOps(st: State, h: Hook, ops: seq<Op>) {
    && (forall o :: o in ops && !o.Audit? ==> o.exec == Reports(st, h) != NoExec)
    && (forall p :: 0 <= p < |ops| && ops[p].EndExecution? ==>
          h.event.SessionEnd? && ops[p].time == h.time && forall q :: p < q < |ops| ==> ops[q].Audit?)
    && (h.event.SessionEnd? && st.exec != NoExec ==> EndExecution(st.exec, h.time) in ops)
  }

  lemma SpansThenAudits(st: State, h: Hook, spans: seq<Op>, audits: seq<Op>)
    requires !h.event.SessionEnd? && OnlyFor(spans, Reports(st, h)) && (Reports(st, h) != NoExec || spans == [])
    requires forall o :: o in audits ==> o.Audit?
    ensures HookOps(st, h, spans + audits)
  {
    var all := spans + audits;
    forall o | o in all ensures !o.EndExecution? && (!o.Audit? ==> o.exec == Reports(st, h) != NoExec) {
      assert o in spans || o in audits;
    }
    assert forall p :: 0 <= p < |all| ==> all[p] in all;
  }

  lemma HandleOps(st: State, h: Hook, d: Draw)
    requires !st.closed && (st.exec == NoExec ==> st == EMPTY)
    ensures HookOps(st, h, Handle(st, h, d).ops)
  {
    hide HookOps, Handle;
    match h.event
    case SessionStart => AuditOps(st, h, d);
    case Notify => AuditOps(st, h, d);
    case PreTool(_, _) => ToolOps(st, h, d);
    case PostTool(_, _, _, _) => ToolOps(st, h, d);
    case Stop => StopOps(st, h, d);
    case SessionEnd => SessionEndOps(st, h, d);
    case Prompt => SpanOps(st, h, d);
    case Permission(_, _) => SpanOps(st, h, d);
    case SubagentStop(_) => SpanOps(st, h, d);
  }

  lemma AuditOps(st: State, h: Hook, d: Draw)
    requires h.event.SessionStart? || h.event.Notify?
    ensures HookOps(st, h, Handle(st, h, d).ops)
  {
  }

  lemma SpanOps(st: State, h: Hook, d: Draw)
    requires !st.closed && (st.exec == NoExec ==> st == EMPTY)
    requires h.event.Prompt? || h.event.Permission? || h.event.SubagentStop?
    ensures HookOps(st, h, Handle(st, h, d).ops)
  {
    hide Ingest;
    var x, ops := EnsureExecution(st, h.id).exec, Handle(st, h, d).ops;
    IngestFor(x, Emitted(st, h, d), d);
    SpansThenAudits(st, h, Ingest(x, Emitted(st, h, d), d), [ops[|ops| - 1]]);
  }

  lemma ToolOps(st: State, h: Hook, d: Draw)
    requires !st.closed && (st.exec == NoExec ==> st == EMPTY)
    requires h.event.PreTool? || h.event.PostTool?
    ensures HookOps(st, h, Handle(st, h, d).ops)
  {
    hide Ingest, ToolBatch;
    var ops := Handle(st, h, d).ops;
    if ops != [] {
      if h.event.PreTool? {
        var after := PreToolState(st, h, d);
        IngestFor(after.exec, [PreToolSpan(after, h)], d);
        SpansThenAudits(st, h, ops, []);
        assert ops + [] == ops;
      } else {
        var x := PostToolState(st, h).exec;
        IngestFor(x, PostToolSpans(st, h, d), d);
        SpansThenAudits(st, h, Ingest(x, PostToolSpans(st, h, d), d), [ops[|ops| - 1]]);
      }
    }
  }

  lemma StopOps(st: State, h: Hook, d: Draw)
    requires !st.closed && (st.exec == NoExec ==> st == EMPTY) && h.event.Stop?
    ensures HookOps(st, h, Handle(st, h, d).ops)
  {
    hide Ingest;
    var s := EnsureExecution(st, h.id);
    var a, b := Ingest(s.exec, TurnEnded(s, h), d), Ingest(s.exec, TurnUsage(s, h, d), d);
    IngestFor(s.exec, TurnEnded(s, h), d);
    IngestFor(s.exec, TurnUsage(s, h, d), d);
    assert Handle(st, h, d).ops == a + [Audit(SpanId(d.seed, 2), TurnCompleted, s.exec, h.time)] + b;
  }

  lemma SessionEndOps(st: State, h: Hook, d: Draw)
    requires h.event.SessionEnd?
    ensures HookOps(st, h, Handle(st, h, d).ops)
  {
    hide Ingest;
    var spans := Ingest(st.exec, CancelledSpans(st, h), d);
    IngestFor(st.exec, CancelledSpans(st, h), d);
    NoRequests(st.exec, d);
    var end := if st.exec != NoExec then [EndExecution(st.exec, h.time)] else [];
    var ops := spans + end + [Audit(SpanId(d.seed, 2), SessionEnded, st.exec, h.time)];
    assert Handle(st, h, d).ops == ops;
    assert st.exec != NoExec ==> ops[|spans|] == EndExecution(st.exec, h.time);
  }

  /** Nothing is sent for an execution after its end, not even a second end. */
  ghost predicate EndsLast(ops: seq<Op>) {
    forall p, q :: 0 <= p < q < |ops| && ops[p].EndExecution? && ops[q].exec == ops[p].exec ==> ops[q].Audit?
  }

  ghost predicate Ended(ops: seq<Op>, x: ExecId) {
    exists p :: 0 <= p < |ops| && ops[p].EndExecution? && ops[p].exec == x
  }

  ghost predicate Accounted(st: State, ops: seq<Op>, ids: set<string>) {
    && EndsLast(ops)
    && (forall x :: Ended(ops, x) ==> T.Started(x, ids) && x != st.exec)
    && (st.exec != NoExec ==> T.Started(st.exec, ids))
  }

  lemma AddOps(st: State, h: Hook, before: seq<Op>, ops: seq<Op>, ids: set<string>)
    requires Accounted(st, before, ids) && HookOps(st, h, ops) && h.id !in ids
    ensures EndsLast(before + ops)
    ensures forall x :: Ended(before + ops, x) <==> Ended(before, x) || Ended(ops, x)
    ensures forall x :: Ended(before, x) ==> x != Reports(st, h)
    ensures forall x :: Ended(ops, x) ==> h.event.SessionEnd? && x == st.exec != NoExec
  {
    var all := before + ops;
    assert forall p :: 0 <= p < |all| ==> all[p] == if p < |before| then before[p] else ops[p - |before|];
    forall x | Ended(before, x) ensures x != Reports(st, h) && Ended(all, x) {
      FreshKey(x, ids, h.id);
      var p :| 0 <= p < |before| && before[p].EndExecution? && before[p].exec == x;
      assert all[p] == before[p];
    }
    forall x | Ended(ops, x) ensures h.event.SessionEnd? && x == st.exec != NoExec && Ended(all, x) {
      var p :| 0 <= p < |ops| && ops[p].EndExecution? && ops[p].exec == x;
      assert all[|before| + p] == ops[p] && ops[p] in ops;
    }
    forall p, q | 0 <= p < q < |all| && all[p].EndExecution? && all[q].exec == all[p].exec ensures all[q].Audit? {
      if p < |before| <= q {
        assert Ended(before, all[p].exec) && all[q] in ops;
      } else if |before| <= p {
        assert ops[p - |before|] == all[p] && ops[q - |before|] == all[q];
      }
    }
  }

  lemma FreshKey(x: ExecId, ids: set<string>, id: string)
    requires T.Started(x, ids) && id !in ids
    ensures x != Exec("cc-" + id)
  {
    var other :| other in ids && x.key == "cc-" + other;
    assert x.key[3..] == other && ("cc-" + id)[3..] == id;
  }

  /** What a hook leaves open. */
  lemma StateAfter(st: State, h: Hook, d: Draw)
    requires !st.closed && (st.exec == NoExec ==> st == EMPTY)
    ensures var after := Load(Handle(st, h, d).state);
            && (after.exec == NoExec || after.exec == Reports(st, h))
            && (h.event.SessionEnd? ==> after == EMPTY)
            && (after.exec != NoExec && after.exec != st.exec ==> after.exec == Exec("cc-" + h.id))
  {
  }

  lemma {:induction false} RunAccounted(run: seq<Prepared>)
    requires Fresh(run)
    ensures Accounted(Load(Replay(run).state), Replay(run).ops, T.HookIds(run))
    decreases run
  {
    hide Handle, HookOps, Accounted;
    if run == [] {
      NothingEnded();
      assert T.HookIds(run) == {};
    } else {
      var n := |run| - 1;
      var before, p := run[..n], run[n];
      assert forall i :: 0 <= i < n ==> before[i] == run[i];
      RunAccounted(before);
      T.ExecutionOrNothing(before);
      var st, ids := Load(Replay(before).state), T.HookIds(before);
      HandleOps(st, p.hook, p.draw);
      StateAfter(st, p.hook, p.draw);
      assert T.HookIds(run) == ids + {p.hook.id};
      AccountedNext(st, p.hook, Replay(before).ops, Handle(st, p.hook, p.draw).ops, Load(Replay(run).state), ids);
    }
  }

  lemma AccountedNext(st: State, h: Hook, before: seq<Op>, ops: seq<Op>, after: State, ids: set<string>)
    requires Accounted(st, before, ids) && HookOps(st, h, ops) && h.id !in ids
    requires after.exec == NoExec || after.exec == Reports(st, h)
    requires h.event.SessionEnd? ==> after == EMPTY
    requires after.exec != NoExec && after.exec != st.exec ==> after.exec == Exec("cc-" + h.id)
    ensures Accounted(after, before + ops, ids + {h.id})
  {
    AddOps(st, h, before, ops, ids);
    T.StartedMonotone(st, [], ids, h.id);
    hide EndsLast, Ended, HookOps;
    assert h.id in ids + {h.id};
  }

  lemma NothingEnded()
    ensures Accounted(EMPTY, [], {})
  {
  }

  /** A session end that finds an execution open. */
  ghost predicate EndsAt(run: seq<Prepared>, i: nat)
    requires i < |run|
  {
    run[i].hook.event.SessionEnd? && Met(run, i).exec != NoExec
  }

  /** An execution is ended exactly by a session end that finds it open, at that hook's time;
      and once it is, nothing but audit events is sent for it: no span, no second end. */
  lemma ExecutionEnds(run: seq<Prepared>, i: nat)
    requires Fresh(run) && i < |run|
    ensures forall x, t :: EndExecution(x, t) in Queued(run, i) <==> EndsAt(run, i) && x == Met(run, i).exec && t == run[i].hook.time
    ensures EndsLast(Replay(run).ops)
  {
    hide Handle, Replay;
    QueuedIs(run, i);
    T.ExecutionOrNothing(run[..i]);
    HandleOps(Met(run, i), run[i].hook, run[i].draw);
    RunAccounted(run);
    var ops := Queued(run, i);
    forall x, t | EndExecution(x, t) in ops ensures EndsAt(run, i) && x == Met(run, i).exec && t == run[i].hook.time {
      var p :| 0 <= p < |ops| && ops[p] == EndExecution(x, t);
    }
  }

  /** The same said of the whole run. */
  lemma {:induction false} RunEnds(run: seq<Prepared>, x: ExecId, t: int)
    requires Fresh(run)
    ensures EndExecution(x, t) in Replay(run).ops <==>
            exists i :: 0 <= i < |run| && EndsAt(run, i) && x == Met(run, i).exec && t == run[i].hook.time
    decreases run
  {
    hide Handle, Replay;
    if run == [] {
      NoOps();
    } else {
      var n := |run| - 1;
      var before := run[..n];
      assert forall i :: 0 <= i < n ==> before[i] == run[i];
      assert run[..n + 1] == run;
      RunEnds(before, x, t);
      QueuedIs(run, n);
      ExecutionEnds(run, n);
      forall i | 0 <= i < n ensures EndsAt(before, i) == EndsAt(run, i) && Met(before, i) == Met(run, i) {
        assert before[..i] == run[..i];
      }
    }
  }

  lemma NoOps()
    ensures Replay([]).ops == []
  {
  }

  // ---- What a span says ----

  /** What a span under a new id says, by the hook that emits it. */
  ghost predicate NewSpan(e: Event, turn: SpanId, sp: Span) {
    match e
    case Prompt => sp.kind == Custom && sp.name == "turn" && sp.parent == NoSpan && sp.toolUseId == ""
    case PreTool(tool, useId) => sp.kind == ToolCall && sp.name == tool && sp.parent == turn && sp.toolUseId == useId
    case PostTool(tool, useId, _, usage) =>
      sp.parent == turn && if sp.kind == ToolCall then sp.name == tool && sp.toolUseId == useId
                           else usage && sp.kind == ModelInvocation && sp.name == "model_invocation"
    case Permission(tool, _) => sp.kind == HumanApproval && sp.name == "permission:" + tool && sp.parent == turn
    case SubagentStop(agent) => sp.kind == Custom && sp.name == "subagent:" + agent && sp.parent == turn
    case Stop => sp.kind == ModelInvocation && sp.name == "model_invocation"
    case _ => false
  }

  /** The usage reported with a tool that was pending: a span of its own beside the tool's. */
  ghost predicate UsageBeside(st: State, e: Event, sp: Span) {
    && e.PostTool? && e.usage && PendingKey(e.tool, e.useId) in st.pending
    && sp.kind == ModelInvocation && sp.name == "model_invocation" && sp.parent == st.pending[PendingKey(e.tool, e.useId)].parent
  }

  /** A span's status, times and execution, by the hook that emits it: only prompts and tool starts
      leave it RUNNING, a tool that reports failure makes its span FAILED, a session end CANCELLED. */
  ghost predicate SpanSays(st: State, h: Hook, sp: Span) {
    && sp.exec == Reports(st, h) != NoExec
    && (sp.status == Running <==> h.event.Prompt? || h.event.PreTool?)
    && (sp.status == Failed <==> h.event.PostTool? && h.event.failed && sp.kind == ToolCall)
    && (sp.status == Cancelled <==> h.event.SessionEnd?)
    && sp.endedAt == (if sp.status == Running then None else Some(h.time))
    && (!IsPending(st, sp.id) ==> sp.startedAt == h.time && (NewSpan(h.event, st.turn, sp) || UsageBeside(st, h.event, sp)))
  }

  lemma HookSpansSay(st: State, h: Hook, d: Draw, sp: Span)
    requires !st.closed && (st.exec == NoExec ==> st == EMPTY) && sp in Emitted(st, h, d)
    ensures SpanSays(st, h, sp)
  {
    hide SpanSays;
    match h.event
    case SessionEnd => CancelledSays(st, h, d, sp);
    case Stop => StopSays(st, h, d, sp);
    case PostTool(_, _, _, _) => ToolEndSays(st, h, d, sp);
    case _ => OneSpanSays(st, h, d, sp);
  }

  lemma CancelledSays(st: State, h: Hook, d: Draw, sp: Span)
    requires h.event.SessionEnd? && sp in Emitted(st, h, d)
    ensures SpanSays(st, h, sp)
  {
    var keys := SortedKeys.Sorted(st.pending.Keys);
    CancelledIds(keys, st.pending, st.exec, h.time);
    var k :| k in keys && sp == Cancel(k, st.pending[k], st.exec, h.time);
    assert IsPending(st, sp.id);
  }

  lemma StopSays(st: State, h: Hook, d: Draw, sp: Span)
    requires !st.closed && (st.exec == NoExec ==> st == EMPTY) && h.event.Stop? && sp in Emitted(st, h, d)
    ensures SpanSays(st, h, sp)
  {
    if TURN_KEY in st.pending {
      assert sp.id == st.pending[TURN_KEY].id ==> IsPending(st, sp.id);
    }
  }

  lemma ToolEndSays(st: State, h: Hook, d: Draw, sp: Span)
    requires !st.closed && (st.exec == NoExec ==> st == EMPTY) && h.event.PostTool? && sp in Emitted(st, h, d)
    ensures SpanSays(st, h, sp)
  {
    var key := PendingKey(h.event.tool, h.event.useId);
    if key in st.pending {
      assert sp.id == st.pending[key].id ==> IsPending(st, sp.id);
    }
  }

  lemma OneSpanSays(st: State, h: Hook, d: Draw, sp: Span)
    requires !st.closed && (st.exec == NoExec ==> st == EMPTY) && sp in Emitted(st, h, d)
    requires !h.event.SessionEnd? && !h.event.Stop? && !h.event.PostTool?
    ensures SpanSays(st, h, sp)
  {
    hide IsPending;
  }

  /** How many spans a hook emits. */
  ghost function Amount(st: State, h: Hook, d: Draw): nat {
    match h.event
    case SessionStart | Notify => 0
    case Prompt | Permission(_, _) | SubagentStop(_) => 1
    case PreTool(tool, useId) =>
      if PendingKey(tool, useId) in st.pending || (useId != "" && useId in st.completed) then 0 else 1
    case PostTool(_, useId, _, usage) => if useId != "" && useId in st.completed then 0 else if usage then 2 else 1
    case Stop => (if TURN_KEY in st.pending then 1 else 0) + if d.tokens then 1 else 0
    case SessionEnd => |st.pending|
  }

  lemma HookAmount(st: State, h: Hook, d: Draw)
    requires !st.closed && (st.exec == NoExec ==> st == EMPTY)
    ensures |Emitted(st, h, d)| == Amount(st, h, d)
  {
    if h.event.SessionEnd? {
      CancelAllLength(SortedKeys.Sorted(st.pending.Keys), st.pending, st.exec, h.time);
      SortedLength(st.pending.Keys, SortedKeys.Sorted(st.pending.Keys));
      assert |st.pending.Keys| == |st.pending|;
    }
  }

  lemma {:induction false} CancelAllLength(keys: seq<string>, pending: map<string, SpanStart>, exec: ExecId, time: int)
    requires forall k :: k in keys ==> k in pending
    ensures |CancelAll(keys, pending, exec, time)| == |keys|
    decreases keys
  {
    if keys != [] {
      CancelAllLength(keys[..|keys| - 1], pending, exec, time);
    }
  }

  lemma {:induction false} SortedLength(s: set<string>, keys: seq<string>)
    requires SortedKeys.Ascending(keys) && forall k :: k in keys <==> k in s
    ensures |keys| == |s|
    decreases keys
  {
    if keys == [] {
      assert s == {};
    } else {
      var n := |keys| - 1;
      T.LastIsNew(keys);
      assert forall k :: k in keys[..n] <==> k in s - {keys[n]} by {
        assert keys == keys[..n] + [keys[n]];
      }
      SortedLength(s - {keys[n]}, keys[..n]);
    }
  }

  /** Every span a run emits has the status, times and execution of the hook it comes from: FAILED
      exactly for a tool reported failed, CANCELLED exactly by a session end, RUNNING exactly from a
      prompt or a tool start; and under a new id it says what the hook reports. */
  lemma SpansSay(run: seq<Prepared>, i: nat)
    requires i < |run|
    ensures forall sp :: sp in SpansOf(Queued(run, i)) ==> SpanSays(Met(run, i), run[i].hook, sp)
    ensures |SpansOf(Queued(run, i))| == Amount(Met(run, i), run[i].hook, run[i].draw)
  {
    hide Handle, Replay, SpanSays, Emitted;
    QueuedIs(run, i);
    T.ExecutionOrNothing(run[..i]);
    HandleEmits(Met(run, i), run[i].hook, run[i].draw);
    HookAmount(Met(run, i), run[i].hook, run[i].draw);
    forall sp | sp in SpansOf(Queued(run, i)) ensures SpanSays(Met(run, i), run[i].hook, sp) {
      HookSpansSay(Met(run, i), run[i].hook, run[i].draw, sp);
    }
  }

  // ---- What an audit event says ----

  function Audits(ops: seq<Op>): seq<Op> {
    if ops == [] then []
    else Audits(ops[..|ops| - 1]) + if ops[|ops| - 1].Audit? then [ops[|ops| - 1]] else []
  }

  lemma {:induction false} AuditsConcat(a: seq<Op>, b: seq<Op>)
    ensures Audits(a + b) == Audits(a) + Audits(b)
    decreases b
  {
    if b == [] {
      assert a + b == a;
    } else {
      assert (a + b)[..|a + b| - 1] == a + b[..|b| - 1];
      AuditsConcat(a, b[..|b| - 1]);
    }
  }

  lemma {:induction false} NoAudits(ops: seq<Op>, x: ExecId)
    requires OnlyFor(ops, x)
    ensures Audits(ops) == []
    decreases ops
  {
    if ops != [] {
      NoAudits(ops[..|ops| - 1], x);
    }
  }

  /** What an audit event says of its hook; a tool is named by the hook, or by its pending span. */
  ghost predicate ActionSays(st: State, e: Event, a: Action) {
    match a
    case SessionStarted => e.SessionStart?
    case PromptSubmitted => e.Prompt?
    case ToolUsed(tool, failed) =>
      && e.PostTool? && failed == e.failed
      && tool == (if e.tool != "" then e.tool else if e.useId in st.pending then st.pending[e.useId].name else "")
    case PermissionAsked(tool, denied) => e.Permission? && tool == e.tool && denied == e.denied
    case Notified => e.Notify?
    case SubagentStopped => e.SubagentStop?
    case TurnCompleted => e.Stop?
    case SessionEnded => e.SessionEnd?
  }

  /** One audit event for each hook but a tool start and a repeated tool end. */
  ghost predicate AuditSays(st: State, h: Hook, ops: seq<Op>) {
    if h.event.PreTool? || (h.event.PostTool? && h.event.useId != "" && h.event.useId in st.completed) then Audits(ops) == []
    else && |Audits(ops)| == 1 && Audits(ops)[0].Audit? && Audits(ops)[0].exec == Reports(st, h)
         && Audits(ops)[0].time == h.time && ActionSays(st, h.event, Audits(ops)[0].action)
  }

  lemma IngestAudits(exec: ExecId, spans: seq<Span>, d: Draw)
    ensures Audits(Ingest(exec, spans, d)) == []
  {
    IngestFor(exec, spans, d);
    NoAudits(Ingest(exec, spans, d), exec);
  }

  lemma OneAudit(exec: ExecId, spans: seq<Span>, d: Draw, audit: Op)
    requires audit.Audit?
    ensures Audits(Ingest(exec, spans, d) + [audit]) == [audit]
  {
    hide Ingest;
    IngestAudits(exec, spans, d);
    AuditsConcat(Ingest(exec, spans, d), [audit]);
    SingleAudit(audit);
  }

  lemma HandleAudits(st: State, h: Hook, d: Draw)
    requires !st.closed && (st.exec == NoExec ==> st == EMPTY)
    ensures AuditSays(st, h, Handle(st, h, d).ops)
  {
    hide AuditSays, Handle;
    match h.event
    case SessionStart => BareAudits(st, h, d);
    case Notify => BareAudits(st, h, d);
    case PreTool(_, _) => ToolStartAudits(st, h, d);
    case PostTool(_, _, _, _) => ToolEndAudits(st, h, d);
    case Stop => StopAudits(st, h, d);
    case SessionEnd => EndAudits(st, h, d);
    case Prompt => SpanAudits(st, h, d);
    case Permission(_, _) => SpanAudits(st, h, d);
    case SubagentStop(_) => SpanAudits(st, h, d);
  }

  lemma BareAudits(st: State, h: Hook, d: Draw)
    requires !st.closed && (st.exec == NoExec ==> st == EMPTY) && (h.event.SessionStart? || h.event.Notify?)
    ensures AuditSays(st, h, Handle(st, h, d).ops)
  {
    hide Audits;
    SingleAudit(Audit(SpanId(d.seed, 2), SessionStarted, EnsureExecution(st, h.id).exec, h.time));
    SingleAudit(Audit(SpanId(d.seed, 2), Notified, st.exec, h.time));
  }

  lemma SingleAudit(audit: Op)
    requires audit.Audit?
    ensures Audits([audit]) == [audit]
  {
    assert [audit][..0] == [];
  }

  lemma ToolStartAudits(st: State, h: Hook, d: Draw)
    requires h.event.PreTool?
    ensures AuditSays(st, h, Handle(st, h, d).ops)
  {
    hide Ingest;
    if !SkipsPreTool(st, h.event.tool, h.event.useId) {
      var after := PreToolState(st, h, d);
      IngestAudits(after.exec, [PreToolSpan(after, h)], d);
    }
  }

  lemma ToolEndAudits(st: State, h: Hook, d: Draw)
    requires !st.closed && (st.exec == NoExec ==> st == EMPTY) && h.event.PostTool?
    ensures AuditSays(st, h, Handle(st, h, d).ops)
  {
    hide Ingest, ToolBatch, Audits;
    if AlreadyCompleted(st, h.event.tool, h.event.useId) {
      NoOpsNoAudits();
    } else {
      var x := PostToolState(st, h).exec;
      OneAudit(x, PostToolSpans(st, h, d), d, Audit(SpanId(d.seed, 2), PostToolAction(st, h, d), x, h.time));
    }
  }

  lemma NoOpsNoAudits()
    ensures Audits([]) == []
  {
  }

  lemma SpanAudits(st: State, h: Hook, d: Draw)
    requires !st.closed && (st.exec == NoExec ==> st == EMPTY)
    requires h.event.Prompt? || h.event.Permission? || h.event.SubagentStop?
    ensures AuditSays(st, h, Handle(st, h, d).ops)
  {
    hide Ingest, Audits;
    var ops := Handle(st, h, d).ops;
    OneAudit(EnsureExecution(st, h.id).exec, Emitted(st, h, d), d, ops[|ops| - 1]);
  }

  lemma StopAudits(st: State, h: Hook, d: Draw)
    requires !st.closed && (st.exec == NoExec ==> st == EMPTY) && h.event.Stop?
    ensures AuditSays(st, h, Handle(st, h, d).ops)
  {
    hide Ingest, Audits;
    var s := EnsureExecution(st, h.id);
    var audit := Audit(SpanId(d.seed, 2), TurnCompleted, s.exec, h.time);
    OneAudit(s.exec, TurnEnded(s, h), d, audit);
    IngestAudits(s.exec, TurnUsage(s, h, d), d);
    AuditsConcat(Ingest(s.exec, TurnEnded(s, h), d) + [audit], Ingest(s.exec, TurnUsage(s, h, d), d));
  }

  lemma EndAudits(st: State, h: Hook, d: Draw)
    requires h.event.SessionEnd?
    ensures AuditSays(st, h, Handle(st, h, d).ops)
  {
    hide Ingest, Audits, CancelledSpans;
    var spans, audit := CancelledSpans(st, h), Audit(SpanId(d.seed, 2), SessionEnded, st.exec, h.time);
    var end := if st.exec != NoExec then [EndExecution(st.exec, h.time)] else [];
    IngestAudits(st.exec, spans, d);
    AuditsConcat(Ingest(st.exec, spans, d), end);
    AuditsConcat(Ingest(st.exec, spans, d) + end, [audit]);
    EndIsNoAudit(st.exec, h.time);
    SingleAudit(audit);
    assert Handle(st, h, d).ops == Ingest(st.exec, spans, d) + end + [audit];
  }

  lemma EndIsNoAudit(x: ExecId, t: int)
    ensures Audits([]) == [] && Audits([EndExecution(x, t)]) == []
  {
    assert [EndExecution(x, t)][..0] == [];
  }

  /** Every hook of a run queues one audit event, for its execution and time, saying what it reports;
      a tool start and a repeated tool end queue none. */
  lemma AuditsSay(run: seq<Prepared>, i: nat)
    requires i < |run|
    ensures AuditSays(Met(run, i), run[i].hook, Queued(run, i))
  {
    hide Handle, Replay, AuditSays;
    QueuedIs(run, i);
    T.ExecutionOrNothing(run[..i]);
    HandleAudits(Met(run, i), run[i].hook, run[i].draw);
  }

  // ---- A span's last record agrees with its first ----

  /** A record that opened a pending entry says what the entry remembers. */
  ghost predicate Opens(r: Span, key: string, start: SpanStart, exec: ExecId) {
    && r.status == Running && r.id == start.id && r.exec == exec && r.name == start.name
    && r.startedAt == start.startedAt && r.parent == start.parent && r.toolUseId == start.toolUseId
    && if r.kind == Custom then key == TURN_KEY && r.name == "turn" && r.parent == NoSpan
       else r.kind == ToolCall && key == PendingKey(r.name, r.toolUseId)
  }

  ghost predicate Matched(st: State, spans: seq<Span>) {
    forall k :: k in st.pending ==> exists r :: r in spans && Opens(r, k, st.pending[k], st.exec)
  }

  /** A tool that is filed under the turn's key. */
  predicate SharesTurnKey(r: Span) {
    r.kind == ToolCall && PendingKey(r.name, r.toolUseId) == TURN_KEY
  }

  /** What a span's last record keeps of its first: the execution and the start; name, kind and parent
      too, but for a tool filed under the turn's key, and a turn ended by such a tool's end. */
  ghost predicate Agrees(r: Span, t: Span) {
    && t.exec == r.exec && t.startedAt == r.startedAt
    && (!SharesTurnKey(r) ==> t.name == r.name && t.parent == r.parent)
    && (t.kind != r.kind ==> SharesTurnKey(r) || (r.kind == Custom && (t.toolUseId == "" || t.toolUseId == TURN_KEY)))
  }

  lemma StillMatched(st: State, st': State, spans: seq<Span>, more: seq<Span>)
    requires Matched(st, spans)
    requires forall k :: k in st'.pending ==> k in st.pending && st'.pending[k] == st.pending[k] && st'.exec == st.exec
    ensures Matched(st', spans + more)
  {
    forall k | k in st'.pending ensures exists r :: r in spans + more && Opens(r, k, st'.pending[k], st'.exec) {
      var r :| r in spans && Opens(r, k, st.pending[k], st.exec);
      assert r in spans + more;
    }
  }

  lemma NewlyMatched(st: State, st': State, spans: seq<Span>, more: seq<Span>, key: string)
    requires Matched(st, spans) && key in st'.pending && (st.pending != map[] ==> st'.exec == st.exec)
    requires forall k :: k in st'.pending && k != key ==> k in st.pending && st'.pending[k] == st.pending[k]
    requires exists r :: r in more && Opens(r, key, st'.pending[key], st'.exec)
    ensures Matched(st', spans + more)
  {
    var first :| first in more && Opens(first, key, st'.pending[key], st'.exec);
    assert first in spans + more;
    forall k | k in st'.pending && k != key ensures exists r :: r in spans + more && Opens(r, k, st'.pending[k], st'.exec) {
      var r :| r in spans && Opens(r, k, st.pending[k], st.exec);
      assert r in spans + more;
    }
  }

  lemma HookMatched(st: State, spans: seq<Span>, h: Hook, d: Draw)
    requires !st.closed && (st.exec == NoExec ==> st == EMPTY) && Matched(st, spans)
    ensures Matched(Load(Handle(st, h, d).state), spans + Emitted(st, h, d))
  {
    var after, more := Load(Handle(st, h, d).state), Emitted(st, h, d);
    hide Matched;
    match h.event
    case Prompt =>
      hide Ingest;
      assert more[0] in more && Opens(more[0], TURN_KEY, after.pending[TURN_KEY], after.exec);
      NewlyMatched(st, after, spans, more, TURN_KEY);
    case PreTool(tool, useId) => ToolStartMatched(st, spans, h, d);
    case _ =>
      hide Ingest, Opens;
      StillMatched(st, after, spans, more);
  }

  lemma ToolStartMatched(st: State, spans: seq<Span>, h: Hook, d: Draw)
    requires !st.closed && (st.exec == NoExec ==> st == EMPTY) && Matched(st, spans) && h.event.PreTool?
    ensures Matched(Load(Handle(st, h, d).state), spans + Emitted(st, h, d))
  {
    hide Matched, Ingest;
    var after, more := Load(Handle(st, h, d).state), Emitted(st, h, d);
    if SkipsPreTool(st, h.event.tool, h.event.useId) {
      StillMatched(st, after, spans, more);
    } else {
      var key := PendingKey(h.event.tool, h.event.useId);
      assert more[0] in more && Opens(more[0], key, after.pending[key], after.exec);
      NewlyMatched(st, after, spans, more, key);
    }
  }

  /** A terminal record either ends a pending entry, in agreement with the record that opened it, or
      is of a span drawn by this hook. */
  lemma HookAgrees(st: State, h: Hook, d: Draw, t: Span, r: Span, k: string)
    requires !st.closed && (st.exec == NoExec ==> st == EMPTY)
    requires t in Emitted(st, h, d) && t.status != Running && t.id.SpanId? && t.id.seed != d.seed
    requires k in st.pending && st.pending[k].id == t.id && Opens(r, k, st.pending[k], st.exec)
    requires forall j :: j in st.pending && st.pending[j].id == t.id ==> j == k
    ensures Agrees(r, t)
  {
    if h.event.SessionEnd? {
      var keys := SortedKeys.Sorted(st.pending.Keys);
      CancelledIds(keys, st.pending, st.exec, h.time);
      var j :| j in keys && t == Cancel(j, st.pending[j], st.exec, h.time);
    }
  }

  lemma EndsPending(st: State, h: Hook, d: Draw, t: Span)
    requires !st.closed && t in Emitted(st, h, d) && t.status != Running && t.id.SpanId? && t.id.seed != d.seed
    ensures IsPending(st, t.id)
  {
    if h.event.SessionEnd? {
      var keys := SortedKeys.Sorted(st.pending.Keys);
      CancelledIds(keys, st.pending, st.exec, h.time);
      var j :| j in keys && t == Cancel(j, st.pending[j], st.exec, h.time);
    }
  }

  lemma {:induction false} RunMatched(run: seq<Prepared>)
    requires Fresh(run)
    ensures Matched(Load(Replay(run).state), History(run))
    decreases run
  {
    hide Handle, Emitted, Matched;
    if run == [] {
      NothingMatched();
    } else {
      var before, p := run[..|run| - 1], run[|run| - 1];
      assert forall i :: 0 <= i < |before| ==> before[i] == run[i];
      RunMatched(before);
      T.ExecutionOrNothing(before);
      HistoryExtends(run);
      HookMatched(Load(Replay(before).state), History(before), p.hook, p.draw);
    }
  }

  lemma NothingMatched()
    ensures Matched(EMPTY, [])
  {
  }

  /** Only one record opens a span. */
  lemma OpenedOnce(spans: seq<Span>, i: nat, r: Span)
    requires i < |spans| && spans[i].status == Running && r in spans && r.id == spans[i].id && r.status == Running
    requires PhaseOf(spans, r.id) != Broken
    ensures r == spans[i]
  {
    var a, b := PhaseMeaning(spans, r.id);
    var j :| 0 <= j < |spans| && spans[j] == r;
  }

  lemma LastAgrees(run: seq<Prepared>, i: nat, t: Span)
    requires Fresh(run) && run != []
    requires var before, p := run[..|run| - 1], run[|run| - 1];
             && t in Emitted(Load(Replay(before).state), p.hook, p.draw) && t.status != Running
             && i < |History(before)| && History(before)[i].id == t.id && History(before)[i].status == Running
    ensures Agrees(History(run[..|run| - 1])[i], t)
  {
    hide Handle, Emitted, Agrees, Opens, Replay, History;
    var before, p := run[..|run| - 1], run[|run| - 1];
    var st, spans := Load(Replay(before).state), History(before);
    assert forall j :: 0 <= j < |before| ==> before[j] == run[j];
    RunTracked(before);
    RunMatched(before);
    T.ExecutionOrNothing(before);
    assert spans[i] in spans && p.draw.seed !in Seeds(before);
    EndsPending(st, p.hook, p.draw, t);
    var k :| k in st.pending && st.pending[k].id == t.id;
    var r :| r in spans && Opens(r, k, st.pending[k], st.exec);
    OpensRunning(r, k, st.pending[k], st.exec);
    OpenedOnce(spans, i, r);
    HookAgrees(st, p.hook, p.draw, t, r, k);
  }

  lemma OpensRunning(r: Span, key: string, start: SpanStart, exec: ExecId)
    requires Opens(r, key, start, exec)
    ensures r.status == Running && r.id == start.id
  {
  }

  /** In every run, the record that ends a span agrees with the one that opened it. */
  lemma {:induction false} TerminalAgrees(run: seq<Prepared>, i: nat, j: nat)
    requires Fresh(run) && i < j < |History(run)| && History(run)[i].id == History(run)[j].id
    requires History(run)[i].status == Running && History(run)[j].status != Running
    ensures Agrees(History(run)[i], History(run)[j])
    decreases run
  {
    hide Handle, Emitted, Agrees, Replay;
    if run == [] {
      NoHistory();
    } else {
      var before, p := run[..|run| - 1], run[|run| - 1];
      assert forall m :: 0 <= m < |before| ==> before[m] == run[m];
      HistoryExtends(run);
      var st, n := Load(Replay(before).state), |History(before)|;
      hide History;
      if j < n {
        TerminalAgrees(before, i, j);
      } else if i < n {
        assert History(run)[j] in Emitted(st, p.hook, p.draw);
        LastAgrees(run, i, History(run)[j]);
      } else {
        OneIfRunning(st, p.hook, p.draw, History(run)[i]);
      }
    }
  }

  lemma NoHistory()
    ensures History([]) == []
  {
  }

  lemma OneIfRunning(st: State, h: Hook, d: Draw, r: Span)
    requires r in Emitted(st, h, d) && r.status == Running
    ensures |Emitted(st, h, d)| == 1
  {
    if h.event.SessionEnd? {
      CancelledIds(SortedKeys.Sorted(st.pending.Keys), st.pending, st.exec, h.time);
    }
  }

  // ---- What a session remembers ----

  /** The key a hook files a pending span under, and the keys it takes out. */
  function Filed(e: Event): Option<string> {
    match e
    case Prompt => Some("__turn__")
    case PreTool(tool, useId) => Some(if useId != "" then useId else tool)
    case _ => None
  }

  ghost predicate Removed(st: State, e: Event, key: string) {
    match e
    case PostTool(tool, useId, _, _) =>
      if useId != "" then key == useId && useId !in st.completed else key == tool
    case Stop => key == "__turn__"
    case SessionEnd => true
    case _ => false
  }

  /** The turn lasts from its prompt to a stop or the session's end; a tool use is remembered as
      completed until then, if it is named; a span is pending from the hook that files it to one
      that takes it out. */
  ghost predicate StateSays(st: State, e: Event, after: State) {
    && (if e.Prompt? then TURN_KEY in after.pending && after.turn == after.pending[TURN_KEY].id != NoSpan
        else after.turn == if e.Stop? || e.SessionEnd? then NoSpan else st.turn)
    && after.completed == (if e.SessionEnd? then {}
                           else if e.PostTool? && e.useId != "" then st.completed + {e.useId} else st.completed)
    && (forall k :: k in after.pending ==> (k in st.pending && !Removed(st, e, k)) || Filed(e) == Some(k))
    && (forall k :: k in st.pending && !Removed(st, e, k) ==> k in after.pending && (!e.Prompt? ==> after.pending[k] == st.pending[k]))
    && (e.PreTool? && (e.useId == "" || e.useId !in st.completed) ==> Filed(e).value in after.pending)
  }

  lemma HandleState(st: State, h: Hook, d: Draw)
    requires !st.closed && (st.exec == NoExec ==> st == EMPTY)
    ensures StateSays(st, h.event, Load(Handle(st, h, d).state))
  {
    hide Ingest, ToolBatch;
  }

  /** Each hook of a run leaves the session remembering just that. */
  lemma StatesSay(run: seq<Prepared>, i: nat)
    requires i < |run|
    ensures StateSays(Met(run, i), run[i].hook.event, Met(run, i + 1))
  {
    hide Handle, Replay, StateSays;
    T.ExecutionOrNothing(run[..i]);
    HandleState(Met(run, i), run[i].hook, run[i].draw);
    assert run[..i + 1] == run[..i] + [run[i]];
    ReplayAdd(run[..i], run[i]);
  }
}

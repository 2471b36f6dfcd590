/** The hook handlers as they run: they update the session state in place and
    append operations to the transaction. */
module HookTransactions {
  import opened Wrappers
  import opened Telemetry
  import S = Session
  import Batching
  import SortedKeys

  class SessionState {
    var key: string
    var exec: ExecId
    var turn: SpanId
    var pending: map<string, S.SpanStart>
    var completed: set<string>
    var closed: bool

    function Value(): S.State
      reads this
    {
      S.State(key, exec, turn, pending, completed, closed)
    }

    constructor (st: S.State)
      ensures Value() == st
    {
      key, exec, turn, pending, completed, closed := st.key, st.exec, st.turn, st.pending, st.completed, st.closed;
    }

    method Reset()
      modifies this
      ensures Value() == S.EMPTY
    {
      key, exec, turn, pending, completed, closed := "", NoExec, NoSpan, map[], {}, false;
    }
  }

  class HookTransaction {
    const st: SessionState
    const hook: S.Hook
    const draw: S.Draw
    /** Whether the server answers a request to start an execution. */
    const available: bool
    var ops: seq<Op>
    var err: bool
    /** Idempotency keys of the execution starts requested so far. */
    var asked: seq<string>

    constructor (loaded: SessionState, h: S.Hook, d: S.Draw, available: bool)
      ensures st == loaded && hook == h && draw == d && this.available == available
      ensures ops == [] && asked == [] && !err
    {
      st, hook, draw, this.available := loaded, h, d, available;
      ops, asked, err := [], [], false;
    }

    // ---- Operations ----

    method AuditLog(action: Action)
      modifies this`ops
      ensures ops == old(ops) + [Audit(SpanId(draw.seed, 2), action, st.exec, hook.time)]
    {
      ops := ops + [Audit(SpanId(draw.seed, 2), action, st.exec, hook.time)];
    }

    method Flush(exec: ExecId, batch: seq<Span>)
      modifies this`ops
      ensures ops == old(ops) + if batch == [] then [] else [Spans(exec, batch)]
    {
      if |batch| > 0 {
        ops := ops + [Spans(exec, batch)];
      }
    }

    method IngestSpans(exec: ExecId, spans: seq<Span>)
      modifies this`ops
      ensures ops == old(ops) + S.Ingest(exec, spans, draw)
    {
      var batch: seq<Span> := [];
      for i := 0 to |spans|
        invariant ops + S.Requests(exec, Batching.Greedy(batch, spans[i..], draw.limit, draw.bytes))
               == old(ops) + S.Ingest(exec, spans, draw)
      {
        ghost var before, open := ops, batch;
        assert spans[i..][0] == spans[i] && spans[i..][1..] == spans[i + 1..];
        if |batch| > 0 && Batching.Size(batch + [spans[i]], draw.bytes) > draw.limit {
          Flush(exec, batch);
          ghost var rest := Batching.Greedy([spans[i]], spans[i + 1..], draw.limit, draw.bytes);
          assert ([open] + rest)[1..] == rest;
          assert before + ([Spans(exec, open)] + S.Requests(exec, rest)) == ops + S.Requests(exec, rest);
          batch := [];
        }
        batch := batch + [spans[i]];
        assert [] + [spans[i]] == [spans[i]];
      }
      assert S.Requests(exec, Batching.Greedy(batch, [], draw.limit, draw.bytes)) ==
             if batch == [] then [] else [Spans(exec, batch)] + S.Requests(exec, [batch][1..]);
      Flush(exec, batch);
    }

    method EndExecution()
      modifies this`ops
      ensures ops == old(ops) + [Op.EndExecution(st.exec, hook.time)]
    {
      ops := ops + [Op.EndExecution(st.exec, hook.time)];
    }

    // ---- Executions ----

    method EnsureExecution() returns (id: ExecId)
      modifies this`err, this`asked, st
      ensures old(st.closed) || old(st.exec) == NoExec ==>
                asked == old(asked) + [S.StartKey(old(st.Value()), hook.id)]
      ensures !(old(st.closed) || old(st.exec) == NoExec) ==> asked == old(asked) && err == old(err)
      ensures old(st.closed) || old(st.exec) == NoExec ==> err == (old(err) || !available)
      ensures available ==> st.Value() == S.EnsureExecution(old(st.Value()), hook.id)
      ensures !(old(st.closed) || old(st.exec) == NoExec) ==> st.Value() == old(st.Value())
      ensures id == st.exec
    {
      if st.closed {
        st.Reset();
      }
      if st.exec != NoExec {
        return st.exec;
      }
      if st.key == "" {
        st.key := "cc-" + hook.id;
      }
      asked := asked + [st.key];
      if !available {
        err := true;
        return NoExec;
      }
      st.exec := Exec(st.key);
      id := st.exec;
    }

    // ---- Handlers ----

    /** What a handler leaves behind, when the execution start it needed, if any, succeeded. */
    ghost predicate Done(before: S.State)
      reads this, st
    {
      && asked == (if S.Starts(before, hook) then [S.StartKey(before, hook.id)] else [])
      && (err <==> S.Starts(before, hook) && !available)
      && (!err ==> S.Result(st.Value(), ops) == S.Handle(before, hook, draw))
    }

    ghost predicate Begun()
      reads this
    {
      ops == [] && asked == [] && !err
    }

    method HandleSessionStart()
      requires Begun() && hook.event.SessionStart?
      modifies this, st
      ensures Done(old(st.Value()))
    {
      var id := EnsureExecution();
      if err {
        return;
      }
      st.closed := false;
      AuditLog(SessionStarted);
    }

    method HandleUserPrompt()
      requires Begun() && hook.event.Prompt?
      modifies this, st
      ensures Done(old(st.Value()))
    {
      var _ := EnsureExecution();
      var turnSpan := SpanId(draw.seed, 0);
      st.turn := turnSpan;
      st.pending := st.pending[S.TURN_KEY := S.SpanStart(turnSpan, "turn", hook.time, NoSpan, "")];
      if st.exec != NoExec {
        var turn := st.pending[S.TURN_KEY];
        IngestSpans(st.exec, [Span(turn.id, st.exec, Custom, "turn", Running, turn.startedAt, None, NoSpan, "")]);
      }
      AuditLog(PromptSubmitted);
    }

    method HandlePreTool()
      requires Begun() && hook.event.PreTool?
      modifies this, st
      ensures Done(old(st.Value()))
    {
      var key := S.PendingKey(hook.event.tool, hook.event.useId);
      if hook.event.useId != "" && key in st.completed {
        return;
      }
      if key in st.pending {
        return;
      }
      st.pending := st.pending[key := S.SpanStart(SpanId(draw.seed, 0), hook.event.tool, hook.time, st.turn, "")];
      ghost var added := st.Value();
      var id := EnsureExecution();
      if id == NoExec {
        return;
      }
      var start := if key in st.pending then st.pending[key] else S.NO_START;
      st.pending := st.pending[key := start.(toolUseId := hook.event.useId)];
      assert !err ==> st.Value() == S.PreToolState(old(st.Value()), hook, draw);
      IngestSpans(st.exec,
        [Span(start.id, st.exec, ToolCall, start.name, Running, start.startedAt, None, st.turn, hook.event.useId)]);
    }

    method HandlePostTool()
      requires Begun() && hook.event.PostTool?
      modifies this, st
      ensures Done(old(st.Value()))
    {
      hide S.Ingest, S.ToolBatch, S.PostToolStart;
      ghost var before := st.Value();
      var tool, useId := hook.event.tool, hook.event.useId;
      var key := S.PendingKey(tool, useId);
      if useId != "" && key in st.completed {
        return;
      }
      var span := TakeSpan(key, useId);
      if tool == "" {
        tool := span.name;
      }
      var id := EnsureExecution();
      assert !err ==> st.Value() == S.PostToolState(before, hook);
      var batch := ToolSpans(span);
      if id != NoExec {
        IngestSpans(id, batch);
      }
      AuditLog(ToolUsed(tool, hook.event.failed));
    }

    /** The tool's pending span, or a fresh one; a named use is recorded as completed. */
    method TakeSpan(key: string, useId: string) returns (span: S.SpanStart)
      requires hook.event.PostTool? && useId == hook.event.useId && key == S.PendingKey(hook.event.tool, useId)
      modifies st
      ensures span == S.PostToolStart(old(st.Value()), hook, draw)
      ensures st.Value() == old(st.Value()).(pending := old(st.pending) - {key},
                                             completed := old(st.completed) + if useId != "" then {key} else {})
    {
      span := if key in st.pending then st.pending[key]
              else S.SpanStart(SpanId(draw.seed, 0), hook.event.tool, hook.time, st.turn, "");
      st.pending := st.pending - {key};
      if useId != "" {
        st.completed := st.completed + {key};
      }
    }

    method ToolSpans(span: S.SpanStart) returns (batch: seq<Span>)
      requires hook.event.PostTool?
      ensures batch == S.ToolBatch(span, st.exec, hook, draw)
    {
      var status := if hook.event.failed then Failed else Completed;
      batch := [Span(span.id, st.exec, ToolCall, span.name, status, span.startedAt, Some(hook.time), span.parent, hook.event.useId)];
      if hook.event.usage {
        batch := batch +
          [S.Instant(SpanId(draw.seed, 1), st.exec, ModelInvocation, "model_invocation", hook.time, span.parent)];
      }
    }

    method HandlePermission()
      requires Begun() && hook.event.Permission?
      modifies this, st
      ensures Done(old(st.Value()))
    {
      var id := EnsureExecution();
      if id != NoExec {
        IngestSpans(id,
          [S.Instant(SpanId(draw.seed, 0), id, HumanApproval, "permission:" + hook.event.tool, hook.time, st.turn)]);
      }
      AuditLog(PermissionAsked(hook.event.tool, hook.event.denied));
    }

    method HandleNotification()
      requires Begun() && hook.event.Notify?
      modifies this, st
      ensures Done(old(st.Value()))
    {
      AuditLog(Notified);
    }

    method HandleSubagentStop()
      requires Begun() && hook.event.SubagentStop?
      modifies this, st
      ensures Done(old(st.Value()))
    {
      var id := EnsureExecution();
      if id != NoExec {
        IngestSpans(id,
          [S.Instant(SpanId(draw.seed, 0), id, Custom, "subagent:" + hook.event.agent, hook.time, st.turn)]);
      }
      AuditLog(SubagentStopped);
    }

    method HandleStop()
      requires Begun() && hook.event.Stop?
      modifies this, st
      ensures Done(old(st.Value()))
    {
      var id := EnsureExecution();
      ghost var s := st.Value();
      var turnSpan := NoSpan;
      if S.TURN_KEY in st.pending {
        var turn := st.pending[S.TURN_KEY];
        turnSpan := turn.id;
        if id != NoExec {
          IngestSpans(id,
            [Span(turn.id, id, Custom, "turn", Completed, turn.startedAt, Some(hook.time), NoSpan, turn.toolUseId)]);
        }
        st.pending := st.pending - {S.TURN_KEY};
      }
      st.turn := NoSpan;
      assert !err ==> st.Value() == s.(turn := NoSpan, pending := s.pending - {S.TURN_KEY});
      assert !err ==> ops == S.Ingest(s.exec, S.TurnEnded(s, hook), draw);
      EmitTurnComplete(id, turnSpan);
      assert !err && !draw.tokens ==> S.Ingest(s.exec, S.TurnUsage(s, hook, draw), draw) == [];
    }

    method EmitTurnComplete(id: ExecId, turnSpan: SpanId)
      modifies this`ops
      ensures ops == old(ops) + [Audit(SpanId(draw.seed, 2), TurnCompleted, st.exec, hook.time)] +
                     if id != NoExec && draw.tokens
                     then S.Ingest(id, [S.Instant(SpanId(draw.seed, 0), id, ModelInvocation, "model_invocation", hook.time, turnSpan)], draw)
                     else []
    {
      AuditLog(TurnCompleted);
      if id != NoExec && draw.tokens {
        IngestSpans(id,
          [S.Instant(SpanId(draw.seed, 0), id, ModelInvocation, "model_invocation", hook.time, turnSpan)]);
      }
    }

    method HandleSessionEnd()
      requires Begun() && hook.event.SessionEnd?
      modifies this, st
      ensures Done(old(st.Value()))
    {
      ghost var before := st.Value();
      if st.exec != NoExec && st.pending != map[] {
        var keys := SortedKeys.Sort(st.pending.Keys);
        var cancelled: seq<Span> := [];
        for i := 0 to |keys|
          invariant cancelled == S.CancelAll(keys[..i], st.pending, st.exec, hook.time)
        {
          cancelled := cancelled + [S.Cancel(keys[i], st.pending[keys[i]], st.exec, hook.time)];
          assert keys[..i + 1][..i] == keys[..i];
        }
        assert keys[..|keys|] == keys;
        IngestSpans(st.exec, cancelled);
      }
      assert ops == S.Ingest(before.exec, S.CancelledSpans(before, hook), draw);
      if st.exec != NoExec {
        EndExecution();
      }
      AuditLog(SessionEnded);
      st.closed := true;
    }

    method Dispatch()
      requires Begun()
      modifies this, st
      ensures Done(old(st.Value()))
    {
      match hook.event
      case SessionStart => HandleSessionStart();
      case Prompt => HandleUserPrompt();
      case PreTool(_, _) => HandlePreTool();
      case PostTool(_, _, _, _) => HandlePostTool();
      case Permission(_, _) => HandlePermission();
      case Notify => HandleNotification();
      case SubagentStop(_) => HandleSubagentStop();
      case Stop => HandleStop();
      case SessionEnd => HandleSessionEnd();
    }
  }
}

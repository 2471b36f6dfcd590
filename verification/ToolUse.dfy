/** At most one terminal span per tool use, and which emitted spans the server accepts. */
module ToolUse {
  import opened Wrappers
  import opened Telemetry
  import opened Session
  import opened Lifecycle
  import SortedKeys

  /** Terminal records of tool use `u` in execution `x`. */
  function Terminals(spans: seq<Span>, u: string, x: ExecId): nat {
    if spans == [] then 0
    else
      var s := spans[|spans| - 1];
      Terminals(spans[..|spans| - 1], u, x) +
      if s.toolUseId == u && s.exec == x && s.status != Running then 1 else 0
  }

  lemma {:induction false} TerminalsConcat(a: seq<Span>, b: seq<Span>, u: string, x: ExecId)
    ensures Terminals(a + b, u, x) == Terminals(a, u, x) + Terminals(b, u, x)
    decreases b
  {
    if b == [] {
      assert a + b == a;
    } else {
      assert (a + b)[..|a + b| - 1] == a + b[..|b| - 1];
      TerminalsConcat(a, b[..|b| - 1], u, x);
    }
  }

  lemma {:induction false} NoTerminals(spans: seq<Span>, u: string, x: ExecId)
    requires forall s :: s in spans && s.toolUseId == u && s.exec == x ==> s.status == Running
    ensures Terminals(spans, u, x) == 0
  {
    if spans != [] {
      NoTerminals(spans[..|spans| - 1], u, x);
    }
  }

  ghost predicate Started(x: ExecId, ids: set<string>) {
    x.Exec? && exists id :: id in ids && x.key == "cc-" + id
  }

  /** One open session's book-keeping about tool use `u`. */
  ghost predicate AtMostOnce(st: State, spans: seq<Span>, ids: set<string>, u: string) {
    && (forall x :: Terminals(spans, u, x) <= 1)
    && (forall s :: s in spans ==> Started(s.exec, ids))
    && (st.exec == NoExec ==> st == EMPTY)
    && (st.exec != NoExec ==> Started(st.exec, ids))
    && (st.exec != NoExec && u !in st.completed ==> Terminals(spans, u, st.exec) == 0)
    && (forall k :: k in st.pending && st.pending[k].toolUseId == u ==> k == u && u !in st.completed)
  }

  lemma FreshExecution(spans: seq<Span>, ids: set<string>, hookId: string, u: string)
    requires forall s :: s in spans ==> Started(s.exec, ids)
    requires hookId !in ids
    ensures Terminals(spans, u, Exec("cc-" + hookId)) == 0
  {
    forall s | s in spans ensures s.exec != Exec("cc-" + hookId) {
      var id :| id in ids && s.exec.key == "cc-" + id;
      assert s.exec.key[3..] == id && ("cc-" + hookId)[3..] == hookId;
    }
    NoTerminals(spans, u, Exec("cc-" + hookId));
  }

  lemma EnsureAtMostOnce(st: State, spans: seq<Span>, ids: set<string>, u: string, hookId: string)
    requires !st.closed && AtMostOnce(st, spans, ids, u) && hookId !in ids
    ensures AtMostOnce(EnsureExecution(st, hookId), spans, ids + {hookId}, u)
    ensures EnsureExecution(st, hookId).exec != NoExec
  {
    StartedMonotone(st, spans, ids, hookId);
    if st.exec == NoExec {
      FreshExecution(spans, ids, hookId, u);
      assert hookId in ids + {hookId};
    }
  }

  lemma StartedMonotone(st: State, spans: seq<Span>, ids: set<string>, hookId: string)
    ensures forall x :: Started(x, ids) ==> Started(x, ids + {hookId})
  {
    forall x | Started(x, ids) ensures Started(x, ids + {hookId}) {
      var id :| id in ids && x.key == "cc-" + id;
      assert id in ids + {hookId};
    }
  }

  /** Appending spans of the current execution that hold no terminal record of `u`. */
  lemma EmitNone(st: State, spans: seq<Span>, ids: set<string>, u: string, more: seq<Span>)
    requires AtMostOnce(st, spans, ids, u) && (st.exec != NoExec || more == [])
    requires forall s :: s in more ==> s.exec == st.exec && (s.toolUseId == u ==> s.status == Running)
    ensures AtMostOnce(st, spans + more, ids, u)
  {
    forall x ensures Terminals(spans + more, u, x) == Terminals(spans, u, x) {
      TerminalsConcat(spans, more, u, x);
      NoTerminals(more, u, x);
    }
  }

  lemma {:induction false} CancelledOnce(
    keys: seq<string>, pending: map<string, SpanStart>, exec: ExecId, time: int, u: string, x: ExecId)
    requires SortedKeys.Ascending(keys) && forall k :: k in keys ==> k in pending
    requires forall k :: k in pending && pending[k].toolUseId == u ==> k == u
    ensures Terminals(CancelAll(keys, pending, exec, time), u, x) <=
            if x == exec && u in keys && pending[u].toolUseId == u then 1 else 0
    decreases keys
  {
    if keys == [] {
      NoTerminals([], u, x);
    } else {
      hide Terminals, Cancel;
      var n := |keys| - 1;
      var front, last := CancelAll(keys[..n], pending, exec, time), [Cancel(keys[n], pending[keys[n]], exec, time)];
      CancelledOnce(keys[..n], pending, exec, time, u, x);
      LastIsNew(keys);
      assert CancelAll(keys, pending, exec, time) == front + last;
      TerminalsConcat(front, last, u, x);
      OneCancelled(keys[n], pending[keys[n]], exec, time, u, x);
    }
  }

  lemma LastIsNew(keys: seq<string>)
    requires SortedKeys.Ascending(keys) && keys != []
    ensures SortedKeys.Ascending(keys[..|keys| - 1]) && keys[|keys| - 1] !in keys[..|keys| - 1]
  {
    var n := |keys| - 1;
    if i :| 0 <= i < n && keys[..n][i] == keys[n] {
      SortedKeys.AscendingDistinct(keys, i, n);
    }
  }

  lemma OneCancelled(k: string, start: SpanStart, exec: ExecId, time: int, u: string, x: ExecId)
    ensures Terminals([Cancel(k, start, exec, time)], u, x) == if x == exec && start.toolUseId == u then 1 else 0
  {
    OneTerminal([Cancel(k, start, exec, time)], u, x);
  }

  lemma HookAtMostOnce(st: State, spans: seq<Span>, ids: set<string>, u: string, h: Hook, d: Draw)
    requires !st.closed && AtMostOnce(st, spans, ids, u) && h.id !in ids
    requires u != "" && u != TURN_KEY
    ensures AtMostOnce(Load(Handle(st, h, d).state), spans + Emitted(st, h, d), ids + {h.id}, u)
  {
    var ids' := ids + {h.id};
    EnsureAtMostOnce(st, spans, ids, u, h.id);
    StartedMonotone(st, spans, ids, h.id);
    var s := EnsureExecution(st, h.id);
    var more := Emitted(st, h, d);
    match h.event
    case SessionStart => EmitNone(s, spans, ids', u, more);
    case Permission(_, _) => EmitNone(s, spans, ids', u, more);
    case SubagentStop(_) => EmitNone(s, spans, ids', u, more);
    case Prompt => EmitNone(s, spans, ids', u, more);
    case Notify => EmitNone(st, spans, ids', u, more);
    case Stop => EmitNone(s, spans, ids', u, more);
    case PreTool(tool, useId) =>
      if SkipsPreTool(st, tool, useId) {
        EmitNone(st, spans, ids', u, more);
      } else {
        EmitNone(s, spans, ids', u, more);
        PreToolAtMostOnce(st, spans + more, ids', u, h, d);
      }
    case PostTool(tool, useId, failed, usage) =>
      if AlreadyCompleted(st, tool, useId) {
        EmitNone(st, spans, ids', u, more);
      } else {
        PostToolAtMostOnce(s, st, spans, ids', u, h, d);
      }
    case SessionEnd => SessionEndAtMostOnce(st, spans, ids', u, h, d);
  }

  lemma PreToolAtMostOnce(st: State, spans: seq<Span>, ids: set<string>, u: string, h: Hook, d: Draw)
    requires !st.closed && AtMostOnce(EnsureExecution(st, h.id), spans, ids, u) && u != ""
    requires h.event.PreTool? && !SkipsPreTool(st, h.event.tool, h.event.useId)
    ensures AtMostOnce(PreToolState(st, h, d), spans, ids, u)
  {
  }

  lemma SessionEndAtMostOnce(st: State, spans: seq<Span>, ids: set<string>, u: string, h: Hook, d: Draw)
    requires !st.closed && AtMostOnce(st, spans, ids, u) && h.event.SessionEnd?
    ensures AtMostOnce(EMPTY, spans + Emitted(st, h, d), ids, u)
  {
    var more := Emitted(st, h, d);
    if st.exec != NoExec {
      var keys := SortedKeys.Sorted(st.pending.Keys);
      CancelledIds(keys, st.pending, st.exec, h.time);
      forall x ensures Terminals(spans + more, u, x) <= 1 {
        TerminalsConcat(spans, more, u, x);
        CancelledOnce(keys, st.pending, st.exec, h.time, u, x);
      }
    } else {
      assert spans + more == spans;
    }
  }

  lemma PostToolAtMostOnce(s: State, st: State, spans: seq<Span>, ids: set<string>, u: string, h: Hook, d: Draw)
    requires s == EnsureExecution(st, h.id) && !st.closed && s.exec != NoExec
    requires AtMostOnce(s, spans, ids, u) && u != ""
    requires h.event.PostTool? && !AlreadyCompleted(st, h.event.tool, h.event.useId)
    ensures AtMostOnce(PostToolState(st, h), spans + PostToolSpans(st, h, d), ids, u)
  {
    var more := PostToolSpans(st, h, d);
    var after := PostToolState(st, h);
    assert after.exec == s.exec;
    if h.event.useId == u {
      forall x ensures Terminals(spans + more, u, x) <= 1 {
        TerminalsConcat(spans, more, u, x);
        TerminalsConcat([more[0]], more[1..], u, x);
        assert [more[0]] + more[1..] == more;
        NoTerminals(more[1..], u, x);
        assert [more[0]][..0] == [];
        assert Terminals([more[0]], u, x) <= 1;
        if x != s.exec {
          NoTerminals([more[0]], u, x);
        }
      }
    } else {
      EmitNone(s, spans, ids, u, more);
    }
  }

  ghost function HookIds(run: seq<Prepared>): set<string> {
    set i | 0 <= i < |run| :: run[i].hook.id
  }

  lemma {:induction false} RunAtMostOnce(run: seq<Prepared>, u: string)
    requires Fresh(run) && u != "" && u != TURN_KEY
    ensures AtMostOnce(Load(Replay(run).state), History(run), HookIds(run), u)
    decreases run
  {
    if run != [] {
      var before := run[..|run| - 1];
      var p := run[|run| - 1];
      assert forall i :: 0 <= i < |before| ==> before[i] == run[i];
      RunAtMostOnce(before, u);
      HistoryExtends(run);
      HookAtMostOnce(Load(Replay(before).state), History(before), HookIds(before), u, p.hook, p.draw);
      assert HookIds(run) == HookIds(before) + {p.hook.id};
    }
  }

  lemma RunOneTerminal(run: seq<Prepared>, u: string, x: ExecId)
    requires Fresh(run) && u != "" && u != TURN_KEY
    ensures Terminals(History(run), u, x) <= 1
  {
    RunAtMostOnce(run, u);
  }

  /** Starting such a tool leaves it pending, and ends nothing. */
  lemma StartsUnended(run: seq<Prepared>, a: Prepared, x: ExecId)
    requires a.hook.event == PreTool("t", TURN_KEY)
    requires var st := Load(Replay(run).state);
             TURN_KEY !in st.pending && TURN_KEY !in st.completed && EnsureExecution(st, a.hook.id).exec == x != NoExec
    ensures var mid := Replay(run + [a]).state;
            && mid == PreToolState(Load(Replay(run).state), a.hook, a.draw)
            && TURN_KEY in mid.pending && TURN_KEY !in mid.completed && mid.exec == x && !mid.closed
    ensures Terminals(History(run + [a]), TURN_KEY, x) == Terminals(History(run), TURN_KEY, x)
  {
    var st := Load(Replay(run).state);
    ReplayAdd(run, a);
    TerminalsConcat(History(run), Emitted(st, a.hook, a.draw), TURN_KEY, x);
    OneTerminal(Emitted(st, a.hook, a.draw), TURN_KEY, x);
  }

  /** Start such a tool, then stop: one terminal record, and no trace of the tool. */
  lemma StartThenStop(run: seq<Prepared>, a: Prepared, b: Prepared, x: ExecId)
    requires a.hook.event == PreTool("t", TURN_KEY) && b.hook.event == Stop && !b.draw.tokens
    requires var st := Load(Replay(run).state);
             TURN_KEY !in st.pending && TURN_KEY !in st.completed && EnsureExecution(st, a.hook.id).exec == x != NoExec
    ensures var st := Load(Replay(run + [a] + [b]).state);
            TURN_KEY !in st.pending && TURN_KEY !in st.completed && st.exec == x
    ensures Terminals(History(run + [a] + [b]), TURN_KEY, x) == Terminals(History(run), TURN_KEY, x) + 1
  {
    hide Replay;
    StartsUnended(run, a, x);
    ReplayAdd(run + [a], b);
    var mid := Replay(run + [a]).state;
    TerminalsConcat(History(run + [a]), Emitted(mid, b.hook, b.draw), TURN_KEY, x);
    OneTerminal(Emitted(mid, b.hook, b.draw), TURN_KEY, x);
  }

  /** A tool whose use id is `__turn__` shares the turn's slot: a stop ends its
      span without recording the tool as completed, so it can run and end again. */
  lemma StopEndsToolTwice(a: Prepared, b: Prepared, c: Prepared, d: Prepared)
    requires a.hook.event == c.hook.event == PreTool("t", TURN_KEY)
    requires b.hook.event == d.hook.event == Stop && !b.draw.tokens && !d.draw.tokens
    ensures Terminals(History([a, b, c, d]), TURN_KEY, Exec(StartKey(EMPTY, a.hook.id))) == 2
  {
    var x := Exec(StartKey(EMPTY, a.hook.id));
    var none: seq<Prepared> := [];
    StartThenStop(none, a, b, x);
    StartThenStop(none + [a] + [b], c, d, x);
    assert none + [a] + [b] + [c] + [d] == [a, b, c, d];
  }

  lemma OneTerminal(spans: seq<Span>, u: string, x: ExecId)
    requires |spans| == 1
    ensures Terminals(spans, u, x) ==
            if spans[0].toolUseId == u && spans[0].exec == x && spans[0].status != Running then 1 else 0
  {
    assert spans[..0] == [];
  }

  /** Spans without a tool use id are not limited: two permission requests suffice. */
  lemma UnnamedTwice() returns (run: seq<Prepared>)
    ensures Fresh(run) && Terminals(History(run), "", Exec("cc-a")) == 2
  {
    var a, b := Sample("a", 1, Permission("t", false)), Sample("b", 2, Permission("t", false));
    ReplayAdd([], a);
    ReplayAdd([a], b);
    assert [] + [a] == [a] && [a] + [b] == [a, b];
    run := [a, b];
    var x := Exec("cc-a");
    TerminalsConcat([], Emitted(EMPTY, a.hook, a.draw), "", x);
    TerminalsConcat(History([a]), Emitted(Replay([a]).state, b.hook, b.draw), "", x);
    OneTerminal(Emitted(EMPTY, a.hook, a.draw), "", x);
    OneTerminal(Emitted(Replay([a]).state, b.hook, b.draw), "", x);
  }

  /** A tool use id gets at most one terminal span per execution, whatever hooks
      arrive: true of every identifier except the empty one and `__turn__`. */
  lemma OneTerminalPerToolUse(u: string)
    ensures u != "" && u != TURN_KEY <==>
            forall run: seq<Prepared>, x: ExecId :: Fresh(run) ==> Terminals(History(run), u, x) <= 1
  {
    if u == "" {
      var run := UnnamedTwice();
    } else if u == TURN_KEY {
      var tool := PreTool("t", TURN_KEY);
      var a, b, c, d := Sample("", 1, tool), Sample("b", 2, Stop), Sample("cc", 3, tool), Sample("ddd", 4, Stop);
      StopEndsToolTwice(a, b, c, d);
      assert |a.hook.id| == 0 && |b.hook.id| == 1 && |c.hook.id| == 2 && |d.hook.id| == 3;
      assert Fresh([a, b, c, d]);
    } else {
      forall run: seq<Prepared>, x: ExecId | Fresh(run) ensures Terminals(History(run), u, x) <= 1 {
        RunAtMostOnce(run, u);
      }
    }
  }

  // ---- Pending keys and completed tools ----

  ghost predicate Disjoint(st: State) {
    forall k :: k in st.pending ==> k !in st.completed
  }

  /** A tool call without a use id is filed under its tool name, and a turn under
      `__turn__`; either may coincide with a completed use id. */
  predicate FilesUnderCompletedKey(st: State, e: Event) {
    match e
    case PreTool(tool, useId) => useId == "" && tool in st.completed
    case Prompt => TURN_KEY in st.completed
    case _ => false
  }

  /** Pending keys and completed tools stay disjoint, except exactly there. */
  lemma StaysDisjoint(st: State, h: Hook, d: Draw)
    requires !st.closed && Disjoint(st) && (st.exec == NoExec ==> st == EMPTY)
    ensures Disjoint(Handle(st, h, d).state) <==> !FilesUnderCompletedKey(st, h.event)
  {
    var after := Handle(st, h, d).state;
    match h.event
    case Prompt =>
      assert TURN_KEY in after.pending && after.completed == st.completed;
    case PreTool(tool, useId) =>
      if !SkipsPreTool(st, tool, useId) {
        assert PendingKey(tool, useId) in after.pending && after.completed == st.completed;
      }
    case _ =>
  }

  ghost predicate Collides(run: seq<Prepared>, i: nat)
    requires i < |run|
  {
    FilesUnderCompletedKey(Load(Replay(run[..i]).state), run[i].hook.event)
  }

  lemma {:induction false} ExecutionOrNothing(run: seq<Prepared>)
    ensures var st := Load(Replay(run).state); st.exec == NoExec ==> st == EMPTY
    decreases run
  {
    if run != [] {
      ExecutionOrNothing(run[..|run| - 1]);
    }
  }

  /** Pending keys and completed tools stay disjoint all through a run, exactly when no
      hook of it files under a completed key. */
  lemma {:induction false} RunStaysDisjoint(run: seq<Prepared>)
    ensures (forall i :: 0 <= i <= |run| ==> Disjoint(Load(Replay(run[..i]).state))) <==>
            forall i :: 0 <= i < |run| ==> !Collides(run, i)
    decreases run
  {
    hide Replay, Handle, Disjoint, FilesUnderCompletedKey;
    assert run[..|run|] == run;
    if run == [] {
      EmptyDisjoint();
    } else {
      var n := |run| - 1;
      var before := run[..n];
      RunStaysDisjoint(before);
      forall i | 0 <= i <= n ensures before[..i] == run[..i] {
      }
      forall i | 0 <= i < n ensures Collides(before, i) <==> Collides(run, i) {
      }
      if Disjoint(Load(Replay(before).state)) {
        LastStaysDisjoint(run);
      }
    }
  }

  lemma EmptyDisjoint()
    ensures Disjoint(Load(Replay([]).state))
  {
  }

  lemma LastStaysDisjoint(run: seq<Prepared>)
    requires run != [] && Disjoint(Load(Replay(run[..|run| - 1]).state))
    ensures Disjoint(Load(Replay(run).state)) <==> !Collides(run, |run| - 1)
  {
    hide Handle, FilesUnderCompletedKey;
    var st, p := Load(Replay(run[..|run| - 1]).state), run[|run| - 1];
    ExecutionOrNothing(run[..|run| - 1]);
    StaysDisjoint(st, p.hook, p.draw);
    ClosedIsDisjoint(st, p.hook, p.draw);
  }

  lemma ClosedIsDisjoint(st: State, h: Hook, d: Draw)
    requires !st.closed
    ensures Handle(st, h, d).state.closed ==> !FilesUnderCompletedKey(st, h.event)
  {
  }

  /** A tool that completed under the use id "u", then a tool named "u" that has none. */
  lemma PendingMeetsCompleted(a: Prepared, b: Prepared, failed: bool, usage: bool)
    requires a.hook.event == PostTool("x", "u", failed, usage) && b.hook.event == PreTool("u", "")
    ensures !Disjoint(Load(Replay([a, b]).state))
  {
    ReplayAdd([], a);
    ReplayAdd([a], b);
    assert [] + [a] == [a] && [a] + [b] == [a, b];
    var st := Replay([a, b]).state;
    assert "u" in st.pending && "u" in st.completed;
  }

  // ---- What the server accepts ----

  datatype Verdict = Accepted | Rejected(field: string)

  /** The server's check on one span, in the order it is made. Every status and
      span kind the collector emits is one the server knows. */
  function Validate(s: Span): Verdict {
    if (s.status == Running) != (s.endedAt == None) then Rejected("ended_at")
    else if s.exec == NoExec || s.exec.key == "" then Rejected("execution_id")
    else if s.name == "" then Rejected("name")
    else if s.startedAt == 0 then Rejected("started_at")
    else if s.endedAt.Some? && s.endedAt.value < s.startedAt then Rejected("ended_at")
    else Accepted
  }

  /** A tool hook that must name a new span but carries no tool name. */
  predicate Nameless(st: State, e: Event) {
    match e
    case PreTool(tool, useId) => tool == "" && !SkipsPreTool(st, tool, useId)
    case PostTool(tool, useId, _, _) =>
      tool == "" && !AlreadyCompleted(st, tool, useId) && PendingKey(tool, useId) !in st.pending
    case _ => false
  }

  /** The pending entries a hook ends. */
  predicate EndsEntry(st: State, e: Event, key: string) {
    key in st.pending &&
    match e
    case PostTool(tool, useId, _, _) => !AlreadyCompleted(st, tool, useId) && key == PendingKey(tool, useId)
    case Stop => key == TURN_KEY
    case SessionEnd => true
    case _ => false
  }

  /** A hook stamped before the start of a span it ends. */
  ghost predicate Backdated(st: State, h: Hook) {
    exists key :: EndsEntry(st, h.event, key) && st.pending[key].startedAt > h.time
  }

  ghost predicate GoodStarts(st: State) {
    && (forall k :: k in st.pending ==> st.pending[k].name != "" && st.pending[k].startedAt != 0)
    && (st.pending != map[] ==> st.exec != NoExec)
    && (st.exec != NoExec ==> st.exec.key != "")
  }

  ghost predicate AllAccepted(spans: seq<Span>) {
    forall s :: s in spans ==> Validate(s) == Accepted
  }

  lemma PreToolAccepted(st: State, h: Hook, d: Draw)
    requires !st.closed && GoodStarts(st) && h.time != 0 && h.event.PreTool?
    ensures AllAccepted(Emitted(st, h, d)) <==> !Nameless(st, h.event)
    ensures !Nameless(st, h.event) ==> GoodStarts(Handle(st, h, d).state)
  {
    var more := Emitted(st, h, d);
    if Nameless(st, h.event) {
      assert more[0].name == "" && more[0] in more;
    }
  }

  lemma PostToolAccepted(st: State, h: Hook, d: Draw)
    requires !st.closed && GoodStarts(st) && h.time != 0 && h.event.PostTool?
    ensures AllAccepted(Emitted(st, h, d)) <==> !Nameless(st, h.event) && !Backdated(st, h)
    ensures !Nameless(st, h.event) ==> GoodStarts(Handle(st, h, d).state)
  {
    var more := Emitted(st, h, d);
    if !AlreadyCompleted(st, h.event.tool, h.event.useId) {
      assert more[0] in more;
      var key := PendingKey(h.event.tool, h.event.useId);
      assert key in st.pending ==> EndsEntry(st, h.event, key);
    }
  }

  lemma SessionEndAccepted(st: State, h: Hook, d: Draw)
    requires !st.closed && GoodStarts(st) && h.time != 0 && h.event.SessionEnd?
    ensures AllAccepted(Emitted(st, h, d)) <==> !Backdated(st, h)
  {
    var keys := SortedKeys.Sorted(st.pending.Keys);
    CancelledIds(keys, st.pending, st.exec, h.time);
    if Backdated(st, h) {
      var key :| EndsEntry(st, h.event, key) && st.pending[key].startedAt > h.time;
      CancelsEach(keys, st.pending, st.exec, h.time, key);
      assert Validate(Cancel(key, st.pending[key], st.exec, h.time)) != Accepted;
    } else {
      forall k | k in keys ensures Validate(Cancel(k, st.pending[k], st.exec, h.time)) == Accepted {
        assert EndsEntry(st, h.event, k);
      }
    }
  }

  lemma {:induction false} CancelsEach(keys: seq<string>, pending: map<string, SpanStart>, exec: ExecId, time: int, key: string)
    requires key in keys && forall k :: k in keys ==> k in pending
    ensures Cancel(key, pending[key], exec, time) in CancelAll(keys, pending, exec, time)
    decreases keys
  {
    hide Cancel;
    if key != keys[|keys| - 1] {
      CancelsEach(keys[..|keys| - 1], pending, exec, time, key);
    }
  }

  lemma StopAccepted(st: State, h: Hook, d: Draw)
    requires !st.closed && GoodStarts(st) && h.time != 0 && h.event.Stop?
    ensures AllAccepted(Emitted(st, h, d)) <==> !Backdated(st, h)
    ensures GoodStarts(Handle(st, h, d).state)
  {
    var s := EnsureExecution(st, h.id);
    var more := Emitted(st, h, d);
    if TURN_KEY in st.pending {
      assert more[0] == TurnEnded(s, h)[0] && more[0] in more;
      assert EndsEntry(st, h.event, TURN_KEY);
    }
  }

  lemma OtherHookAccepted(st: State, h: Hook, d: Draw)
    requires !st.closed && GoodStarts(st) && h.time != 0
    requires !h.event.PreTool? && !h.event.PostTool? && !h.event.Stop? && !h.event.SessionEnd?
    ensures AllAccepted(Emitted(st, h, d))
    ensures GoodStarts(Handle(st, h, d).state)
  {
  }

  /** A hook emits only spans the server accepts, unless it is nameless or stamped
      before a span it ends; then it emits a rejected one. */
  lemma EmitsAccepted(st: State, h: Hook, d: Draw)
    requires !st.closed && GoodStarts(st) && h.time != 0
    ensures AllAccepted(Emitted(st, h, d)) <==> !Nameless(st, h.event) && !Backdated(st, h)
    ensures !Nameless(st, h.event) ==> GoodStarts(Load(Handle(st, h, d).state))
  {
    hide Handle, Emitted, AllAccepted, GoodStarts;
    EmptyIsGood();
    match h.event
    case PreTool(_, _) => PreToolAccepted(st, h, d);
    case PostTool(_, _, _, _) => PostToolAccepted(st, h, d);
    case Stop => StopAccepted(st, h, d);
    case SessionEnd =>
      SessionEndAccepted(st, h, d);
      EndCloses(st, h, d);
    case _ => OtherHookAccepted(st, h, d);
  }

  lemma EmptyIsGood()
    ensures GoodStarts(EMPTY)
  {
  }

  lemma EndCloses(st: State, h: Hook, d: Draw)
    requires h.event.SessionEnd?
    ensures Handle(st, h, d).state.closed
  {
  }

  lemma AcceptedConcat(a: seq<Span>, b: seq<Span>)
    ensures AllAccepted(a + b) <==> AllAccepted(a) && AllAccepted(b)
  {
    if AllAccepted(a + b) {
      assert forall s :: s in a ==> s in a + b;
      assert forall s :: s in b ==> s in a + b;
    }
  }

  ghost predicate Stamped(run: seq<Prepared>) {
    forall i :: 0 <= i < |run| ==> run[i].hook.time != 0
  }

  ghost predicate NamelessAt(run: seq<Prepared>, i: nat)
    requires i < |run|
  {
    Nameless(Load(Replay(run[..i]).state), run[i].hook.event)
  }

  ghost predicate BackdatedAt(run: seq<Prepared>, i: nat)
    requires i < |run|
  {
    Backdated(Load(Replay(run[..i]).state), run[i].hook)
  }

  ghost predicate WellStamped(run: seq<Prepared>) {
    forall i :: 0 <= i < |run| ==> !NamelessAt(run, i) && !BackdatedAt(run, i)
  }

  lemma WellStampedStep(run: seq<Prepared>)
    requires run != []
    ensures var before, p := run[..|run| - 1], run[|run| - 1];
            var st := Load(Replay(before).state);
            WellStamped(run) <==> WellStamped(before) && !Nameless(st, p.hook.event) && !Backdated(st, p.hook)
  {
    hide Replay, Nameless, Backdated;
    var n := |run| - 1;
    var before := run[..n];
    forall i | 0 <= i < n
      ensures (NamelessAt(before, i) <==> NamelessAt(run, i)) && (BackdatedAt(before, i) <==> BackdatedAt(run, i))
    {
      assert before[..i] == run[..i];
    }
    assert NamelessAt(run, n) <==> Nameless(Load(Replay(before).state), run[n].hook.event);
    assert BackdatedAt(run, n) <==> Backdated(Load(Replay(before).state), run[n].hook);
  }

  /** The server accepts every span of a run exactly when no hook of it is nameless
      or stamped before a span it ends. */
  lemma {:induction false} RunAccepted(run: seq<Prepared>)
    requires Stamped(run)
    ensures AllAccepted(History(run)) <==> WellStamped(run)
    ensures WellStamped(run) ==> GoodStarts(Load(Replay(run).state))
    decreases run
  {
    hide Handle, Emitted, Nameless, Backdated;
    if run != [] {
      var before, p := run[..|run| - 1], run[|run| - 1];
      var st := Load(Replay(before).state);
      RunAccepted(before);
      HistoryExtends(run);
      WellStampedStep(run);
      AcceptedConcat(History(before), Emitted(st, p.hook, p.draw));
      if WellStamped(before) {
        EmitsAccepted(st, p.hook, p.draw);
      }
    }
  }

  // ---- Time stamps in order ----

  ghost predicate InTimeOrder(run: seq<Prepared>) {
    forall i, j :: 0 <= i < j < |run| ==> run[i].hook.time <= run[j].hook.time
  }

  ghost predicate StartedBy(st: State, now: int) {
    forall k :: k in st.pending ==> st.pending[k].startedAt <= now
  }

  lemma HandleStartsBy(st: State, h: Hook, d: Draw)
    requires !st.closed && StartedBy(st, h.time)
    ensures StartedBy(Handle(st, h, d).state, h.time)
  {
  }

  lemma {:induction false} OrderedStarts(run: seq<Prepared>, now: int)
    requires InTimeOrder(run) && (run != [] ==> run[|run| - 1].hook.time <= now)
    ensures StartedBy(Load(Replay(run).state), now)
    decreases run
  {
    hide Handle;
    if run != [] {
      var before, p := run[..|run| - 1], run[|run| - 1];
      OrderedStarts(before, p.hook.time);
      HandleStartsBy(Load(Replay(before).state), p.hook, p.draw);
    }
  }

  /** With time stamps in order, no hook is stamped before a span it ends. */
  lemma InOrderNotBackdated(run: seq<Prepared>, i: nat)
    requires InTimeOrder(run) && i < |run|
    ensures !BackdatedAt(run, i)
  {
    hide Replay;
    OrderedStarts(run[..i], run[i].hook.time);
  }

  /** A tool that starts at 2 and ends at 1: its terminal span is rejected. */
  lemma EarlyEndRejected(a: Prepared, b: Prepared)
    requires a.hook.event == PreTool("t", "u") && b.hook.event == PostTool("t", "u", false, false)
    requires a.hook.time == 2 && b.hook.time == 1
    ensures !AllAccepted(History([a, b]))
  {
    assert [a, b][..1] == [a];
    OneHook(a);
    var st := Replay([a]).state;
    assert BackdatedAt([a, b], 1) by {
      assert EndsEntry(Load(st), b.hook.event, "u") && st.pending["u"].startedAt == 2;
    }
    hide Handle, Replay, BackdatedAt;
    RunAccepted([a, b]);
  }
}

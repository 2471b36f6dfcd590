/** Parents come before children, and are turns. */
module Parentage {
  import opened Telemetry
  import opened Session
  import opened Lifecycle
  import SortedKeys

  /** A RUNNING record of `id` in `exec` has been emitted. */
  ghost predicate Opened(spans: seq<Span>, id: SpanId, exec: ExecId) {
    exists s :: s in spans && s.id == id && s.exec == exec && s.status == Running
  }

  ghost predicate OpenedAsTurn(spans: seq<Span>, id: SpanId, exec: ExecId) {
    exists s :: s in spans && s.id == id && s.exec == exec && s.status == Running && s.kind == Custom && s.name == "turn"
  }

  ghost predicate ParentsFirst(spans: seq<Span>) {
    forall i :: 0 <= i < |spans| && spans[i].parent != NoSpan ==> Opened(spans[..i], spans[i].parent, spans[i].exec)
  }

  ghost predicate ParentsAreTurns(spans: seq<Span>) {
    forall i :: 0 <= i < |spans| && spans[i].parent != NoSpan ==> OpenedAsTurn(spans[..i], spans[i].parent, spans[i].exec)
  }

  /** A stop that reports token usage while the `__turn__` entry belongs to a
      tool call of that name: the usage span is attached to the tool's span. */
  predicate Misparents(st: State, h: Hook, d: Draw) {
    h.event.Stop? && d.tokens && TURN_KEY in st.pending && st.pending[TURN_KEY].id != st.turn
  }

  ghost predicate OpenedOnlyAsTool(spans: seq<Span>, id: SpanId) {
    forall s :: s in spans && s.id == id && s.status == Running ==> s.kind == ToolCall
  }

  ghost predicate Rooted(st: State, spans: seq<Span>) {
    && (st.turn != NoSpan ==> OpenedAsTurn(spans, st.turn, st.exec))
    && (forall k :: k in st.pending ==> Opened(spans, st.pending[k].id, st.exec))
    && (forall k :: k in st.pending && st.pending[k].parent != NoSpan ==> OpenedAsTurn(spans, st.pending[k].parent, st.exec))
    && (TURN_KEY in st.pending && st.pending[TURN_KEY].id != st.turn ==>
          OpenedOnlyAsTool(spans, st.pending[TURN_KEY].id))
    && (st.exec == NoExec ==> st.turn == NoSpan && st.pending == map[])
  }

  lemma OpenedMonotone(spans: seq<Span>, more: seq<Span>, id: SpanId, exec: ExecId)
    ensures Opened(spans, id, exec) ==> Opened(spans + more, id, exec)
    ensures OpenedAsTurn(spans, id, exec) ==> OpenedAsTurn(spans + more, id, exec)
    ensures OpenedAsTurn(spans, id, exec) ==> Opened(spans, id, exec)
  {
    if Opened(spans, id, exec) {
      var s :| s in spans && s.id == id && s.exec == exec && s.status == Running;
      assert s in spans + more;
    }
    if OpenedAsTurn(spans, id, exec) {
      var s :| s in spans && s.id == id && s.exec == exec && s.status == Running && s.kind == Custom && s.name == "turn";
      assert s in spans + more;
    }
  }

  /** Appending spans whose parents are already open keeps the order. */
  lemma AppendParentsFirst(spans: seq<Span>, more: seq<Span>)
    requires ParentsFirst(spans)
    requires forall s :: s in more && s.parent != NoSpan ==> Opened(spans, s.parent, s.exec)
    ensures ParentsFirst(spans + more)
  {
    var all := spans + more;
    forall i | 0 <= i < |all| && all[i].parent != NoSpan ensures Opened(all[..i], all[i].parent, all[i].exec) {
      if i < |spans| {
        assert all[..i] == spans[..i];
      } else {
        assert all[i] in more;
        assert all[..i] == spans + more[..i - |spans|];
        OpenedMonotone(spans, more[..i - |spans|], all[i].parent, all[i].exec);
      }
    }
  }

  lemma AppendParentsAreTurns(spans: seq<Span>, more: seq<Span>)
    requires forall s :: s in more && s.parent != NoSpan ==> OpenedAsTurn(spans, s.parent, s.exec)
    ensures ParentsAreTurns(spans + more) <==> ParentsAreTurns(spans)
  {
    var all := spans + more;
    forall i | 0 <= i < |spans| ensures all[..i] == spans[..i] && all[i] == spans[i] {
    }
    forall i | |spans| <= i < |all| && all[i].parent != NoSpan
      ensures OpenedAsTurn(all[..i], all[i].parent, all[i].exec)
    {
      assert all[i] in more;
      assert all[..i] == spans + more[..i - |spans|];
      OpenedMonotone(spans, more[..i - |spans|], all[i].parent, all[i].exec);
    }
  }

  // ---- One hook ----

  lemma EnsureRooted(st: State, spans: seq<Span>, hookId: string)
    requires !st.closed && Rooted(st, spans)
    ensures Rooted(EnsureExecution(st, hookId), spans)
  {
  }

  /** Every parent a hook names is open in the same execution, and is a turn
      unless the hook is a misparenting stop. */
  lemma EmittedParents(st: State, spans: seq<Span>, h: Hook, d: Draw, s: Span)
    requires !st.closed && Rooted(st, spans)
    requires s in Emitted(st, h, d) && s.parent != NoSpan
    ensures Opened(spans, s.parent, s.exec)
    ensures !Misparents(st, h, d) ==> OpenedAsTurn(spans, s.parent, s.exec)
  {
    EnsureRooted(st, spans, h.id);
    OpenedMonotone(spans, [], s.parent, s.exec);
    if h.event.SessionEnd? {
      CancelledIds(SortedKeys.Sorted(st.pending.Keys), st.pending, st.exec, h.time);
    }
  }

  lemma RootedMonotone(st: State, spans: seq<Span>, more: seq<Span>)
    requires Rooted(st, spans)
    requires TURN_KEY in st.pending ==>
               forall s :: s in more && s.status == Running ==> s.id != st.pending[TURN_KEY].id
    ensures Rooted(st, spans + more)
  {
    OpenedMonotone(spans, more, st.turn, st.exec);
    forall k | k in st.pending
      ensures Opened(spans + more, st.pending[k].id, st.exec)
      ensures st.pending[k].parent != NoSpan ==> OpenedAsTurn(spans + more, st.pending[k].parent, st.exec)
    {
      OpenedMonotone(spans, more, st.pending[k].id, st.exec);
      OpenedMonotone(spans, more, st.pending[k].parent, st.exec);
    }
  }

  /** Dropping entries, or the turn, forgets obligations only. */
  lemma RootedShrinks(st: State, st': State, spans: seq<Span>)
    requires Rooted(st, spans) && st'.exec == st.exec
    requires forall k :: k in st'.pending ==> k in st.pending && st'.pending[k] == st.pending[k]
    requires st'.turn == st.turn || (st'.turn == NoSpan && TURN_KEY !in st'.pending)
    ensures Rooted(st', spans)
  {
    if st.exec == NoExec {
      assert forall k :: k !in st'.pending;
    }
  }

  lemma HookRooted(st: State, spans: seq<Span>, h: Hook, d: Draw)
    requires !st.closed && Rooted(st, spans)
    requires forall s :: s in spans ==> s.id != SpanId(d.seed, 0)
    ensures Rooted(Load(Handle(st, h, d).state), spans + Emitted(st, h, d))
  {
    EnsureRooted(st, spans, h.id);
    var s := EnsureExecution(st, h.id);
    var more := Emitted(st, h, d);
    if TURN_KEY in st.pending {
      var t :| t in spans && t.id == st.pending[TURN_KEY].id && t.status == Running;
    }
    match h.event
    case SessionStart => RootedMonotone(s, spans, more);
    case Permission(_, _) => RootedMonotone(s, spans, more);
    case SubagentStop(_) => RootedMonotone(s, spans, more);
    case Notify => RootedMonotone(st, spans, more);
    case SessionEnd =>
    case Stop =>
      RootedMonotone(s, spans, more);
      RootedShrinks(s, Handle(st, h, d).state, spans + more);
    case Prompt => PromptRooted(st, spans, h, d);
    case PreTool(tool, useId) =>
      if SkipsPreTool(st, tool, useId) {
        RootedMonotone(st, spans, more);
      } else {
        RootedMonotone(s, spans, more);
        PreToolRooted(st, spans, h, d);
      }
    case PostTool(tool, useId, failed, usage) =>
      if AlreadyCompleted(st, tool, useId) {
        RootedMonotone(st, spans, more);
      } else {
        RootedMonotone(s, spans, more);
        RootedShrinks(s, PostToolState(st, h), spans + more);
      }
  }

  lemma PromptRooted(st: State, spans: seq<Span>, h: Hook, d: Draw)
    requires !st.closed && h.event.Prompt?
    requires Rooted(EnsureExecution(st, h.id), spans)
    requires forall s :: s in spans ==> s.id != SpanId(d.seed, 0)
    ensures Rooted(PromptState(st, h, d), spans + [TurnRunning(EnsureExecution(st, h.id).exec, h, d)])
  {
    var s := EnsureExecution(st, h.id);
    var more := [TurnRunning(s.exec, h, d)];
    RootedShrinks(s, s.(turn := NoSpan, pending := s.pending - {TURN_KEY}), spans);
    RootedMonotone(s.(turn := NoSpan, pending := s.pending - {TURN_KEY}), spans, more);
    assert more[0] in spans + more;
    var after := PromptState(st, h, d);
    forall k | k in after.pending
      ensures Opened(spans + more, after.pending[k].id, after.exec)
      ensures after.pending[k].parent != NoSpan ==> OpenedAsTurn(spans + more, after.pending[k].parent, after.exec)
    {
      assert k != TURN_KEY ==> k in s.pending - {TURN_KEY};
    }
  }

  lemma PreToolRooted(st: State, spans: seq<Span>, h: Hook, d: Draw)
    requires !st.closed && h.event.PreTool? && !SkipsPreTool(st, h.event.tool, h.event.useId)
    requires Rooted(EnsureExecution(st, h.id), spans + Emitted(st, h, d))
    requires forall s :: s in spans ==> s.id != SpanId(d.seed, 0)
    ensures Rooted(PreToolState(st, h, d), spans + Emitted(st, h, d))
  {
    var more := Emitted(st, h, d);
    var after := PreToolState(st, h, d);
    var key := PendingKey(h.event.tool, h.event.useId);
    assert more == [PreToolSpan(after, h)] && more[0] in spans + more;
    assert after.pending[key].parent == after.turn;
  }

  // ---- Every run ----

  lemma {:induction false} RunRooted(run: seq<Prepared>)
    requires Fresh(run)
    ensures Rooted(Load(Replay(run).state), History(run))
    decreases run
  {
    hide Handle, Emitted;
    if run != [] {
      var before := run[..|run| - 1];
      var p := run[|run| - 1];
      assert forall i :: 0 <= i < |before| ==> before[i] == run[i];
      RunRooted(before);
      RunTracked(before);
      HistoryExtends(run);
      HookRooted(Load(Replay(before).state), History(before), p.hook, p.draw);
    }
  }

  /** In every run, the parent an emitted span names was emitted RUNNING
      earlier in the same execution. */
  lemma {:induction false} ParentBeforeChild(run: seq<Prepared>)
    requires Fresh(run)
    ensures ParentsFirst(History(run))
    decreases run
  {
    hide Handle, Emitted;
    if run != [] {
      var before := run[..|run| - 1];
      var p := run[|run| - 1];
      assert forall i :: 0 <= i < |before| ==> before[i] == run[i];
      ParentBeforeChild(before);
      RunRooted(before);
      HistoryExtends(run);
      var st := Load(Replay(before).state);
      forall s | s in Emitted(st, p.hook, p.draw) && s.parent != NoSpan
        ensures Opened(History(before), s.parent, s.exec)
      {
        EmittedParents(st, History(before), p.hook, p.draw, s);
      }
      AppendParentsFirst(History(before), Emitted(st, p.hook, p.draw));
    }
  }

  ghost predicate MisparentsAt(run: seq<Prepared>, i: nat)
    requires i < |run|
  {
    Misparents(Load(Replay(run[..i]).state), run[i].hook, run[i].draw)
  }

  /** Those parents are turn spans exactly when no stop reports token usage
      while a tool call holds the `__turn__` entry. */
  lemma {:induction false} ParentIsTurn(run: seq<Prepared>)
    requires Fresh(run)
    ensures ParentsAreTurns(History(run)) <==> forall i :: 0 <= i < |run| ==> !MisparentsAt(run, i)
    decreases run
  {
    hide Handle, Emitted;
    if run != [] {
      var n := |run| - 1;
      var before, p := run[..n], run[n];
      assert forall i :: 0 <= i < n ==> before[i] == run[i];
      ParentIsTurn(before);
      RunRooted(before);
      RunTracked(before);
      HistoryExtends(run);
      forall i | 0 <= i < n ensures MisparentsAt(before, i) <==> MisparentsAt(run, i) {
        assert before[..i] == run[..i];
      }
      var st := Load(Replay(before).state);
      var more := Emitted(st, p.hook, p.draw);
      if MisparentsAt(run, n) {
        UsageUnderTool(History(before), st, p.hook, p.draw);
      } else {
        forall s | s in more && s.parent != NoSpan ensures OpenedAsTurn(History(before), s.parent, s.exec) {
          EmittedParents(st, History(before), p.hook, p.draw, s);
        }
        AppendParentsAreTurns(History(before), more);
      }
    }
  }

  /** A tool with the use id `__turn__`, and a stop that reports its tokens: the usage
      span's parent is the tool call. */
  lemma UsageNotUnderTurn(a: Prepared, b: Prepared)
    requires a.hook.event == PreTool("t", TURN_KEY) && b.hook.event == Stop && b.draw.tokens
    requires Fresh([a, b])
    ensures !ParentsAreTurns(History([a, b]))
  {
    ParentIsTurn([a, b]);
    ReplayAdd([], a);
    assert [a, b][..1] == [] + [a] && [a, b][1] == b;
    assert MisparentsAt([a, b], 1);
  }

  lemma UsageUnderTool(spans: seq<Span>, st: State, h: Hook, d: Draw)
    requires !st.closed && Rooted(st, spans) && Misparents(st, h, d)
    requires forall s :: s in spans ==> s.id.SpanId?
    ensures !ParentsAreTurns(spans + Emitted(st, h, d))
  {
    var more := Emitted(st, h, d);
    var all := spans + more;
    var i := |spans| + 1;
    var id := st.pending[TURN_KEY].id;
    assert all[i] == more[1] && all[i].parent == id;
    var t :| t in spans && t.id == id && t.status == Running;
    assert all[..i] == spans + [more[0]];
    assert forall u :: u in all[..i] ==> u in spans || u == more[0];
  }
}

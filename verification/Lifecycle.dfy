/** Every run of hooks over one session, and what it does to the spans it opens. */
module Lifecycle {
  import opened Telemetry
  import opened Session
  import opened SortedKeys

  /** A hook together with what its surviving preparation drew. */
  datatype Prepared = Prepared(hook: Hook, draw: Draw)

  /** The state a hook is handled against: a closed session counts as a missing one. */
  function Load(st: State): State {
    if st.closed then EMPTY else st
  }

  /** The crash-free run: handle the hooks one after the other. */
  ghost function Replay(run: seq<Prepared>): Result {
    if run == [] then Result(EMPTY, [])
    else
      var before := Replay(run[..|run| - 1]);
      var p := run[|run| - 1];
      var r := Handle(Load(before.state), p.hook, p.draw);
      Result(r.state, before.ops + r.ops)
  }

  /** Hook identifiers and preparation draws never repeat. */
  ghost predicate Fresh(run: seq<Prepared>) {
    forall i, j :: 0 <= i < j < |run| ==>
      run[i].hook.id != run[j].hook.id && run[i].draw.seed != run[j].draw.seed
  }

  ghost function History(run: seq<Prepared>): seq<Span> {
    SpansOf(Replay(run).ops)
  }

  lemma HistoryExtends(run: seq<Prepared>)
    requires run != []
    ensures var before := run[..|run| - 1];
            var p := run[|run| - 1];
            History(run) == History(before) + Emitted(Load(Replay(before).state), p.hook, p.draw)
  {
    var before := run[..|run| - 1];
    var p := run[|run| - 1];
    SpansOfConcat(Replay(before).ops, Handle(Load(Replay(before).state), p.hook, p.draw).ops);
    HandleEmits(Load(Replay(before).state), p.hook, p.draw);
  }

  function Sample(id: string, seed: nat, e: Event): Prepared {
    Prepared(Hook(id, "s", e, 1), Draw(seed, 0, _ => 0, false))
  }

  lemma ReplayAdd(run: seq<Prepared>, p: Prepared)
    ensures Replay(run + [p]).state == Handle(Load(Replay(run).state), p.hook, p.draw).state
    ensures History(run + [p]) == History(run) + Emitted(Load(Replay(run).state), p.hook, p.draw)
  {
    assert (run + [p])[..|run|] == run;
    HistoryExtends(run + [p]);
  }

  // ---- The life of one span ----

  datatype Phase = Unseen | Open | Ended | Broken

  function Advance(p: Phase, s: Status): Phase {
    match (p, s)
    case (Unseen, Running) => Open
    case (Unseen, _) => Ended
    case (Open, Running) => Broken
    case (Open, _) => Ended
    case _ => Broken
  }

  /** Unseen; open after one RUNNING record; ended by its one terminal record;
      broken by anything else. */
  function PhaseOf(spans: seq<Span>, id: SpanId): Phase {
    if spans == [] then Unseen
    else
      var before := PhaseOf(spans[..|spans| - 1], id);
      if spans[|spans| - 1].id == id then Advance(before, spans[|spans| - 1].status) else before
  }

  lemma PhaseAdd(spans: seq<Span>, s: Span, id: SpanId)
    ensures PhaseOf(spans + [s], id) ==
            if s.id == id then Advance(PhaseOf(spans, id), s.status) else PhaseOf(spans, id)
  {
    assert (spans + [s])[..|spans|] == spans;
  }

  lemma {:induction false} UnseenIfAbsent(spans: seq<Span>, id: SpanId)
    requires forall s :: s in spans ==> s.id != id
    ensures PhaseOf(spans, id) == Unseen
  {
    if spans != [] {
      UnseenIfAbsent(spans[..|spans| - 1], id);
    }
  }

  // ---- What is open is what the state remembers, plus overwritten turns ----

  ghost predicate IsPending(st: State, id: SpanId) {
    exists k :: k in st.pending && st.pending[k].id == id
  }

  /** Turn spans a second prompt replaced before the first turn was stopped. */
  ghost function Overwritten(run: seq<Prepared>): set<SpanId> {
    if run == [] then {}
    else
      var st := Load(Replay(run[..|run| - 1]).state);
      Overwritten(run[..|run| - 1]) +
      if run[|run| - 1].hook.event.Prompt? && TURN_KEY in st.pending
      then {st.pending[TURN_KEY].id} else {}
  }

  ghost predicate Tracked(st: State, spans: seq<Span>, leaked: set<SpanId>) {
    && (forall id :: PhaseOf(spans, id) != Broken)
    && (forall id :: PhaseOf(spans, id) == Open <==> IsPending(st, id) || id in leaked)
    && (forall k :: k in st.pending ==> st.pending[k].id !in leaked)
    && (forall j, k :: j in st.pending && k in st.pending && j != k ==> st.pending[j].id != st.pending[k].id)
    && (st.pending != map[] ==> st.exec != NoExec)
  }

  ghost predicate DrawnFrom(spans: seq<Span>, seeds: set<nat>) {
    forall s :: s in spans ==> s.id.SpanId? && s.id.seed in seeds
  }

  lemma FreshUnseen(spans: seq<Span>, seeds: set<nat>, id: SpanId)
    requires DrawnFrom(spans, seeds) && id.SpanId? && id.seed !in seeds
    ensures PhaseOf(spans, id) == Unseen
  {
    UnseenIfAbsent(spans, id);
  }

  /** A span that starts and ends in one record. */
  lemma EmitInstant(st: State, spans: seq<Span>, leaked: set<SpanId>, s: Span)
    requires Tracked(st, spans, leaked) && PhaseOf(spans, s.id) == Unseen && s.status != Running
    ensures Tracked(st, spans + [s], leaked)
  {
    forall id ensures PhaseOf(spans + [s], id) == if id == s.id then Ended else PhaseOf(spans, id) {
      PhaseAdd(spans, s, id);
    }
  }

  /** A span that opens under `key`; an entry already there is overwritten. */
  lemma EmitRunning(st: State, spans: seq<Span>, leaked: set<SpanId>, s: Span, key: string, start: SpanStart)
    requires Tracked(st, spans, leaked) && PhaseOf(spans, s.id) == Unseen && s.status == Running
    requires start.id == s.id && st.exec != NoExec
    ensures Tracked(st.(pending := st.pending[key := start]), spans + [s],
                    leaked + if key in st.pending then {st.pending[key].id} else {})
  {
    var st' := st.(pending := st.pending[key := start]);
    var leaked' := leaked + if key in st.pending then {st.pending[key].id} else {};
    forall k | k in st.pending ensures PhaseOf(spans, st.pending[k].id) == Open {
      assert IsPending(st, st.pending[k].id);
    }
    forall id
      ensures PhaseOf(spans + [s], id) != Broken
      ensures PhaseOf(spans + [s], id) == Open <==> IsPending(st', id) || id in leaked'
    {
      PhaseAdd(spans, s, id);
      if id == s.id {
        assert st'.pending[key].id == id;
      } else {
        if IsPending(st, id) {
          var k :| k in st.pending && st.pending[k].id == id;
          if k != key {
            assert k in st'.pending && st'.pending[k].id == id;
          }
        }
        if IsPending(st', id) {
          var k :| k in st'.pending && st'.pending[k].id == id;
          assert k in st.pending && st.pending[k].id == id;
        }
      }
    }
  }

  /** The entry under `key` ends and is forgotten. */
  lemma EmitTerminal(st: State, spans: seq<Span>, leaked: set<SpanId>, s: Span, key: string)
    requires Tracked(st, spans, leaked) && s.status != Running
    requires key in st.pending && st.pending[key].id == s.id
    ensures Tracked(st.(pending := st.pending - {key}), spans + [s], leaked)
  {
    var st' := st.(pending := st.pending - {key});
    assert IsPending(st, s.id);
    forall id
      ensures PhaseOf(spans + [s], id) != Broken
      ensures PhaseOf(spans + [s], id) == Open <==> IsPending(st', id) || id in leaked
    {
      PhaseAdd(spans, s, id);
      if IsPending(st, id) && id != s.id {
        var k :| k in st.pending && st.pending[k].id == id;
        assert k in st'.pending && st'.pending[k].id == id;
      }
      if IsPending(st', id) {
        var k :| k in st'.pending && st'.pending[k].id == id;
        assert k in st.pending && st.pending[k].id == id;
      }
    }
  }

  function Without(pending: map<string, SpanStart>, keys: seq<string>): map<string, SpanStart> {
    map k | k in pending && k !in keys :: pending[k]
  }

  lemma CancelOne(st: State, sent: seq<Span>, leaked: set<SpanId>, front: seq<string>, k: string, time: int)
    requires Tracked(st.(pending := Without(st.pending, front)), sent, leaked)
    requires k in st.pending && k !in front
    ensures Tracked(st.(pending := Without(st.pending, front + [k])),
                    sent + [Cancel(k, st.pending[k], st.exec, time)], leaked)
  {
    var mid := st.(pending := Without(st.pending, front));
    EmitTerminal(mid, sent, leaked, Cancel(k, st.pending[k], st.exec, time), k);
    assert Without(st.pending, front) - {k} == Without(st.pending, front + [k]);
  }

  lemma WithoutNothing(pending: map<string, SpanStart>)
    ensures Without(pending, []) == pending
  {
  }

  /** Cancelling keys one by one forgets exactly them. */
  lemma {:induction false} EmitCancelled(st: State, spans: seq<Span>, leaked: set<SpanId>, keys: seq<string>, time: int)
    requires Tracked(st, spans, leaked) && Ascending(keys)
    requires forall k :: k in keys ==> k in st.pending
    ensures Tracked(st.(pending := Without(st.pending, keys)),
                    spans + CancelAll(keys, st.pending, st.exec, time), leaked)
    decreases keys
  {
    hide Tracked, Cancel, Without;
    var pending := st.pending;
    WithoutNothing(pending);
    if keys == [] {
      assert spans + CancelAll(keys, pending, st.exec, time) == spans;
    } else {
      var n := |keys| - 1;
      var k, front := keys[n], keys[..n];
      EmitCancelled(st, spans, leaked, front, time);
      assert k !in front by {
        if k in front {
          var i :| 0 <= i < n && front[i] == k;
          AscendingDistinct(keys, i, n);
        }
      }
      CancelOne(st, spans + CancelAll(front, pending, st.exec, time), leaked, front, k, time);
      assert front + [k] == keys;
      assert spans + CancelAll(front, pending, st.exec, time) + [Cancel(k, pending[k], st.exec, time)]
        == spans + CancelAll(keys, pending, st.exec, time);
    }
  }

  // ---- One hook ----

  /** Parts of the state the tracking relation does not look at. */
  lemma SameTracking(st: State, st': State, spans: seq<Span>, leaked: set<SpanId>)
    requires Tracked(st, spans, leaked) && st'.pending == st.pending
    requires st.exec != NoExec ==> st'.exec != NoExec
    ensures Tracked(st', spans, leaked)
  {
    forall id ensures IsPending(st, id) <==> IsPending(st', id) {
    }
  }

  ghost function NewlyOverwritten(st: State, h: Hook): set<SpanId> {
    if h.event.Prompt? && TURN_KEY in st.pending then {st.pending[TURN_KEY].id} else {}
  }

  lemma HookTracked(st: State, spans: seq<Span>, leaked: set<SpanId>, seeds: set<nat>, h: Hook, d: Draw)
    requires !st.closed && Tracked(st, spans, leaked)
    requires DrawnFrom(spans, seeds) && d.seed !in seeds
    ensures Tracked(Load(Handle(st, h, d).state), spans + Emitted(st, h, d), leaked + NewlyOverwritten(st, h))
  {
    var s := EnsureExecution(st, h.id);
    SameTracking(st, s, spans, leaked);
    FreshUnseen(spans, seeds, SpanId(d.seed, 0));
    FreshUnseen(spans, seeds, SpanId(d.seed, 1));
    assert spans + [] == spans && leaked + {} == leaked;
    match h.event
    case SessionStart =>
    case Notify =>
    case Prompt =>
      PromptTracked(st, spans, leaked, h, d);
    case PreTool(tool, useId) =>
      if !SkipsPreTool(st, tool, useId) {
        PreToolTracked(st, spans, leaked, h, d);
      }
    case PostTool(tool, useId, failed, usage) =>
      if !AlreadyCompleted(st, tool, useId) {
        PostToolTracked(st, spans, leaked, h, d);
      }
    case Permission(_, _) =>
      EmitInstant(s, spans, leaked, Emitted(st, h, d)[0]);
    case SubagentStop(_) =>
      EmitInstant(s, spans, leaked, Emitted(st, h, d)[0]);
    case Stop =>
      StopTracked(st, spans, leaked, h, d);
    case SessionEnd =>
      SessionEndTracked(st, spans, leaked, h, d);
  }

  lemma PromptTracked(st: State, spans: seq<Span>, leaked: set<SpanId>, h: Hook, d: Draw)
    requires !st.closed && Tracked(st, spans, leaked) && h.event.Prompt?
    requires PhaseOf(spans, SpanId(d.seed, 0)) == Unseen
    ensures Tracked(PromptState(st, h, d), spans + Emitted(st, h, d), leaked + NewlyOverwritten(st, h))
  {
    var s := EnsureExecution(st, h.id);
    SameTracking(st, s, spans, leaked);
    var t := TurnRunning(s.exec, h, d);
    EmitRunning(s, spans, leaked, t, TURN_KEY, SpanStart(t.id, "turn", h.time, NoSpan, ""));
    var mid := s.(pending := s.pending[TURN_KEY := SpanStart(t.id, "turn", h.time, NoSpan, "")]);
    SameTracking(mid, PromptState(st, h, d), spans + [t], leaked + NewlyOverwritten(st, h));
  }

  lemma PreToolTracked(st: State, spans: seq<Span>, leaked: set<SpanId>, h: Hook, d: Draw)
    requires !st.closed && Tracked(st, spans, leaked)
    requires h.event.PreTool? && !SkipsPreTool(st, h.event.tool, h.event.useId)
    requires PhaseOf(spans, SpanId(d.seed, 0)) == Unseen
    ensures Tracked(PreToolState(st, h, d), spans + [PreToolSpan(PreToolState(st, h, d), h)], leaked)
  {
    var s := EnsureExecution(st, h.id);
    SameTracking(st, s, spans, leaked);
    var after := PreToolState(st, h, d);
    var key := PendingKey(h.event.tool, h.event.useId);
    EmitRunning(s, spans, leaked, PreToolSpan(after, h), key, after.pending[key]);
    assert leaked + {} == leaked;
    assert s.pending[key := after.pending[key]] == after.pending;
    SameTracking(s.(pending := s.pending[key := after.pending[key]]), after, spans + [PreToolSpan(after, h)], leaked);
  }

  lemma PostToolTracked(st: State, spans: seq<Span>, leaked: set<SpanId>, h: Hook, d: Draw)
    requires !st.closed && Tracked(st, spans, leaked)
    requires h.event.PostTool?
    requires PhaseOf(spans, SpanId(d.seed, 0)) == PhaseOf(spans, SpanId(d.seed, 1)) == Unseen
    ensures Tracked(PostToolState(st, h), spans + PostToolSpans(st, h, d), leaked)
  {
    var key := PendingKey(h.event.tool, h.event.useId);
    var out := PostToolSpans(st, h, d);
    var mid := st.(pending := st.pending - {key});
    if key in st.pending {
      EmitTerminal(st, spans, leaked, out[0], key);
      assert IsPending(st, out[0].id);
    } else {
      assert st.pending - {key} == st.pending;
      EmitInstant(st, spans, leaked, out[0]);
    }
    PhaseAdd(spans, out[0], SpanId(d.seed, 1));
    if h.event.usage {
      EmitInstant(mid, spans + [out[0]], leaked, out[1]);
      assert spans + [out[0]] + [out[1]] == spans + out;
    } else {
      assert spans + [out[0]] == spans + out;
    }
    SameTracking(mid, PostToolState(st, h), spans + out, leaked);
  }

  lemma StopTracked(st: State, spans: seq<Span>, leaked: set<SpanId>, h: Hook, d: Draw)
    requires !st.closed && Tracked(st, spans, leaked) && h.event.Stop?
    requires PhaseOf(spans, SpanId(d.seed, 0)) == Unseen
    ensures Tracked(Handle(st, h, d).state, spans + Emitted(st, h, d), leaked)
  {
    var s := EnsureExecution(st, h.id);
    SameTracking(st, s, spans, leaked);
    var ended, usage := TurnEnded(s, h), TurnUsage(s, h, d);
    var mid := s.(pending := s.pending - {TURN_KEY});
    if TURN_KEY in s.pending {
      EmitTerminal(s, spans, leaked, ended[0], TURN_KEY);
      assert IsPending(st, ended[0].id);
      PhaseAdd(spans, ended[0], SpanId(d.seed, 0));
    } else {
      assert s.pending - {TURN_KEY} == s.pending;
      assert spans + ended == spans;
    }
    if d.tokens {
      EmitInstant(mid, spans + ended, leaked, usage[0]);
    }
    assert spans + ended + usage == spans + (ended + usage);
    assert usage == [] ==> spans + ended + usage == spans + ended;
    SameTracking(mid, Handle(st, h, d).state, spans + (ended + usage), leaked);
  }

  lemma SessionEndTracked(st: State, spans: seq<Span>, leaked: set<SpanId>, h: Hook, d: Draw)
    requires !st.closed && Tracked(st, spans, leaked) && h.event.SessionEnd?
    ensures Tracked(EMPTY, spans + Emitted(st, h, d), leaked)
  {
    var keys := Sorted(st.pending.Keys);
    if st.exec == NoExec {
      assert st.pending == map[];
      assert spans + [] == spans;
      SameTracking(st, EMPTY, spans, leaked);
    } else {
      EmitCancelled(st, spans, leaked, keys, h.time);
      assert Without(st.pending, keys) == map[];
      SameTracking(st.(pending := map[]), EMPTY.(exec := st.exec), spans + Emitted(st, h, d), leaked);
      forall id ensures !IsPending(EMPTY, id) {
      }
    }
  }

  lemma EmittedDraws(st: State, spans: seq<Span>, leaked: set<SpanId>, seeds: set<nat>, h: Hook, d: Draw)
    requires !st.closed && Tracked(st, spans, leaked) && DrawnFrom(spans, seeds)
    ensures DrawnFrom(spans + Emitted(st, h, d), seeds + {d.seed})
  {
    forall k | k in st.pending
      ensures st.pending[k].id.SpanId? && st.pending[k].id.seed in seeds
    {
      assert IsPending(st, st.pending[k].id);
      if forall s :: s in spans ==> s.id != st.pending[k].id {
        UnseenIfAbsent(spans, st.pending[k].id);
      }
    }
    if h.event.SessionEnd? {
      var keys := Sorted(st.pending.Keys);
      CancelledIds(keys, st.pending, st.exec, h.time);
    }
  }

  lemma {:induction false} CancelledIds(keys: seq<string>, pending: map<string, SpanStart>, exec: ExecId, time: int)
    requires forall k :: k in keys ==> k in pending
    ensures forall s :: s in CancelAll(keys, pending, exec, time) ==>
              exists k :: k in keys && s == Cancel(k, pending[k], exec, time)
  {
    if keys != [] {
      CancelledIds(keys[..|keys| - 1], pending, exec, time);
    }
  }

  // ---- Every run ----

  ghost function Seeds(run: seq<Prepared>): set<nat> {
    set i | 0 <= i < |run| :: run[i].draw.seed
  }

  lemma {:induction false} RunTracked(run: seq<Prepared>)
    requires Fresh(run)
    ensures Tracked(Load(Replay(run).state), History(run), Overwritten(run))
    ensures DrawnFrom(History(run), Seeds(run))
    decreases run
  {
    if run == [] {
    } else {
      var before := run[..|run| - 1];
      var p := run[|run| - 1];
      assert forall i :: 0 <= i < |before| ==> before[i] == run[i];
      RunTracked(before);
      HistoryExtends(run);
      var st := Load(Replay(before).state);
      HookTracked(st, History(before), Overwritten(before), Seeds(before), p.hook, p.draw);
      EmittedDraws(st, History(before), Overwritten(before), Seeds(before), p.hook, p.draw);
      assert Seeds(run) == Seeds(before) + {p.draw.seed};
    }
  }

  // ---- The same, said about positions in the emitted history ----

  /** An unbroken life is at most one RUNNING record at `i` followed by at most
      one terminal record at `j` (-1 where there is none). */
  lemma {:induction false} PhaseMeaning(spans: seq<Span>, id: SpanId) returns (i: int, j: int)
    requires PhaseOf(spans, id) != Broken
    ensures forall k :: 0 <= k < |spans| && spans[k].id == id ==> k == i || k == j
    ensures PhaseOf(spans, id) == Unseen ==> i == j == -1
    ensures PhaseOf(spans, id) == Open ==> 0 <= i < |spans| && spans[i].id == id && spans[i].status == Running && j == -1
    ensures PhaseOf(spans, id) == Ended ==>
              && 0 <= j < |spans| && spans[j].id == id && spans[j].status != Running
              && (i == -1 || (0 <= i < j && spans[i].id == id && spans[i].status == Running))
    decreases spans
  {
    if spans == [] {
      i, j := -1, -1;
    } else {
      var n := |spans| - 1;
      i, j := PhaseMeaning(spans[..n], id);
      if spans[n].id == id {
        if spans[n].status == Running {
          i := n;
        } else {
          j := n;
        }
      }
    }
  }

  ghost predicate EndsOnceAfter(spans: seq<Span>, i: nat)
    requires i < |spans|
  {
    exists j :: i < j < |spans| && spans[j].id == spans[i].id && spans[j].status != Running &&
      forall k :: i < k < |spans| && spans[k].id == spans[i].id ==> k == j
  }

  /** Every span emitted RUNNING is remembered as pending, was overwritten by a
      second prompt, or has exactly one later record, which is terminal; never
      two of these. */
  lemma SpanLifecycle(run: seq<Prepared>, i: nat)
    requires Fresh(run) && i < |History(run)| && History(run)[i].status == Running
    ensures var id := History(run)[i].id;
            var open := IsPending(Load(Replay(run).state), id) || id in Overwritten(run);
            && (open <==> forall j :: 0 <= j < |History(run)| && History(run)[j].id == id ==> j == i)
            && (!open <==> EndsOnceAfter(History(run), i))
            && !(IsPending(Load(Replay(run).state), id) && id in Overwritten(run))
  {
    RunTracked(run);
    var spans := History(run);
    var i', j := PhaseMeaning(spans, spans[i].id);
    assert i == i';
    var st := Load(Replay(run).state);
    if IsPending(st, spans[i].id) {
      var k :| k in st.pending && st.pending[k].id == spans[i].id;
    }
  }

  /** After a session end the only spans left open are the overwritten turns. */
  lemma SessionEndLeavesOnlyOverwritten(run: seq<Prepared>, i: nat)
    requires Fresh(run) && run != [] && run[|run| - 1].hook.event.SessionEnd?
    requires i < |History(run)| && History(run)[i].status == Running
    ensures EndsOnceAfter(History(run), i) <==> History(run)[i].id !in Overwritten(run)
  {
    SpanLifecycle(run, i);
    assert Replay(run).state.closed;
  }

  ghost predicate OverlapsAt(run: seq<Prepared>, i: nat)
    requires i < |run|
  {
    run[i].hook.event.Prompt? && TURN_KEY in Load(Replay(run[..i]).state).pending
  }

  /** Nothing is overwritten exactly when no prompt arrives while a turn is pending. */
  lemma {:induction false} NothingOverwritten(run: seq<Prepared>)
    ensures Overwritten(run) == {} <==> forall i :: 0 <= i < |run| ==> !OverlapsAt(run, i)
    decreases run
  {
    hide Handle;
    if run != [] {
      var n := |run| - 1;
      var before := run[..n];
      NothingOverwritten(before);
      forall i | 0 <= i < n ensures OverlapsAt(before, i) <==> OverlapsAt(run, i) {
        assert before[..i] == run[..i];
      }
      assert OverlapsAt(run, n) ==> Load(Replay(before).state).pending[TURN_KEY].id in Overwritten(run);
    }
  }

  lemma OverwrittenStaysOpen(run: seq<Prepared>, id: SpanId) returns (i: nat)
    requires Fresh(run) && id in Overwritten(run)
    ensures i < |History(run)| && History(run)[i].id == id && History(run)[i].status == Running
    ensures !EndsOnceAfter(History(run), i)
  {
    RunTracked(run);
    var first, j := PhaseMeaning(History(run), id);
    i := first;
    SpanLifecycle(run, i);
  }

  /** A session end leaves no span RUNNING exactly when no prompt of the run
      arrived while a turn was pending. */
  lemma SessionEndEndsAll(run: seq<Prepared>)
    requires Fresh(run) && run != [] && run[|run| - 1].hook.event.SessionEnd?
    ensures (forall i :: 0 <= i < |History(run)| && History(run)[i].status == Running ==> EndsOnceAfter(History(run), i))
            <==> forall i :: 0 <= i < |run| ==> !OverlapsAt(run, i)
  {
    hide EndsOnceAfter, OverlapsAt, Overwritten, Replay, History;
    NothingOverwritten(run);
    forall i | 0 <= i < |History(run)| && History(run)[i].status == Running
      ensures EndsOnceAfter(History(run), i) <==> History(run)[i].id !in Overwritten(run)
    {
      SessionEndLeavesOnlyOverwritten(run, i);
    }
    if Overwritten(run) != {} {
      var id :| id in Overwritten(run);
      var i := OverwrittenStaysOpen(run, id);
    }
  }

  /** Two prompts and a session end: the first turn stays RUNNING. */
  lemma FirstTurnStaysRunning(a: Prepared, b: Prepared, c: Prepared)
    requires Fresh([a, b, c]) && a.hook.event == b.hook.event == Prompt && c.hook.event == SessionEnd
    ensures var spans := History([a, b, c]);
            && |spans| > 0 && spans[0].id == SpanId(a.draw.seed, 0) && spans[0].status == Running
            && forall j :: 0 < j < |spans| ==> spans[j].id != spans[0].id
  {
    var run := [a, b, c];
    FirstHistory(a, b, c);
    SecondOverwrites(a, b);
    hide Handle, Replay, History;
    assert run[..2] == [a, b];
    SpanLifecycle(run, 0);
  }

  lemma OneHook(a: Prepared)
    ensures Replay([a]).state == Handle(EMPTY, a.hook, a.draw).state
    ensures History([a]) == Emitted(EMPTY, a.hook, a.draw)
  {
    hide Handle, Emitted;
    ReplayAdd([], a);
    assert [] + [a] == [a] && History([]) == [];
  }

  lemma FirstHistory(a: Prepared, b: Prepared, c: Prepared)
    requires a.hook.event == Prompt
    ensures var spans := History([a, b, c]);
            |spans| > 0 && spans[0].id == SpanId(a.draw.seed, 0) && spans[0].status == Running
  {
    hide Handle, Replay, History;
    OneHook(a);
    ReplayAdd([a], b);
    ReplayAdd([a, b], c);
    assert [a] + [b] == [a, b] && [a, b] + [c] == [a, b, c];
  }

  lemma SecondOverwrites(a: Prepared, b: Prepared)
    requires a.hook.event == b.hook.event == Prompt
    ensures SpanId(a.draw.seed, 0) in Overwritten([a, b])
  {
    hide Replay, History;
    OneHook(a);
    assert [a, b][..1] == [a];
  }

  // ---- A closed state file that outlived its session end ----

  /** A run that leaves a closed state to which the hook is not indifferent. */
  function LeftBefore(e: Event): seq<Prepared> {
    match e
    case PreTool(_, _) => [Sample("a", 0, e), Sample("b", 1, SessionEnd)]
    case PostTool(tool, useId, _, _) => [Sample("a", 0, PreTool(tool, useId)), Sample("b", 1, SessionEnd)]
    case _ => [Sample("a", 0, SessionStart), Sample("b", 1, SessionEnd)]
  }

  lemma LeftState(e: Event)
    ensures Fresh(LeftBefore(e))
    ensures var left := Replay(LeftBefore(e)).state;
            && left.closed && left.exec == Exec("cc-a")
            && (e.PreTool? || e.PostTool? ==>
                  var key := PendingKey(e.tool, e.useId);
                  key in left.pending && left.pending[key].id == SpanId(0, 0))
  {
    var run := LeftBefore(e);
    hide Replay, Handle;
    TwoHooks(run[0], run[1]);
    EndKeeps(Handle(EMPTY, run[0].hook, run[0].draw).state, run[1].hook, run[1].draw);
    OpensExecution(run[0].hook, run[0].draw);
  }

  lemma TwoHooks(a: Prepared, b: Prepared)
    ensures Replay([a, b]).state == Handle(Load(Handle(EMPTY, a.hook, a.draw).state), b.hook, b.draw).state
  {
    hide Handle;
    OneHook(a);
    ReplayAdd([a], b);
    assert [a] + [b] == [a, b];
  }

  lemma EndKeeps(st: State, h: Hook, d: Draw)
    requires h.event == SessionEnd
    ensures Handle(st, h, d).state == st.(closed := true)
  {
  }

  lemma OpensExecution(h: Hook, d: Draw)
    requires h.event == SessionStart || h.event.PreTool?
    ensures var st := Handle(EMPTY, h, d).state;
            && st.exec == Exec("cc-" + h.id) && !st.closed
            && (h.event.PreTool? ==>
                  var key := PendingKey(h.event.tool, h.event.useId);
                  key in st.pending && st.pending[key].id == SpanId(d.seed, 0))
  {
  }

  lemma StartStaysOpen(e: Event)
    ensures var p := LeftBefore(e)[0]; !Handle(EMPTY, p.hook, p.draw).state.closed
  {
    hide Handle;
    OpensExecution(LeftBefore(e)[0].hook, LeftBefore(e)[0].draw);
  }

  lemma LeftMatters(e: Event)
    requires !ResetsFirst(e)
    ensures var p := Sample("c", 2, e);
            && Fresh(LeftBefore(e) + [p])
            && Handle(Replay(LeftBefore(e)).state, p.hook, p.draw) != Handle(EMPTY, p.hook, p.draw)
  {
    hide Replay, Handle;
    var left, p := Replay(LeftBefore(e)).state, Sample("c", 2, e);
    LeftState(e);
    match e
    case PreTool(_, _) => SkippedStaysClosed(left, p.hook, p.draw);
    case PostTool(_, _, _, _) => EndsLeftSpan(left, p.hook, p.draw);
    case Notify => NotifyStaysClosed(left, p.hook, p.draw);
    case SessionEnd => EndKeepsExecution(left, p.hook, p.draw);
  }

  lemma SkippedStaysClosed(left: State, h: Hook, d: Draw)
    requires left.closed && h.event.PreTool? && PendingKey(h.event.tool, h.event.useId) in left.pending
    ensures Handle(left, h, d).state.closed && !Handle(EMPTY, h, d).state.closed
  {
    OpensExecution(h, d);
  }

  lemma EndsLeftSpan(left: State, h: Hook, d: Draw)
    requires h.event.PostTool? && d.seed != 0 && left.exec == Exec("cc-a")
    requires var key := PendingKey(h.event.tool, h.event.useId);
             key in left.pending && left.pending[key].id == SpanId(0, 0)
    ensures Handle(left, h, d) != Handle(EMPTY, h, d)
  {
    HandleEmits(left, h, d);
    HandleEmits(EMPTY, h, d);
    hide Handle;
    if !AlreadyCompleted(left, h.event.tool, h.event.useId) {
      assert Emitted(left, h, d)[0].id == SpanId(0, 0);
    }
    assert Emitted(EMPTY, h, d)[0].id == SpanId(d.seed, 0);
  }

  lemma NotifyStaysClosed(left: State, h: Hook, d: Draw)
    requires left.closed && h.event == Notify
    ensures Handle(left, h, d).state.closed && !Handle(EMPTY, h, d).state.closed
  {
  }

  lemma EndKeepsExecution(left: State, h: Hook, d: Draw)
    requires left.exec != NoExec && h.event == SessionEnd
    ensures Handle(left, h, d).state.exec != Handle(EMPTY, h, d).state.exec
  {
  }

  /** The closed state a run leaves and a missing one are interchangeable for
      exactly the hooks that reset first. */
  lemma ClosedCountsAsMissing(e: Event)
    ensures ResetsFirst(e) <==>
            forall run: seq<Prepared>, p: Prepared ::
              Fresh(run + [p]) && Replay(run).state.closed && p.hook.event == e ==>
                Handle(Replay(run).state, p.hook, p.draw) == Handle(EMPTY, p.hook, p.draw)
  {
    hide Handle, Replay;
    if ResetsFirst(e) {
      forall run: seq<Prepared>, p: Prepared | Replay(run).state.closed && p.hook.event == e
        ensures Handle(Replay(run).state, p.hook, p.draw) == Handle(EMPTY, p.hook, p.draw)
      {
        ResetsIgnoreClosed(Replay(run).state, p.hook, p.draw);
      }
    } else {
      LeftState(e);
      LeftMatters(e);
    }
  }
}

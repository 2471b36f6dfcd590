/** Runs with crashes, retries and rejections refine the crash-free run: each hook
    is prepared against the state the crash-free run gives it, and what the server
    holds of a session is a prefix of what the crash-free run emits. */
module CrashFree {
  import opened Telemetry
  import opened Session
  import opened Journal
  import opened ExactlyOnce
  import opened SessionOrder
  import opened CrashRefinement
  import opened SessionEffect
  import opened JournalHistory
  import opened JournalTheorems
  import L = Lifecycle
  import P = Parentage
  import T = ToolUse
  import R = SessionRecords
  import OneExecution

  /** The hook that follows a session end discards a closed state before using it. */
  ghost predicate Orderly(w: World, s: string) {
    forall m, n :: Mine(w, s, m) && Mine(w, s, n) && m < n && w.hooks[m].event.SessionEnd? &&
                   (forall k :: Mine(w, s, k) ==> !(m < k < n)) ==>
      ResetsFirst(w.hooks[n].event)
  }

  ghost predicate Finished(w: World, names: seq<Name>) {
    forall n :: n in names ==> n in w.done && n in w.hooks && w.done[n].prep.Some?
  }

  /** The finished hooks with what their surviving preparations drew. */
  ghost function RunOf(w: World, names: seq<Name>): (run: seq<L.Prepared>)
    requires Finished(w, names)
    ensures |run| == |names|
  {
    if names == [] then []
    else
      var n := names[|names| - 1];
      RunOf(w, names[..|names| - 1]) + [L.Prepared(w.hooks[n], w.done[n].prep.value.draw)]
  }

  lemma ClosedIffEnded(st: State, h: Hook, d: Draw)
    requires !st.closed
    ensures Handle(st, h, d).state.closed <==> h.event.SessionEnd?
  {
  }

  /** A sound preparation is the one the crash-free run makes, unless a hook that
      does not reset met the closed state of its predecessor. */
  lemma SoundIsReplayed(p: Prep, hook: Hook, previous: State)
    requires Sound(p, hook, previous)
    requires previous.closed ==> ResetsFirst(hook.event)
    ensures Result(p.state, p.ops) == Handle(L.Load(previous), hook, p.draw)
    ensures p.state.closed <==> hook.event.SessionEnd?
  {
    hide Handle;
    if p.base.closed && previous.closed {
      ResetsIgnoreClosed(p.base, hook, p.draw);
    }
    ClosedIffEnded(L.Load(previous), hook, p.draw);
  }

  /** Nothing of the session lies between one finished hook and the next begun one. */
  lemma NothingBetween(w: World, s: string, i: nat, n: Name)
    requires Sequential(w, s) && Trailed(w, s) && Mine(w, s, n) && n in w.begun && i < |Trail(w, s)|
    requires i + 1 < |Trail(w, s)| ==> n == Trail(w, s)[i + 1]
    requires i + 1 == |Trail(w, s)| ==> n !in w.done && forall e :: e in w.done && Mine(w, s, e) ==> e < n
    ensures Mine(w, s, Trail(w, s)[i]) && Trail(w, s)[i] < n
    ensures forall k :: Mine(w, s, k) ==> !(Trail(w, s)[i] < k < n)
  {
    var trail := Trail(w, s);
    assert trail[i] in trail;
    forall k | Mine(w, s, k) ensures !(trail[i] < k < n) {
      if k in trail {
        var j :| 0 <= j < |trail| && trail[j] == k;
        assert j < i ==> trail[j] < trail[i];
        assert i + 1 < j ==> trail[i + 1] < trail[j];
      }
    }
  }

  lemma PreviousResets(w: World, s: string, i: nat, n: Name)
    requires Sequential(w, s) && Trailed(w, s) && Orderly(w, s) && Mine(w, s, n) && n in w.begun && i < |Trail(w, s)|
    requires i + 1 < |Trail(w, s)| ==> n == Trail(w, s)[i + 1]
    requires i + 1 == |Trail(w, s)| ==> n !in w.done && forall e :: e in w.done && Mine(w, s, e) ==> e < n
    ensures Trail(w, s)[i] in w.hooks
    ensures w.hooks[Trail(w, s)[i]].event.SessionEnd? ==> ResetsFirst(w.hooks[n].event)
  {
    NothingBetween(w, s, i, n);
  }

  lemma {:induction false} TrailReplayed(w: World, s: string, i: nat)
    requires Core(w) && Sequential(w, s) && Trailed(w, s) && SoundTrail(w, s) && Orderly(w, s)
    requires i <= |Trail(w, s)| && Finished(w, Trail(w, s)[..i])
    ensures L.Replay(RunOf(w, Trail(w, s)[..i])) == Result(After(w, Trail(w, s)[..i]), Flat(w, Trail(w, s)[..i]))
    ensures i > 0 ==> (After(w, Trail(w, s)[..i]).closed <==> w.hooks[Trail(w, s)[i - 1]].event.SessionEnd?)
    decreases i
  {
    hide Core, Sequential, Trailed, Orderly, Handle, Sound, SoundTrail;
    if i > 0 {
      var trail := Trail(w, s);
      var names, n := trail[..i], trail[i - 1];
      assert names[..i - 1] == trail[..i - 1];
      assert n in names;
      FrontFinished(w, names);
      TrailReplayed(w, s, i - 1);
      SoundAt(w, s, i - 1);
      var p := w.done[n].prep.value;
      hide Finished;
      if i > 1 {
        FinishedBegun(w, s, i - 1);
        PreviousResets(w, s, i - 2, n);
      }
      SoundIsReplayed(p, w.hooks[n], After(w, trail[..i - 1]));
      ReplayedNext(w, names);
    }
  }

  lemma SoundAt(w: World, s: string, i: nat)
    requires SoundTrail(w, s) && i < |Trail(w, s)|
    ensures var n := Trail(w, s)[i];
            && n in w.done && n in w.hooks && w.done[n].prep.Some?
            && Sound(w.done[n].prep.value, w.hooks[n], After(w, Trail(w, s)[..i]))
  {
    hide Sound;
  }

  lemma FrontFinished(w: World, names: seq<Name>)
    requires names != [] && Finished(w, names)
    ensures Finished(w, names[..|names| - 1])
  {
    forall m | m in names[..|names| - 1] ensures m in names {
    }
  }

  lemma ReplayedNext(w: World, names: seq<Name>)
    requires names != [] && Finished(w, names) && Finished(w, names[..|names| - 1])
    requires var front, n := names[..|names| - 1], names[|names| - 1];
             var p := w.done[n].prep.value;
             && L.Replay(RunOf(w, front)) == Result(After(w, front), Flat(w, front))
             && Result(p.state, p.ops) == Handle(L.Load(After(w, front)), w.hooks[n], p.draw)
    ensures L.Replay(RunOf(w, names)) == Result(After(w, names), Flat(w, names))
  {
    hide Handle, L.Load;
    var run := RunOf(w, names);
    assert run[..|run| - 1] == RunOf(w, names[..|names| - 1]);
  }

  lemma FinishedBegun(w: World, s: string, i: nat)
    requires Core(w) && Trailed(w, s) && i < |Trail(w, s)|
    ensures Mine(w, s, Trail(w, s)[i]) && Trail(w, s)[i] in w.begun
  {
    hide Core;
    HistoryFacts(w);
    assert Trail(w, s)[i] in Trail(w, s);
  }

  lemma TrailFinished(w: World, s: string)
    requires Core(w) && Trailed(w, s)
    ensures forall i :: 0 <= i <= |Trail(w, s)| ==> Finished(w, Trail(w, s)[..i])
  {
    assert forall n :: n in w.done ==> w.done[n].prep.Some? by {
      hide Placed, Traced, Holding;
    }
    hide Core;
    HistoryFacts(w);
    forall i, n | 0 <= i <= |Trail(w, s)| && n in Trail(w, s)[..i] ensures n in w.done && n in w.hooks {
      assert n in Trail(w, s);
    }
  }

  ghost predicate Entry(w: World, n: Name, p: L.Prepared) {
    n in w.hooks && n in w.done && w.done[n].prep.Some? && p == L.Prepared(w.hooks[n], w.done[n].prep.value.draw)
  }

  lemma {:induction false} RunEntries(w: World, names: seq<Name>)
    requires Finished(w, names)
    ensures forall i :: 0 <= i < |names| ==> Entry(w, names[i], RunOf(w, names)[i])
    decreases names
  {
    if names != [] {
      var front := names[..|names| - 1];
      forall m | m in front ensures m in names {
        var j :| 0 <= j < |front| && front[j] == m;
        assert names[j] == m;
      }
      RunEntries(w, front);
      assert names[|names| - 1] in names;
    }
  }

  /** The run the session has made so far: its finished hooks, and the prepared one if there is one. */
  ghost function SessionRun(w: World, s: string): seq<L.Prepared>
    requires Finished(w, Trail(w, s))
  {
    RunOf(w, Trail(w, s)) +
    if exists n :: Unfinished(w, s, n) then
      var n :| Unfinished(w, s, n);
      [L.Prepared(w.hooks[n], w.spool[n].prep.value.draw)]
    else []
  }

  lemma OnlyPrepared(w: World, s: string, n: Name)
    requires Base(w) && Ordered(w, s) && Unfinished(w, s, n)
    ensures n in w.begun && n !in w.done
    ensures forall e :: e in w.done && Mine(w, s, e) ==> e < n
    ensures forall e :: Unfinished(w, s, e) ==> e == n
  {
    hide Core, Queued, Trailed, LogOrdered, Arrivals, Listed;
    PreparedBegun(w);
    HistoryFacts(w);
    PreparedNone(w, s, n);
  }

  lemma SoundSpooled(w: World, s: string, n: Name)
    requires Chained(w, s) && Unfinished(w, s, n)
    ensures Sound(w.spool[n].prep.value, w.hooks[n], Last(w, s))
  {
    hide Sound, SoundTrail, SoundDisk, SoundHeld;
  }

  /** The hook being delivered carries on the crash-free run. */
  lemma CurrentReplayed(w: World, s: string, n: Name)
    requires Base(w) && Ordered(w, s) && Chained(w, s) && Orderly(w, s) && Unfinished(w, s, n)
    requires Finished(w, Trail(w, s)) && L.Replay(RunOf(w, Trail(w, s))).state == Last(w, s)
    requires Trail(w, s) != [] ==>
               (Last(w, s).closed <==> w.hooks[Trail(w, s)[|Trail(w, s)| - 1]].event.SessionEnd?)
    ensures var p := w.spool[n].prep.value;
            Result(p.state, p.ops) == Handle(L.Load(Last(w, s)), w.hooks[n], p.draw)
  {
    hide Core, Handle, Queued, LogOrdered, Arrivals, Listed, Sound, Chained, Orderly, Sequential, Trailed;
    OnlyPrepared(w, s, n);
    SoundSpooled(w, s, n);
    if Trail(w, s) != [] {
      PreviousResets(w, s, |Trail(w, s)| - 1, n);
    }
    SoundIsReplayed(w.spool[n].prep.value, w.hooks[n], Last(w, s));
  }

  lemma SessionReplayed(w: World, s: string)
    requires Reachable(w) && InOrder(w, s) && Orderly(w, s)
    ensures Base(w) && SessionOk(w, s) && Finished(w, Trail(w, s))
    ensures L.Replay(RunOf(w, Trail(w, s))) == Result(Last(w, s), Flat(w, Trail(w, s)))
    ensures forall n :: Unfinished(w, s, n) ==>
              var p := w.spool[n].prep.value;
              Result(p.state, p.ops) == Handle(L.Load(Last(w, s)), w.hooks[n], p.draw)
  {
    hide Core, Handle, Sequential, Orderly, SoundSpool, SoundDisk, SoundHeld, Effects, OneExecution.Charged;
    hide Reachable, InOrder, Queued, Trailed, LogOrdered, SoundTrail, Arrivals, Listed;
    ReachableSession(w, s);
    TrailFinished(w, s);
    var trail := Trail(w, s);
    assert trail[..|trail|] == trail;
    TrailReplayed(w, s, |trail|);
    hide Finished, RunOf, Flat, After;
    forall n | Unfinished(w, s, n)
      ensures var p := w.spool[n].prep.value;
              Result(p.state, p.ops) == Handle(L.Load(Last(w, s)), w.hooks[n], p.draw)
    {
      CurrentReplayed(w, s, n);
    }
  }

  /** The state each hook leaves is the state the crash-free run leaves after it. */
  lemma CrashFreeStates(w: World, s: string, i: nat)
    requires Reachable(w) && InOrder(w, s) && Orderly(w, s) && i < |Trail(w, s)|
    ensures Finished(w, Trail(w, s)[..i + 1])
    ensures LeftBy(w, Trail(w, s)[i]) == L.Replay(RunOf(w, Trail(w, s)[..i + 1])).state
  {
    ReachableSession(w, s);
    TrailFinished(w, s);
    hide Core, Handle, Sequential, Orderly, SoundSpool, SoundDisk, SoundHeld, Effects, OneExecution.Charged;
    hide Reachable, InOrder, Queued, Trailed, LogOrdered, SoundTrail, Arrivals, Listed;
    TrailReplayed(w, s, i + 1);
    assert Trail(w, s)[..i + 1][i] == Trail(w, s)[i];
  }

  lemma ReplayOne(run: seq<L.Prepared>, p: L.Prepared)
    ensures L.Replay(run + [p]).ops == L.Replay(run).ops + Handle(L.Load(L.Replay(run).state), p.hook, p.draw).ops
  {
    hide Handle;
    assert (run + [p])[..|run|] == run;
  }

  /** What the server holds of a session contains everything the crash-free run of
      its finished hooks emits, and is a prefix of what its run so far emits. */
  lemma CrashFreeRefinement(w: World, s: string)
    requires Reachable(w) && InOrder(w, s) && Orderly(w, s)
    ensures Finished(w, Trail(w, s))
    ensures L.Replay(RunOf(w, Trail(w, s))).ops <= HeldOf(w.log, s) <= L.Replay(SessionRun(w, s)).ops
    ensures L.Fresh(SessionRun(w, s))
  {
    hide Handle, Reachable, Core, Ordered, Chained, OneExecution.Charged, Orderly, InOrder, Arrivals, Listed;
    hide L.Replay, L.Fresh, RunOf, HeldOf;
    SessionReplayed(w, s);
    ReachableFresh(w, s);
    var run := RunOf(w, Trail(w, s));
    if exists n :: Unfinished(w, s, n) {
      var n :| Unfinished(w, s, n) && SessionRun(w, s) == run + [L.Prepared(w.hooks[n], w.spool[n].prep.value.draw)];
      ReplayOne(run, L.Prepared(w.hooks[n], w.spool[n].prep.value.draw));
      PreparedHeld(w, n);
    } else {
      assert SessionRun(w, s) == run;
    }
  }

  lemma ReachableFresh(w: World, s: string)
    requires Reachable(w) && InOrder(w, s) && Finished(w, Trail(w, s))
    ensures L.Fresh(SessionRun(w, s))
  {
    hide Reachable, InOrder, Base, Ordered, Unrepeated, Accounted;
    ReachableGood(w);
    ReachableSession(w, s);
    SessionRunFresh(w, s);
  }

  lemma PreparedHeld(w: World, n: Name)
    requires Reachable(w) && n in w.hooks && n in w.spool && w.spool[n].prep.Some?
    ensures Held(w.log, n) <= w.spool[n].prep.value.ops
  {
    hide Reachable, Held, Sent, Staircase, Faithful;
    ExactlyOnceEffect(w, n);
  }

  lemma FreshOver(w: World, run: seq<L.Prepared>, names: seq<Name>)
    requires Unrepeated(w) && |run| == |names| && Ascending(names)
    requires forall i :: 0 <= i < |names| ==>
               HasPrep(w, names[i]) && names[i] in w.hooks &&
               run[i].hook == w.hooks[names[i]] && run[i].draw.seed == SeedOf(w, names[i])
    ensures L.Fresh(run)
  {
    hide HasPrep, SeedOf;
    forall i, j | 0 <= i < j < |run| ensures run[i].hook.id != run[j].hook.id && run[i].draw.seed != run[j].draw.seed {
      assert names[i] < names[j];
    }
  }

  lemma SessionRunFresh(w: World, s: string)
    requires Base(w) && Ordered(w, s) && Unrepeated(w) && Finished(w, Trail(w, s))
    ensures L.Fresh(SessionRun(w, s))
  {
    hide Core, Queued, Sequential, LogOrdered, Arrivals, Listed, Unrepeated;
    HistoryFacts(w);
    var trail := Trail(w, s);
    RunEntries(w, trail);
    forall i | 0 <= i < |trail| ensures HasPrep(w, trail[i]) && SeedOf(w, trail[i]) == w.done[trail[i]].prep.value.draw.seed {
      assert trail[i] in trail;
    }
    if exists n :: Unfinished(w, s, n) {
      var n :| Unfinished(w, s, n) && SessionRun(w, s) == RunOf(w, trail) + [L.Prepared(w.hooks[n], w.spool[n].prep.value.draw)];
      OnlyPrepared(w, s, n);
      forall m | m in trail ensures m < n {
      }
      AppendAscending(trail, n);
      FreshOver(w, SessionRun(w, s), trail + [n]);
    } else {
      assert SessionRun(w, s) == RunOf(w, trail);
      FreshOver(w, RunOf(w, trail), trail);
    }
  }

  // ---- So what is proved of crash-free runs holds of what the server sees ----

  lemma SpansPrefix(a: seq<Op>, b: seq<Op>)
    requires a <= b
    ensures SpansOf(a) <= SpansOf(b)
  {
    SpansOfConcat(a, b[|a|..]);
    assert a + b[|a|..] == b;
  }

  /** Whatever crashes, the server sees every parent open before its children. */
  lemma ServerSeesParentsFirst(w: World, s: string)
    requires Reachable(w) && InOrder(w, s) && Orderly(w, s)
    ensures P.ParentsFirst(SpansOf(HeldOf(w.log, s)))
  {
    hide Reachable, InOrder, Orderly, P.ParentsFirst, L.Fresh, SessionRun, HeldOf, SpansOf;
    CrashFreeRefinement(w, s);
    var run := SessionRun(w, s);
    P.ParentBeforeChild(run);
    SpansPrefix(HeldOf(w.log, s), L.Replay(run).ops);
    PrefixParentsFirst(SpansOf(HeldOf(w.log, s)), L.History(run));
  }

  lemma PrefixParentsFirst(seen: seq<Span>, all: seq<Span>)
    requires seen <= all && P.ParentsFirst(all)
    ensures P.ParentsFirst(seen)
  {
    hide P.Opened;
    forall i | 0 <= i < |seen| && seen[i].parent != NoSpan ensures P.Opened(seen[..i], seen[i].parent, seen[i].exec) {
      assert all[i] == seen[i] && all[..i] == seen[..i];
    }
  }

  /** Whatever crashes, the server sees at most one terminal record per tool use and execution. */
  lemma ServerSeesOneTerminal(w: World, s: string, u: string, x: ExecId)
    requires Reachable(w) && InOrder(w, s) && Orderly(w, s) && u != "" && u != TURN_KEY
    ensures T.Terminals(SpansOf(HeldOf(w.log, s)), u, x) <= 1
  {
    hide Reachable, InOrder, Orderly, T.Terminals, L.Fresh, SessionRun, HeldOf, SpansOf;
    CrashFreeRefinement(w, s);
    var run := SessionRun(w, s);
    T.RunOneTerminal(run, u, x);
    SpansPrefix(HeldOf(w.log, s), L.Replay(run).ops);
    var seen, all := SpansOf(HeldOf(w.log, s)), L.History(run);
    T.TerminalsConcat(seen, all[|seen|..], u, x);
    assert seen + all[|seen|..] == all;
  }

  lemma {:induction false} PrefixUnbroken(a: seq<Span>, b: seq<Span>, id: SpanId)
    requires L.PhaseOf(a + b, id) != L.Broken
    ensures L.PhaseOf(a, id) != L.Broken
    decreases b
  {
    if b == [] {
      assert a + b == a;
    } else {
      assert (a + b)[..|a + b| - 1] == a + b[..|b| - 1];
      PrefixUnbroken(a, b[..|b| - 1], id);
    }
  }

  /** Whatever crashes, the server sees of each span at most one RUNNING record and
      then at most one terminal record. */
  lemma ServerSeesSpanLifecycle(w: World, s: string, i: nat, j: nat)
    requires Reachable(w) && InOrder(w, s) && Orderly(w, s)
    requires i < j < |SpansOf(HeldOf(w.log, s))| && SpansOf(HeldOf(w.log, s))[i].id == SpansOf(HeldOf(w.log, s))[j].id
    ensures var seen := SpansOf(HeldOf(w.log, s));
            && seen[i].status == Running && seen[j].status != Running
            && forall k :: 0 <= k < |seen| && seen[k].id == seen[i].id ==> k == i || k == j
  {
    hide Reachable, InOrder, Orderly, SessionRun, HeldOf, SpansOf;
    CrashFreeRefinement(w, s);
    var run := SessionRun(w, s);
    SpansPrefix(HeldOf(w.log, s), L.Replay(run).ops);
    var seen, all := SpansOf(HeldOf(w.log, s)), L.History(run);
    var id := seen[i].id;
    L.RunTracked(run);
    assert L.PhaseOf(all, id) != L.Broken;
    assert seen + all[|seen|..] == all;
    PrefixUnbroken(seen, all[|seen|..], id);
    var first, last := L.PhaseMeaning(seen, id);
  }

  /** Whatever crashes, an execution the server sees ended was ended by a session end that found it
      open, at that hook's time; it holds nothing but audit events for it afterwards; and it sees the
      end of every execution a finished session end found open. */
  lemma ServerSeesEnds(w: World, s: string)
    requires Reachable(w) && InOrder(w, s) && Orderly(w, s)
    ensures Finished(w, Trail(w, s)) && |Trail(w, s)| <= |SessionRun(w, s)|
    ensures R.EndsLast(HeldOf(w.log, s))
    ensures var run := SessionRun(w, s);
            forall x, t :: EndExecution(x, t) in HeldOf(w.log, s) ==>
              exists i :: 0 <= i < |run| && R.EndsAt(run, i) && x == R.Met(run, i).exec && t == run[i].hook.time
    ensures var run := SessionRun(w, s);
            forall i :: 0 <= i < |Trail(w, s)| && R.EndsAt(run, i) ==>
              EndExecution(R.Met(run, i).exec, run[i].hook.time) in HeldOf(w.log, s)
  {
    hide Reachable, InOrder, Orderly, L.Fresh, HeldOf, L.Replay, R.EndsAt, R.Met;
    CrashFreeRefinement(w, s);
    var run, done := SessionRun(w, s), RunOf(w, Trail(w, s));
    assert run[..|done|] == done;
    hide SessionRun;
    R.RunAccounted(run);
    PrefixEndsLast(HeldOf(w.log, s), L.Replay(run).ops);
    forall x, t | EndExecution(x, t) in HeldOf(w.log, s)
      ensures exists i :: 0 <= i < |run| && R.EndsAt(run, i) && x == R.Met(run, i).exec && t == run[i].hook.time
    {
      R.RunEnds(run, x, t);
    }
    PrefixFresh(run, |done|);
    forall i | 0 <= i < |Trail(w, s)| && R.EndsAt(run, i)
      ensures EndExecution(R.Met(run, i).exec, run[i].hook.time) in HeldOf(w.log, s)
    {
      SameMet(run, done, i);
      R.RunEnds(done, R.Met(run, i).exec, run[i].hook.time);
    }
  }

  lemma PrefixFresh(run: seq<L.Prepared>, n: nat)
    requires L.Fresh(run) && n <= |run|
    ensures L.Fresh(run[..n])
  {
  }

  lemma SameMet(run: seq<L.Prepared>, front: seq<L.Prepared>, i: nat)
    requires i < |front| && front <= run
    ensures R.Met(front, i) == R.Met(run, i) && R.EndsAt(front, i) == R.EndsAt(run, i)
  {
    hide L.Replay;
    assert front[..i] == run[..i];
  }

  lemma PrefixEndsLast(seen: seq<Op>, all: seq<Op>)
    requires seen <= all && R.EndsLast(all)
    ensures R.EndsLast(seen)
  {
    forall p, q | 0 <= p < q < |seen| && seen[p].EndExecution? && seen[q].exec == seen[p].exec ensures seen[q].Audit? {
      assert all[p] == seen[p] && all[q] == seen[q];
    }
  }

  /** Whatever crashes, the record the server sees end a span agrees with the one that opened it. */
  lemma ServerSeesAgreement(w: World, s: string, i: nat, j: nat)
    requires Reachable(w) && InOrder(w, s) && Orderly(w, s)
    requires var seen := SpansOf(HeldOf(w.log, s));
             i < j < |seen| && seen[i].id == seen[j].id && seen[i].status == Running && seen[j].status != Running
    ensures var seen := SpansOf(HeldOf(w.log, s)); R.Agrees(seen[i], seen[j])
  {
    hide Reachable, InOrder, Orderly, L.Fresh, SessionRun, HeldOf, SpansOf, L.Replay, R.Agrees;
    CrashFreeRefinement(w, s);
    var run := SessionRun(w, s);
    SpansPrefix(HeldOf(w.log, s), L.Replay(run).ops);
    var seen, all := SpansOf(HeldOf(w.log, s)), L.History(run);
    assert all[i] == seen[i] && all[j] == seen[j];
    R.TerminalAgrees(run, i, j);
  }
}

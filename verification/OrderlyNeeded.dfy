/** Which hooks may follow a session end: the crash-free run is refined in every run
    exactly when each of them resets a closed state first. */
module OrderlyNeeded {
  import opened Wrappers
  import opened Telemetry
  import opened Session
  import opened Journal
  import opened SessionOrder
  import opened CrashRefinement
  import opened SessionEffect
  import opened CrashFree
  import opened Collector
  import L = Lifecycle

  /** After a session end comes a hook that resets first, or `e`. */
  ghost predicate OrderlyBut(w: World, s: string, e: Event) {
    forall m, n :: Mine(w, s, m) && Mine(w, s, n) && m < n && w.hooks[m].event.SessionEnd? &&
                   (forall k :: Mine(w, s, k) ==> !(m < k < n)) ==>
      ResetsFirst(w.hooks[n].event) || w.hooks[n].event == e
  }

  /** The finished hooks left the state, and queued the operations, of the crash-free run. */
  ghost predicate Replays(w: World, s: string) {
    && Finished(w, Trail(w, s))
    && L.Replay(RunOf(w, Trail(w, s))) == Result(Last(w, s), Flat(w, Trail(w, s)))
  }

  // ---- One hook taken from arrival to removal, with a crash before its state is cleared ----

  lemma Took(w: World, w': World)
    requires Reachable(w) && Steps(w, w, w')
    ensures Reachable(w')
  {
    hide Reachable;
    ReachesSelf(w);
  }

  function Queued(hook: Hook): Envelope {
    Envelope(hook, None, 0, false, "")
  }

  function Alone(n: Name): Drain {
    Drain([n], [], map[], "")
  }

  /** The hook is alone in the journal and the worker has read it. */
  ghost function Taken(w: World, n: Name, hook: Hook): World {
    w.(spool := map[n := Queued(hook)], hooks := w.hooks[n := hook], arrived := w.arrived + [n], begun := w.begun + {n},
       worker := Hold(Alone(n), n, Queued(hook), Preparing))
  }

  lemma Take(w: World, n: Name, hook: Hook)
    requires Reachable(w) && w.worker.Idle? && w.spool == map[] && CanEnqueue(w, n, hook)
    ensures Reachable(Taken(w, n, hook))
  {
    hide Reachable;
    var w1 := DoEnqueue(w, n, hook);
    StepOn(w, w, Enqueue(n, hook));
    Took(w, w1);
    var w2 := DoBegin(w1, [n], "");
    BeginStep(w1, [n], "");
    Took(w1, w2);
    LoadStep(w2, w2);
    assert [n][1..] == [];
    assert DoLoad(w2) == Taken(w, n, hook);
    Took(w2, DoLoad(w2));
  }

  ghost function Prep1(w: World, hook: Hook, draw: Draw): Prep {
    PrepareAgainst(Disk(w, hook.session), hook, draw)
  }

  ghost function Frozen(w: World, hook: Hook, draw: Draw, next: nat): Envelope {
    Envelope(hook, Some(Prep1(w, hook, draw)), next, false, "")
  }

  /** Prepared, frozen, saved, and delivered up to `next`. */
  ghost predicate Sent(w: World, n: Name, hook: Hook, draw: Draw, next: nat, w': World) {
    var env := Frozen(w, hook, draw, next);
    && w'.spool == map[n := env] && w'.sessions == w.sessions[hook.session := env.prep.value.state]
    && w'.worker == Hold(Alone(n), n, env, Delivering)
    && w'.hooks == w.hooks[n := hook] && w'.arrived == w.arrived + [n] && w'.done == w.done && w'.trail == w.trail
    && w'.seeds == w.seeds + {draw.seed}
  }

  /** Prepared and frozen, not saved. */
  ghost function FrozenWorld(w: World, n: Name, hook: Hook, draw: Draw): World {
    var w1 := Taken(w, n, hook);
    (if CanAsk(w1) then DoAsk(w1) else w1)
    .(seeds := w.seeds + {draw.seed}, spool := map[n := Frozen(w, hook, draw, 0)],
      worker := Hold(Alone(n), n, Frozen(w, hook, draw, 0), Saving))
  }

  lemma Freeze(w: World, n: Name, hook: Hook, draw: Draw)
    requires Reachable(w) && w.worker.Idle? && w.spool == map[] && CanEnqueue(w, n, hook) && draw.seed !in w.seeds
    ensures Reachable(FrozenWorld(w, n, hook, draw))
  {
    hide Reachable, PrepareAgainst, Starts, CanEnqueue;
    var w1 := Taken(w, n, hook);
    Take(w, n, hook);
    var w2 := DoPrepare(w1, draw);
    PrepareStep(w1, draw);
    PersistStep(w2, w2, true, true);
    Took(w2, DoPersist(w2));
    assert DoPersist(w2) == FrozenWorld(w, n, hook, draw);
  }

  lemma Save1(w: World, n: Name, hook: Hook, draw: Draw) returns (w': World)
    requires Reachable(w) && w.worker.Idle? && w.spool == map[] && CanEnqueue(w, n, hook) && draw.seed !in w.seeds
    ensures Reachable(w') && Sent(w, n, hook, draw, 0, w')
  {
    hide Reachable, Prep1, CanAsk, CanEnqueue;
    Freeze(w, n, hook, draw);
    var w3 := FrozenWorld(w, n, hook, draw);
    w' := DoSave(w3);
    SaveStep(w3, w3, true);
    Took(w3, w');
  }

  lemma {:induction false} Send(w: World, n: Name, hook: Hook, draw: Draw, next: nat, w': World) returns (w'': World)
    requires Reachable(w') && Sent(w, n, hook, draw, next, w') && next <= |Prep1(w, hook, draw).ops|
    ensures Reachable(w'') && Sent(w, n, hook, draw, |Prep1(w, hook, draw).ops|, w'')
    decreases |Prep1(w, hook, draw).ops| - next
  {
    hide Reachable, Prep1;
    w'' := w';
    if next < |Prep1(w, hook, draw).ops| {
      var w1 := DoAcknowledge(w');
      AcknowledgeStep(w', w');
      Took(w', w1);
      var w2 := DoRecord(w1);
      RecordStep(w1, w1, true, true);
      Took(w1, w2);
      assert w2.spool == map[n := Frozen(w, hook, draw, next + 1)];
      w'' := Send(w, n, hook, draw, next + 1, w2);
    }
  }

  /** What a hook taken through a crash before its state was cleared leaves. */
  ghost predicate Through(w: World, n: Name, hook: Hook, draw: Draw, w': World) {
    var env := Frozen(w, hook, draw, |Prep1(w, hook, draw).ops|);
    && w'.worker.Idle? && w'.spool == map[] && w'.sessions == w.sessions[hook.session := env.prep.value.state]
    && w'.hooks == w.hooks[n := hook] && w'.arrived == w.arrived + [n] && w'.done == w.done[n := env]
    && w'.trail == w.trail[hook.session := Trail(w, hook.session) + [n]]
    && w'.seeds == w.seeds + {draw.seed}
  }

  lemma RunHook(w: World, n: Name, hook: Hook, draw: Draw) returns (w': World)
    requires Reachable(w) && w.worker.Idle? && w.spool == map[] && CanEnqueue(w, n, hook) && draw.seed !in w.seeds
    ensures Reachable(w') && Through(w, n, hook, draw, w')
  {
    hide Reachable, Prep1, CanEnqueue;
    var w1 := Save1(w, n, hook, draw);
    var w2 := Send(w, n, hook, draw, 0, w1);
    var w3 := DoRemove(w2);
    RemoveStep(w2, w2, true);
    Took(w2, w3);
    w' := Halt(w3);
    HaltStep(w3, w3);
    Took(w3, w');
    assert w'.spool == map[];
  }

  // ---- Three hooks ----

  function At(i: nat, e: Event): L.Prepared
    requires i < 3
  {
    (L.LeftBefore(e) + [L.Sample("c", 2, e)])[i]
  }

  lemma AtShape(i: nat, e: Event)
    requires i < 3
    ensures var p := At(i, e);
            && p.hook.session == "s" && p.draw.seed == i && p.hook.id == ["a", "b", "c"][i]
            && (i == 1 ==> p.hook.event == SessionEnd) && (i == 2 ==> p.hook.event == e)
            && (i == 0 ==> !p.hook.event.SessionEnd?)
  {
  }

  /** Hook `i` was taken against the state the one before it left. */
  ghost predicate Linked(w: World, e: Event, i: nat)
    requires i < 3
  {
    && i + 1 in w.hooks && i + 1 in w.done && w.hooks[i + 1] == At(i, e).hook
    && w.done[i + 1].prep == Some(PrepareAgainst(if i == 0 then EMPTY else LeftBy(w, i), At(i, e).hook, At(i, e).draw))
  }

  /** The first `k` of the three hooks are through. */
  ghost predicate Chain(w: World, e: Event, k: nat)
    requires k <= 3
  {
    ThroughFirst(w, k) && forall i :: 0 <= i < k ==> Linked(w, e, i)
  }

  ghost predicate ThroughFirst(w: World, k: nat)
    requires k <= 3
  {
    && w.worker.Idle? && w.spool == map[] && Disk(w, "s") == (if k == 0 then EMPTY else LeftBy(w, k))
    && w.arrived == Trail(w, "s") == [1, 2, 3][..k]
    && (forall n :: n in w.hooks <==> 1 <= n <= k) && (forall n :: n in w.done <==> 1 <= n <= k)
    && (forall x :: x in w.seeds ==> x < k)
  }

  lemma NextEnters(w: World, e: Event, k: nat)
    requires k < 3 && Chain(w, e, k)
    ensures CanEnqueue(w, k + 1, At(k, e).hook) && At(k, e).draw.seed !in w.seeds
  {
    hide PrepareAgainst, At;
    AtShape(k, e);
    forall n | n in w.hooks ensures w.hooks[n].id != At(k, e).hook.id {
      assert Linked(w, e, n - 1);
      AtShape(n - 1, e);
    }
  }

  lemma NextChains(w: World, e: Event, k: nat, w': World)
    requires k < 3 && Chain(w, e, k) && Through(w, k + 1, At(k, e).hook, At(k, e).draw, w')
    ensures Chain(w', e, k + 1)
  {
    hide Prep1, Frozen, LeftBy, At, Linked;
    AtShape(k, e);
    ThroughLeaves(w, k + 1, At(k, e).hook, At(k, e).draw, w');
    forall i | 0 <= i < k ensures Linked(w', e, i) {
      LinkedStays(w, e, i, w');
    }
    LinkedNow(w, e, k, w');
    NextThrough(w, k, At(k, e).hook, At(k, e).draw, w');
  }

  lemma NextThrough(w: World, k: nat, hook: Hook, draw: Draw, w': World)
    requires k < 3 && ThroughFirst(w, k) && Through(w, k + 1, hook, draw, w') && hook.session == "s" && draw.seed == k
    ensures ThroughFirst(w', k + 1)
  {
    hide Prep1, Frozen, LeftBy;
    ThroughLeaves(w, k + 1, hook, draw, w');
    assert [1, 2, 3][..k] + [k + 1] == [1, 2, 3][..k + 1];
  }

  lemma ThroughLeaves(w: World, n: Name, hook: Hook, draw: Draw, w': World)
    requires Through(w, n, hook, draw, w')
    ensures LeftBy(w', n) == Disk(w', hook.session)
    ensures forall m :: m != n ==> LeftBy(w', m) == LeftBy(w, m)
  {
    hide Prep1;
  }

  lemma LinkedStays(w: World, e: Event, i: nat, w': World)
    requires i < 3 && Linked(w, e, i) && w'.hooks[i + 1 := w.hooks[i + 1]] == w'.hooks && i + 1 in w'.done
    requires w'.done[i + 1] == w.done[i + 1] && LeftBy(w', i) == LeftBy(w, i)
    ensures Linked(w', e, i)
  {
  }

  lemma LinkedNow(w: World, e: Event, k: nat, w': World)
    requires k < 3 && Through(w, k + 1, At(k, e).hook, At(k, e).draw, w') && At(k, e).hook.session == "s"
    requires Disk(w, "s") == (if k == 0 then EMPTY else LeftBy(w, k)) && LeftBy(w', k) == LeftBy(w, k)
    ensures Linked(w', e, k)
  {
    hide PrepareAgainst, At;
  }

  lemma NextHook(w: World, e: Event, k: nat) returns (w': World)
    requires k < 3 && Reachable(w) && Chain(w, e, k)
    ensures Reachable(w') && Chain(w', e, k + 1)
  {
    hide Reachable, At, Linked, Through, CanEnqueue;
    NextEnters(w, e, k);
    w' := RunHook(w, k + 1, At(k, e).hook, At(k, e).draw);
    NextChains(w, e, k, w');
  }

  lemma ThreeHooks(e: Event) returns (w: World)
    ensures Reachable(w) && Chain(w, e, 3)
  {
    assert Runs(START, [], START);
    hide Reachable;
    assert Chain(START, e, 0);
    hide Chain;
    w := NextHook(START, e, 0);
    w := NextHook(w, e, 1);
    w := NextHook(w, e, 2);
  }

  lemma ChainIsOrdered(w: World, e: Event)
    requires Chain(w, e, 3)
    ensures InOrder(w, "s") && OrderlyBut(w, "s", e)
  {
    hide PrepareAgainst, At;
    forall i | 0 <= i < 3 ensures w.hooks[i + 1] == At(i, e).hook && At(i, e).hook.session == "s" {
      assert Linked(w, e, i);
      AtShape(i, e);
    }
    AtShape(0, e);
    AtShape(1, e);
    AtShape(2, e);
    forall n ensures Mine(w, "s", n) <==> n == 1 || n == 2 || n == 3 {
      assert Mine(w, "s", n) ==> n in w.hooks;
      assert w.hooks[1] == At(0, e).hook && w.hooks[2] == At(1, e).hook && w.hooks[3] == At(2, e).hook;
    }
  }

  lemma ChainRuns(w: World, e: Event)
    requires Chain(w, e, 3)
    ensures Finished(w, Trail(w, "s"))
    ensures RunOf(w, Trail(w, "s")) == L.LeftBefore(e) + [L.Sample("c", 2, e)]
  {
    hide PrepareAgainst;
    assert [1, 2, 3][..3] == [1, 2, 3];
    assert [1, 2, 3][..2] == [1, 2] && [1, 2][..1] == [1] && [1][..0] == [];
    assert Linked(w, e, 0) && Linked(w, e, 1) && Linked(w, e, 2);
    assert RunOf(w, [1]) == [At(0, e)];
    assert RunOf(w, [1, 2]) == [At(0, e), At(1, e)];
  }

  lemma ChainResults(w: World, e: Event)
    requires Chain(w, e, 3)
    ensures LeftBy(w, 1) == Handle(EMPTY, At(0, e).hook, At(0, e).draw).state
    ensures LeftBy(w, 2) == Handle(LeftBy(w, 1), At(1, e).hook, At(1, e).draw).state
    ensures LeftBy(w, 3) == Handle(LeftBy(w, 2), At(2, e).hook, At(2, e).draw).state
    ensures Flat(w, [1, 2]) == Handle(EMPTY, At(0, e).hook, At(0, e).draw).ops
                             + Handle(LeftBy(w, 1), At(1, e).hook, At(1, e).draw).ops
    ensures Flat(w, [1, 2, 3]) == Flat(w, [1, 2]) + Handle(LeftBy(w, 2), At(2, e).hook, At(2, e).draw).ops
  {
    hide Handle, At;
    assert Linked(w, e, 0) && Linked(w, e, 1) && Linked(w, e, 2);
    assert [1, 2, 3][..2] == [1, 2] && [1, 2][..1] == [1] && [1][..0] == [];
    assert Flat(w, [1]) == OpsOf(w, 1);
    assert Flat(w, [1, 2]) == OpsOf(w, 1) + OpsOf(w, 2);
  }

  lemma FirstTwoReplay(w: World, e: Event)
    requires Chain(w, e, 3)
    ensures L.Replay(L.LeftBefore(e)) == Result(LeftBy(w, 2), Flat(w, [1, 2]))
  {
    hide Handle, L.Replay, L.History, Emitted, Chain, L.LeftBefore, Flat, At, LeftBy;
    ChainResults(w, e);
    var a, b := At(0, e), At(1, e);
    L.StartStaysOpen(e);
    L.OneHook(a);
    ReplayOne([], a);
    L.ReplayAdd([a], b);
    ReplayOne([a], b);
    assert [] + [a] == [a];
    assert [a] + [b] == L.LeftBefore(e) by { FirstTwo(e); }
    assert L.Replay([]) == Result(EMPTY, []) by { NoReplay(); }
  }

  lemma FirstTwo(e: Event)
    ensures [At(0, e), At(1, e)] == L.LeftBefore(e)
  {
  }

  lemma NoReplay()
    ensures L.Replay([]) == Result(EMPTY, [])
  {
  }

  /** The third hook met the closed state of the second. */
  lemma ChainDiffers(w: World, e: Event)
    requires Chain(w, e, 3) && !ResetsFirst(e)
    ensures !Replays(w, "s")
  {
    ChainRuns(w, e);
    ChainResults(w, e);
    FirstTwoReplay(w, e);
    L.LeftState(e);
    L.LeftMatters(e);
    hide Handle, L.Replay, L.History, Emitted, L.LeftBefore, Linked, Flat;
    var left, c := L.LeftBefore(e), L.Sample("c", 2, e);
    assert At(2, e) == c;
    L.ReplayAdd(left, c);
    ReplayOne(left, c);
    assert [1, 2, 3][..3] == [1, 2, 3];
    if Replays(w, "s") {
      SamePrefix(L.Replay(left).ops, Handle(EMPTY, c.hook, c.draw).ops, Handle(LeftBy(w, 2), c.hook, c.draw).ops);
    }
  }

  lemma SamePrefix(a: seq<Op>, x: seq<Op>, y: seq<Op>)
    ensures a + x == a + y ==> x == y
  {
    if a + x == a + y {
      assert x == (a + x)[|a|..];
      assert y == (a + y)[|a|..];
    }
  }

  /** The crash-free run is refined in every run in which only hooks that reset first,
      or `e`, follow a session end, exactly when `e` resets first. */
  lemma RefinementNeedsResets(e: Event)
    ensures ResetsFirst(e) <==>
            forall w, s :: Reachable(w) && InOrder(w, s) && OrderlyBut(w, s, e) ==> Replays(w, s)
  {
    hide Reachable, InOrder, Replays, Chain;
    if ResetsFirst(e) {
      forall w, s | Reachable(w) && InOrder(w, s) && OrderlyBut(w, s, e) ensures Replays(w, s) {
        ResetsReplay(w, s);
      }
    } else {
      var w := ThreeHooks(e);
      ChainIsOrdered(w, e);
      ChainDiffers(w, e);
    }
  }

  lemma ResetsReplay(w: World, s: string)
    requires Reachable(w) && InOrder(w, s) && Orderly(w, s)
    ensures Replays(w, s)
  {
    hide Reachable, InOrder, Orderly;
    SessionReplayed(w, s);
  }
}

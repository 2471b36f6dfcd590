/** What the journal guarantees in every run: order, isolation, one execution per
    epoch, and refinement of the crash-free run. */
module JournalTheorems {
  import opened Session
  import opened Journal
  import opened ExactlyOnce
  import opened SessionOrder
  import opened CrashRefinement
  import opened SessionEffect
  import opened JournalHistory
  import O = OneExecution

  // ---- Everything at once, over every run ----

  ghost predicate SessionOk(w: World, s: string) {
    Ordered(w, s) && Chained(w, s) && Effects(w, s) && O.Charged(w, s)
  }

  ghost predicate Good(w: World) {
    Base(w) && Unrepeated(w) && Accounted(w) && forall s :: InOrder(w, s) ==> SessionOk(w, s)
  }

  lemma EnqueueOk(w: World, name: Name, hook: Hook, s: string)
    requires Base(w) && CanEnqueue(w, name, hook) && SessionOk(w, s) && InOrder(DoEnqueue(w, name, hook), s)
    ensures SessionOk(DoEnqueue(w, name, hook), s)
  {
    hide Base, Ordered, Chained, Effects, O.Charged, InOrder;
    EnqueueOrdered(w, name, hook, s);
    EnqueueChained(w, name, hook, s);
    EnqueueEffects(w, name, hook, s);
    O.EnqueueCharged(w, name, hook, s);
  }

  lemma StepOk(w: World, a: Step, s: string)
    requires Base(w) && SessionOk(w, s) && Enabled(w, a) && !a.Enqueue?
    ensures SessionOk(Apply(w, a), s)
  {
    hide Base, Ordered, Chained, Effects, O.Charged, Enabled, Apply;
    StepOrdered(w, a, s);
    StepChained(w, a, s);
    StepEffects(w, a, s);
    O.StepCharged(w, a, s);
  }

  ghost predicate SameArrivals(w: World, w': World) {
    w'.hooks == w.hooks && w'.arrived == w.arrived
  }

  lemma WriteArrivals(w: World, a: Step)
    requires Enabled(w, a)
    requires a.LoseReply? || a.Reject? || a.FailPersist? || a.FailRecord? || a.FailPrepare?
    ensures SameArrivals(w, Apply(w, a))
  {
    hide CanEnqueue, CanAsk, CanLoad, CanRefuse;
    match a
    case LoseReply(applied, written) => assert SameArrivals(w, DoSend(w));
    case Reject(written) => assert SameArrivals(w, DoMark(w, true));
    case FailPersist(written) => assert SameArrivals(w, DoPersist(w));
    case FailRecord(written) => assert SameArrivals(w, DoRecord(w));
    case FailPrepare(asked) => assert SameArrivals(w, DoAsk(w));
  }

  lemma QuietOrder(w: World, a: Step)
    requires Enabled(w, a) && !a.Enqueue?
    ensures SameArrivals(w, Apply(w, a))
  {
    hide CanEnqueue, PrepareAgainst, CanAsk, CanLoad, CanRefuse, DoMark;
    if a.LoseReply? || a.Reject? || a.FailPersist? || a.FailRecord? || a.FailPrepare? {
      WriteArrivals(w, a);
    }
  }

  lemma StepGood(w: World, a: Step)
    requires Good(w) && Enabled(w, a)
    ensures Good(Apply(w, a))
  {
    hide Core, Arrivals, Listed, Unrepeated, Accounted, SessionOk, InOrder;
    var w' := Apply(w, a);
    StepUnrepeated(w, a);
    StepAccounted(w, a);
    if a.Enqueue? {
      EnqueueBase(w, a.name, a.hook);
      forall s | InOrder(w', s) ensures SessionOk(w', s) {
        EnqueueOrder(w, a.name, a.hook, s);
        EnqueueOk(w, a.name, a.hook, s);
      }
    } else {
      StepBase(w, a);
      QuietOrder(w, a);
      forall s | InOrder(w', s) ensures SessionOk(w', s) {
        SameOrder(w, w', s);
        StepOk(w, a, s);
      }
    }
  }

  lemma SameOrder(w: World, w': World, s: string)
    requires w'.hooks == w.hooks && w'.arrived == w.arrived && InOrder(w', s)
    ensures InOrder(w, s)
  {
    forall n ensures Mine(w', s, n) == Mine(w, s, n) {
    }
  }

  lemma StepBase(w: World, a: Step)
    requires Base(w) && Enabled(w, a) && !a.Enqueue?
    ensures Base(Apply(w, a))
  {
    StepKeepsCore(w, a);
    QuietOrder(w, a);
    StepListed(w, a);
    hide Core, Apply, Enabled, Listed;
  }

  lemma StepListed(w: World, a: Step)
    requires Base(w) && Enabled(w, a) && !a.Enqueue?
    ensures Listed(Apply(w, a))
  {
    hide Core, CanEnqueue, CanAsk, PrepareAgainst, RefusedNow;
    if w.worker.Scan? && w.worker.d.todo != [] {
      RestOf(w.worker.d.todo);
    }
    if w.worker.Hold? {
      HeldFacts(w);
    }
  }

  lemma StartGood()
    ensures Good(START)
  {
    forall s ensures SessionOk(START, s) {
    }
  }

  lemma {:induction false} RunGood(w: World, actions: seq<Step>, w': World)
    requires Good(w) && Runs(w, actions, w')
    ensures Good(w')
    decreases actions
  {
    hide Good, Enabled, Apply;
    if actions != [] {
      StepGood(w, actions[0]);
      RunGood(Apply(w, actions[0]), actions[1..], w');
    }
  }

  lemma ReachableGood(w: World)
    requires Reachable(w)
    ensures Good(w)
  {
    hide Good, Runs;
    var actions :| Runs(START, actions, w);
    StartGood();
    RunGood(START, actions, w);
  }

  lemma ReachableSession(w: World, s: string)
    requires Reachable(w) && InOrder(w, s)
    ensures Base(w) && SessionOk(w, s)
  {
    hide Reachable, Base, SessionOk, InOrder, Unrepeated, Accounted;
    ReachableGood(w);
  }

  // ---- Order within a session ----

  lemma {:induction false} HeldStable(log: seq<Request>, n: Name, j: nat)
    requires j <= |log| && forall i :: j <= i < |log| ==> log[i].name != n
    ensures Held(log[..j], n) == Held(log, n)
    decreases |log|
  {
    if j < |log| {
      var front := log[..|log| - 1];
      HeldStable(front, n, j);
      assert front[..j] == log[..j];
    } else {
      assert log[..j] == log;
    }
  }

  /** By the time anything of a hook is sent, every earlier hook of its session is
      finished and everything of it has been applied, whatever was rejected or
      reconfigured in between. */
  lemma OrderWithinSession(w: World, s: string, m: Name, n: Name, j: nat)
    requires Reachable(w) && InOrder(w, s) && Mine(w, s, m) && Mine(w, s, n) && m < n
    requires j < |w.log| && w.log[j].name == n
    ensures m in w.done && w.done[m].prep.Some?
    ensures Held(w.log[..j], m) == w.done[m].prep.value.ops
    ensures forall i :: j <= i < |w.log| ==> w.log[i].name != m
  {
    hide Core, Chained, Effects, O.Charged, Reachable, InOrder, Arrivals, Listed, Queued, Trailed, Held;
    ReachableSession(w, s);
    LogFacts(w);
    HistoryFacts(w);
    assert w.log[j] in w.log;
    assert m in w.done;
    ExactlyOnceEffect(w, m);
    forall i | j <= i < |w.log| ensures w.log[i].name != m {
      assert w.log[i] in w.log;
    }
    HeldStable(w.log, m, j);
  }

  // ---- Isolation between sessions ----

  /** A drain that reaches the end of its list has finished exactly the listed hooks
      that are not behind a hook of their own session, or are themselves one, that
      was refused at the start or rejected permanently. */
  lemma DrainIsolation(w: World, n: Name)
    requires Reachable(w) && w.worker.Scan? && w.worker.d.todo == [] && n in w.worker.d.listing
    ensures n in w.hooks
    ensures var s, blocked := w.hooks[n].session, w.worker.d.blocked;
            && (n in w.spool <==> s in blocked && Culprit(blocked[s]) <= n)
            && (n in w.done <==> n !in w.spool)
    ensures forall s :: s in w.worker.d.blocked ==>
              var c := Culprit(w.worker.d.blocked[s]);
              c in w.worker.d.listing && Mine(w, s, c) && c in w.spool
  {
    hide Core, Arrivals, Listed, Unrepeated, SessionOk, Reachable;
    ReachableGood(w);
    HistoryFacts(w);
  }

  /** The step that blocks a session: one of its files was found to record a refusal under
      the configuration in force, or one of its operations came back refused. */
  ghost predicate Convicts(w: World, a: Step, s: string, b: Blame) {
    Enabled(w, a) &&
    match b
    case Refused(n) =>
      a.Refuse? && w.worker.d.todo[0] == n && w.spool[n].hook.session == s && w.spool[n].permanent
      && w.spool[n].config == w.worker.d.config
    case Rejected(n) => a.Reject? && w.worker.name == n && w.worker.env.hook.session == s
  }

  /** Such a step, taken after the last beginning of a drain. */
  ghost predicate Cause(actions: seq<Step>, i: nat, w: World, s: string, b: Blame) {
    && i < |actions| && Runs(START, actions[..i], w) && Convicts(w, actions[i], s, b)
    && forall j :: i <= j < |actions| ==> !actions[j].Begin?
  }

  ghost predicate Blames(w: World, s: string, b: Blame)
    requires !w.worker.Idle?
  {
    s in w.worker.d.blocked && w.worker.d.blocked[s] == b
  }

  lemma HeldUnblocked(w: World)
    requires Good(w) && Sending(w)
    ensures w.worker.env.hook.session !in w.worker.d.blocked
  {
    hide Core, Arrivals, Unrepeated, SessionOk, InOrder;
    HistoryFacts(w);
    HeldFacts(w);
  }

  /** A held hook's session is not blocked, so no blame is ever replaced. */
  lemma StepBlames(w: World, a: Step, s: string, b: Blame)
    requires Good(w) && Enabled(w, a) && !w.worker.Idle? && !Apply(w, a).worker.Idle?
    ensures !a.Begin? && (Blames(Apply(w, a), s, b) <==> Blames(w, s, b) || Convicts(w, a, s, b))
  {
    hide Good, InOrder, CanEnqueue, PrepareAgainst, CanAsk;
    if a.Reject? {
      HeldUnblocked(w);
    }
  }

  lemma {:induction false} LastStep(w: World, actions: seq<Step>, w': World) returns (before: World)
    requires Runs(w, actions, w') && actions != []
    ensures var n := |actions| - 1;
            Runs(w, actions[..n], before) && Enabled(before, actions[n]) && Apply(before, actions[n]) == w'
    decreases actions
  {
    hide Enabled, Apply;
    var n := |actions| - 1;
    if n == 0 {
      before := w;
    } else {
      before := LastStep(Apply(w, actions[0]), actions[1..], w');
      assert actions[1..][..n - 1] == actions[..n][1..];
    }
  }

  /** A session is blocked, in whatever state a drain is, exactly when a step of that drain
      found one of its files refused or had one of its operations rejected. */
  lemma {:induction false} BlameIffCause(actions: seq<Step>, w: World, s: string, b: Blame)
    requires Runs(START, actions, w) && !w.worker.Idle?
    ensures Blames(w, s, b) <==> exists i: nat, mid :: Cause(actions, i, mid, s, b)
    decreases actions
  {
    hide Enabled, Apply, Good, Convicts, Blames;
    var n := |actions| - 1;
    var before := LastStep(START, actions, w);
    var front, a := actions[..n], actions[n];
    StartGood();
    RunGood(START, front, before);
    if before.worker.Idle? {
      BeginsDrain(before, a);
      forall i: nat, mid ensures !Cause(actions, i, mid, s, b) {
      }
    } else {
      StepBlames(before, a, s, b);
      BlameIffCause(front, before, s, b);
      forall i: nat, mid | Cause(front, i, mid, s, b) ensures Cause(actions, i, mid, s, b) {
        assert front[..i] == actions[..i];
      }
      if Convicts(before, a, s, b) {
        assert Cause(actions, n, before, s, b);
      }
      forall i: nat, mid | Cause(actions, i, mid, s, b) ensures Cause(front, i, mid, s, b) || Convicts(before, a, s, b) {
        if i < n {
          assert front[..i] == actions[..i];
        } else {
          RunsAgree(START, front, mid, before);
        }
      }
    }
  }

  lemma BeginsDrain(w: World, a: Step)
    requires w.worker.Idle? && Enabled(w, a) && !Apply(w, a).worker.Idle?
    ensures a.Begin? && forall s, b :: !Blames(Apply(w, a), s, b)
  {
  }

  lemma {:induction false} RunsAgree(w: World, actions: seq<Step>, x: World, y: World)
    requires Runs(w, actions, x) && Runs(w, actions, y)
    ensures x == y
    decreases actions
  {
    hide Enabled, Apply;
    if actions != [] {
      RunsAgree(Apply(w, actions[0]), actions[1..], x, y);
    }
  }

  // ---- One execution per epoch ----

  lemma BusyStep(w: World, s: string, j: nat)
    requires SoundTrail(w, s) && 0 < j <= |Trail(w, s)|
    ensures O.Busy(After(w, Trail(w, s)[..j - 1])) ==>
              O.Busy(After(w, Trail(w, s)[..j])) || LeftBy(w, Trail(w, s)[j - 1]).closed
  {
    hide PrepareAgainst;
    var n := Trail(w, s)[j - 1];
    var previous := After(w, Trail(w, s)[..j - 1]);
    assert Trail(w, s)[..j][j - 1] == n;
    var p := w.done[n].prep.value;
    assert Sound(p, w.hooks[n], previous);
    if O.Busy(previous) {
      O.BusyStays(p.base, w.hooks[n], p.draw);
    }
  }

  lemma {:induction false} BusyUntilClosed(w: World, s: string, i: nat, j: nat)
    requires SoundTrail(w, s) && i <= j <= |Trail(w, s)|
    requires O.Busy(After(w, Trail(w, s)[..i]))
    ensures O.Busy(After(w, Trail(w, s)[..j])) ||
            exists k :: i <= k < j && LeftBy(w, Trail(w, s)[k]).closed
    decreases j
  {
    hide SoundTrail, O.Busy, After, LeftBy;
    if i < j {
      BusyUntilClosed(w, s, i, j - 1);
      BusyStep(w, s, j);
    }
  }

  /** Every request to start an execution carries a key made from the asking
      hook's own persisted id; a retry of the same hook repeats the key, and
      between the starts of two different hooks the session was closed. */
  lemma OneExecutionPerEpoch(w: World, s: string, a: Start, b: Start)
    requires Reachable(w) && InOrder(w, s)
    requires a in w.starts && b in w.starts && a.session == b.session == s && a.name <= b.name
    ensures a.name in w.hooks && a.key == "cc-" + w.hooks[a.name].id
    ensures a.name == b.name ==> a.key == b.key
    ensures a.name < b.name ==> exists e :: e in w.done && Mine(w, s, e) && a.name < e < b.name && LeftBy(w, e).closed
  {
    hide Core, Effects, SoundSpool, SoundDisk, SoundHeld, Reachable, InOrder, Arrivals, Listed, Queued, LogOrdered, O.Busy, Starts;
    ReachableSession(w, s);
    O.StartFacts(w);
    HistoryFacts(w);
    assert O.Justified(w, s, a.name, a.key) && O.Justified(w, s, b.name, b.key);
    if a.name < b.name {
      assert a.name in w.done;
      var i := Position(w, s, a.name);
      if b.name in w.done {
        var j := Position(w, s, b.name);
        ClosedBetween(w, s, i, j);
      } else {
        assert b.name in w.spool;
        StartedIdle(w, s, b);
        assert Trail(w, s)[..|Trail(w, s)|] == Trail(w, s);
        ClosedBetween(w, s, i, |Trail(w, s)|);
      }
    }
  }

  lemma Position(w: World, s: string, n: Name) returns (i: nat)
    requires Trailed(w, s) && n in w.done && Mine(w, s, n)
    ensures i < |Trail(w, s)| && Trail(w, s)[i] == n
  {
    assert n in Trail(w, s);
    i :| 0 <= i < |Trail(w, s)| && Trail(w, s)[i] == n;
  }

  /** A hook that has asked for an execution but is not finished found none open. */
  lemma StartedIdle(w: World, s: string, b: Start)
    requires Base(w) && Ordered(w, s) && Chained(w, s) && O.Charged(w, s)
    requires b in w.starts && b.session == s && b.name in w.spool
    ensures !O.Busy(Last(w, s))
    ensures forall e :: e in w.done && Mine(w, s, e) ==> e < b.name
  {
    O.StartFacts(w);
    HistoryFacts(w);
    assert O.Justified(w, s, b.name, b.key);
    hide Core, SoundTrail, SoundHeld, Arrivals, Listed, Queued, Trailed, LogOrdered, O.Charged;
    PreparedNone(w, s, b.name);
  }

  lemma PreparedNone(w: World, s: string, n: Name)
    requires Base(w) && Ordered(w, s) && Mine(w, s, n) && n in w.begun && n in w.spool
    ensures forall e :: e in w.done && Mine(w, s, e) ==> e < n
    ensures forall e :: Unfinished(w, s, e) ==> e == n
  {
    hide Core;
    HistoryFacts(w);
    PreparedBegun(w);
  }

  lemma ClosedBetween(w: World, s: string, i: nat, j: nat)
    requires SoundTrail(w, s) && Ascending(Trail(w, s)) && (forall n :: n in Trail(w, s) ==> n in w.done && Mine(w, s, n))
    requires i < |Trail(w, s)| && j <= |Trail(w, s)|
    requires O.Busy(LeftBy(w, Trail(w, s)[i])) && !O.Busy(After(w, Trail(w, s)[..j])) && i < j
    ensures exists k :: i < k < j && k < |Trail(w, s)| && Trail(w, s)[i] < Trail(w, s)[k] &&
              Trail(w, s)[k] in w.done && Mine(w, s, Trail(w, s)[k]) && LeftBy(w, Trail(w, s)[k]).closed
  {
    hide SoundTrail, O.Busy, After, LeftBy;
    var trail := Trail(w, s);
    AfterLast(w, trail, i);
    BusyUntilClosed(w, s, i + 1, j);
    var k :| i + 1 <= k < j && LeftBy(w, trail[k]).closed;
    assert trail[k] in trail;
  }

  lemma AfterLast(w: World, trail: seq<Name>, i: nat)
    requires i < |trail|
    ensures After(w, trail[..i + 1]) == LeftBy(w, trail[i])
  {
    assert trail[..i + 1][i] == trail[i];
  }
}

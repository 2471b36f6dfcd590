/** Within a session, hooks are handled strictly in name order, provided their
    files became visible in that order. */
module SessionOrder {
  import opened Session
  import opened Journal
  import opened ExactlyOnce

  ghost predicate Mine(w: World, s: string, n: Name) {
    n in w.hooks && w.hooks[n].session == s
  }

  /** The session's files became visible in name order. */
  ghost predicate InOrder(w: World, s: string) {
    forall i, j :: 0 <= i < j < |w.arrived| && Mine(w, s, w.arrived[i]) && Mine(w, s, w.arrived[j]) ==>
      w.arrived[i] < w.arrived[j]
  }

  ghost predicate Arrivals(w: World) {
    forall n :: n in w.arrived <==> n in w.hooks
  }

  /** The worker's list of files left to do. */
  ghost predicate Listed(w: World) {
    !w.worker.Idle? ==>
      var d := w.worker.d;
      && Ascending(d.todo)
      && (forall n :: n in d.todo ==> n in w.spool)
      && (w.worker.Hold? ==>
            && (forall n :: n in d.todo ==> w.worker.name < n)
            && w.worker.env.hook.session !in d.blocked)
  }

  ghost predicate Holds(w: World, n: Name) {
    w.worker.Hold? && w.worker.name == n
  }

  /** An unfinished hook before a listed one is itself still to come, unless its session is blocked. */
  ghost predicate Queued(w: World, s: string) {
    !w.worker.Idle? && s !in w.worker.d.blocked ==>
      forall m, n :: Mine(w, s, m) && m !in w.done && n in w.worker.d.todo && Mine(w, s, n) && m < n ==>
        m in w.worker.d.todo || Holds(w, m)
  }

  /** Nothing of the session is begun before everything earlier is done. */
  ghost predicate Sequential(w: World, s: string) {
    forall m, n :: Mine(w, s, m) && Mine(w, s, n) && m < n && n in w.begun ==> m in w.done
  }

  /** The order of removal is name order and covers the finished hooks. */
  ghost predicate Trailed(w: World, s: string) {
    && Ascending(Trail(w, s))
    && (forall n :: n in Trail(w, s) <==> n in w.done && Mine(w, s, n))
  }

  ghost predicate LogOrdered(w: World, s: string) {
    forall i, j :: 0 <= i < j < |w.log| && w.log[i].session == s && w.log[j].session == s ==>
      w.log[i].name <= w.log[j].name
  }

  ghost predicate Ordered(w: World, s: string) {
    Queued(w, s) && Sequential(w, s) && Trailed(w, s) && LogOrdered(w, s)
  }

  ghost predicate Base(w: World) {
    Core(w) && Arrivals(w) && Listed(w)
  }

  // ---- Steps that touch neither the history nor the log ----

  ghost predicate SameHistory(w: World, w': World) {
    && w'.hooks == w.hooks && w'.arrived == w.arrived && w'.begun == w.begun
    && w'.done == w.done && w'.trail == w.trail && w'.log == w.log
  }

  /** The worker still holds the same file from the same list, or has stopped. */
  ghost predicate SameList(w: World, w': World) {
    || w'.worker.Idle?
    || (w.worker.Hold? && w'.worker.Hold? && w'.worker.d == w.worker.d && w'.worker.name == w.worker.name
        && w'.worker.env.hook == w.worker.env.hook)
  }

  lemma QuietOrdered(w: World, w': World, s: string)
    requires Base(w) && Ordered(w, s) && Core(w')
    requires SameHistory(w, w') && SameList(w, w') && (forall n :: n in w.spool ==> n in w'.spool)
    ensures Base(w') && Ordered(w', s)
  {
    hide Core;
  }

  /** The worker moves on through its list. */
  lemma MoveOrdered(w: World, w': World, s: string)
    requires Base(w) && Ordered(w, s) && Core(w')
    requires SameHistory(w, w') && w'.spool == w.spool
    requires !w.worker.Idle? && w'.worker.Scan?
    requires w'.worker.d.todo == w.worker.d.todo ||
             (w.worker.Scan? && w.worker.d.todo != [] && w'.worker.d.todo == w.worker.d.todo[1..])
    requires forall t :: t in w.worker.d.blocked ==> t in w'.worker.d.blocked
    requires s !in w'.worker.d.blocked ==>
               (w.worker.Hold? && Mine(w, s, w.worker.name) ==> w.worker.name in w.done) &&
               (w'.worker.d.todo != w.worker.d.todo ==> !Mine(w, s, w.worker.d.todo[0]))
    ensures Base(w') && Ordered(w', s)
  {
    hide Core;
    if w'.worker.d.todo != w.worker.d.todo {
      RestOf(w.worker.d.todo);
    }
    assert Listed(w');
    assert Queued(w', s);
  }

  lemma RestOf(todo: seq<Name>)
    requires Ascending(todo) && todo != []
    ensures Ascending(todo[1..])
    ensures forall n :: n in todo[1..] ==> n in todo && todo[0] < n
    ensures forall n :: n in todo && n != todo[0] ==> n in todo[1..]
  {
  }

  // ---- Arrival ----

  lemma EnqueueOrder(w: World, name: Name, hook: Hook, s: string)
    requires Arrivals(w) && name !in w.hooks && InOrder(DoEnqueue(w, name, hook), s)
    ensures InOrder(w, s)
    ensures hook.session == s ==> forall n :: Mine(w, s, n) ==> n < name
  {
    var w' := DoEnqueue(w, name, hook);
    forall i, j | 0 <= i < j < |w.arrived| && Mine(w, s, w.arrived[i]) && Mine(w, s, w.arrived[j])
      ensures w.arrived[i] < w.arrived[j]
    {
      assert w'.arrived[i] == w.arrived[i] && w'.arrived[j] == w.arrived[j];
    }
    if hook.session == s {
      forall n | Mine(w, s, n) ensures n < name {
        var i :| 0 <= i < |w.arrived| && w.arrived[i] == n;
        assert w'.arrived[i] == n && w'.arrived[|w.arrived|] == name;
      }
    }
  }

  lemma EnqueueBase(w: World, name: Name, hook: Hook)
    requires Base(w) && CanEnqueue(w, name, hook)
    ensures Base(DoEnqueue(w, name, hook))
  {
    EnqueueKeeps(w, name, hook);
    hide Core;
  }

  lemma EnqueueQueued(w: World, name: Name, hook: Hook, s: string)
    requires Queued(w, s) && name !in w.hooks && (!w.worker.Idle? ==> name !in w.worker.d.todo)
    requires !w.worker.Idle? ==> forall n :: n in w.worker.d.todo ==> n in w.hooks
    requires hook.session == s ==> forall n :: Mine(w, s, n) ==> n < name
    ensures Queued(DoEnqueue(w, name, hook), s)
  {
    var w' := DoEnqueue(w, name, hook);
    forall n ensures Mine(w', s, n) <==> Mine(w, s, n) || (n == name && hook.session == s) {
    }
  }

  lemma EnqueueOrdered(w: World, name: Name, hook: Hook, s: string)
    requires Base(w) && CanEnqueue(w, name, hook) && Ordered(w, s)
    requires InOrder(DoEnqueue(w, name, hook), s)
    ensures Ordered(DoEnqueue(w, name, hook), s)
  {
    hide Core;
    var w' := DoEnqueue(w, name, hook);
    EnqueueOrder(w, name, hook, s);
    HistoryFacts(w);
    assert name !in w.spool;
    assert !w.worker.Idle? ==> forall n :: n in w.worker.d.todo ==> n in w.spool;
    EnqueueQueued(w, name, hook, s);
    EnqueueTraces(w, name, hook, s);
  }

  lemma EnqueueTraces(w: World, name: Name, hook: Hook, s: string)
    requires Sequential(w, s) && Trailed(w, s) && name !in w.hooks && name !in w.begun && name !in w.done
    requires hook.session == s ==> forall n :: Mine(w, s, n) ==> n < name
    ensures Sequential(DoEnqueue(w, name, hook), s) && Trailed(DoEnqueue(w, name, hook), s)
  {
    var w' := DoEnqueue(w, name, hook);
    assert Trail(w', s) == Trail(w, s);
    forall n ensures Mine(w', s, n) <==> Mine(w, s, n) || (n == name && hook.session == s) {
    }
  }

  // ---- The worker's steps ----

  lemma BeginOrdered(w: World, listing: seq<Name>, config: string, s: string)
    requires Base(w) && Ordered(w, s) && CanBegin(w, listing)
    ensures Base(DoBegin(w, listing, config)) && Ordered(DoBegin(w, listing, config), s)
  {
    hide Core;
    var w' := DoBegin(w, listing, config);
    ReleaseKeeps(w, w');
    HistoryFacts(w);
    assert Queued(w', s);
  }

  lemma LoadOrdered(w: World, s: string)
    requires Base(w) && Ordered(w, s) && CanLoad(w)
    ensures Base(DoLoad(w)) && Ordered(DoLoad(w), s)
  {
    hide Core;
    var w' := DoLoad(w);
    LoadKeeps(w);
    RestOf(w.worker.d.todo);
    var head := w.worker.d.todo[0];
    HistoryFacts(w);
    assert Queued(w', s) by {
      hide InOrder, Sequential, Trailed, LogOrdered, Arrivals;
    }
    assert Sequential(w', s) by {
      hide InOrder, Trailed, LogOrdered, Arrivals;
      forall m | Mine(w, s, m) && Mine(w, s, head) && m < head ensures m in w.done {
        assert m !in w.worker.d.todo;
      }
      hide Queued, Listed;
    }
    assert Listed(w');
  }

  lemma SendOrdered(w: World, s: string)
    requires Base(w) && Ordered(w, s) && Sending(w)
    ensures Base(DoSend(w)) && Ordered(DoSend(w), s)
  {
    hide Core;
    var w', k := DoSend(w), w.worker;
    SendKeeps(w);
    HeldFacts(w);
    LogFacts(w);
    assert LogOrdered(w', s) by {
      hide InOrder, Queued, Trailed, Listed, Arrivals;
      forall r | r in w.log && r.session == s && k.env.hook.session == s ensures r.name <= k.name {
        assert Mine(w, s, r.name) && Mine(w, s, k.name);
      }
      forall i, j | 0 <= i < j < |w'.log| && w'.log[i].session == s && w'.log[j].session == s
        ensures w'.log[i].name <= w'.log[j].name
      {
        assert w'.log[i] == w.log[i] && w.log[i] in w.log;
      }
    }
    assert Queued(w', s) && Sequential(w', s) && Trailed(w', s);
  }

  lemma RemoveOrdered(w: World, s: string)
    requires Base(w) && Ordered(w, s) && Finishing(w)
    ensures Base(DoRemove(w)) && Ordered(DoRemove(w), s)
  {
    hide Core;
    var w' := DoRemove(w);
    RemoveKeeps(w);
    HeldFacts(w);
    HistoryFacts(w);
    RemoveTrailed(w, s);
    assert Queued(w', s) by {
      hide InOrder, Sequential, Trailed, LogOrdered, Arrivals;
    }
    assert Sequential(w', s) by {
      hide InOrder, Queued, Trailed, LogOrdered, Arrivals, Listed;
    }
    assert Listed(w');
  }

  lemma AppendAscending(names: seq<Name>, n: Name)
    requires Ascending(names) && forall m :: m in names ==> m < n
    ensures Ascending(names + [n])
    ensures forall m :: m in names + [n] <==> m in names || m == n
  {
    var all := names + [n];
    forall i, j | 0 <= i < j < |all| ensures all[i] < all[j] {
      assert all[i] == names[i] && names[i] in names;
      assert j < |names| ==> all[j] == names[j];
    }
  }

  lemma RemoveTrailed(w: World, s: string)
    requires Finishing(w) && Trailed(w, s) && Sequential(w, s)
    requires w.worker.name !in w.done && w.worker.name in w.hooks && w.hooks[w.worker.name] == w.worker.env.hook
    requires forall n :: n in w.done ==> n in w.begun
    ensures Trailed(DoRemove(w), s)
  {
    var w', k := DoRemove(w), w.worker;
    if k.env.hook.session == s {
      forall n | n in Trail(w, s) ensures n < k.name {
        assert Mine(w, s, n) && Mine(w, s, k.name);
      }
      assert Trail(w', s) == Trail(w, s) + [k.name];
      AppendAscending(Trail(w, s), k.name);
      assert forall n :: Mine(w', s, n) <==> Mine(w, s, n);
    } else {
      assert Trail(w', s) == Trail(w, s);
      assert !Mine(w, s, k.name);
    }
  }

  // ---- Assembling one step ----

  lemma HaltOrdered(w: World, w': World, s: string)
    requires Base(w') && Ordered(w', s)
    ensures Base(Halt(w')) && Ordered(Halt(w'), s)
  {
    ReleaseKeeps(w', Halt(w'));
    QuietOrdered(w', Halt(w'), s);
  }

  lemma AskOrdered(w: World, s: string)
    requires Base(w) && Ordered(w, s) && InPhase(w, Preparing)
    ensures Base(DoAsk(w)) && Ordered(DoAsk(w), s)
  {
    AskKeeps(w);
    QuietOrdered(w, DoAsk(w), s);
  }

  lemma PrepareOrdered(w: World, draw: Draw, s: string)
    requires Base(w) && Ordered(w, s) && CanPrepare(w, draw)
    ensures Base(DoPrepare(w, draw)) && Ordered(DoPrepare(w, draw), s)
  {
    hide PrepareAgainst, Core;
    PrepareKeeps(w, draw);
    QuietOrdered(w, DoPrepare(w, draw), s);
  }

  lemma PersistOrdered(w: World, s: string)
    requires Base(w) && Ordered(w, s) && InPhase(w, Persisting)
    ensures Base(DoPersist(w)) && Ordered(DoPersist(w), s)
  {
    hide Core;
    PersistKeeps(w);
    QuietOrdered(w, DoPersist(w), s);
  }

  lemma SaveOrdered(w: World, s: string)
    requires Base(w) && Ordered(w, s) && CanSave(w)
    ensures Base(DoSave(w)) && Ordered(DoSave(w), s)
  {
    hide Core;
    SaveKeeps(w);
    QuietOrdered(w, DoSave(w), s);
  }

  lemma AcknowledgeOrdered(w: World, s: string)
    requires Base(w) && Ordered(w, s) && Sending(w)
    ensures Base(DoAcknowledge(w)) && Ordered(DoAcknowledge(w), s)
  {
    hide Core;
    SendOrdered(w, s);
    AcknowledgeKeeps(w);
    QuietOrdered(DoSend(w), DoAcknowledge(w), s);
  }

  lemma MarkOrdered(w: World, permanent: bool, s: string)
    requires Base(w) && Ordered(w, s) && InPhase(w, Delivering)
    ensures Base(DoMark(w, permanent)) && Ordered(DoMark(w, permanent), s)
  {
    hide Core;
    MarkKeeps(w, permanent);
    QuietOrdered(w, DoMark(w, permanent), s);
  }

  lemma RecordOrdered(w: World, s: string)
    requires Base(w) && Ordered(w, s) && InPhase(w, Recording)
    ensures Base(DoRecord(w)) && Ordered(DoRecord(w), s)
  {
    hide Core;
    RecordKeeps(w);
    QuietOrdered(w, DoRecord(w), s);
  }

  lemma SkipOrdered(w: World, s: string)
    requires Base(w) && Ordered(w, s) && HeadIs(w, true)
    ensures Base(DoSkip(w)) && Ordered(DoSkip(w), s)
  {
    hide Core;
    ReleaseKeeps(w, DoSkip(w));
    HistoryFacts(w);
    MoveOrdered(w, DoSkip(w), s);
  }

  lemma RefuseOrdered(w: World, s: string)
    requires Base(w) && Ordered(w, s) && CanRefuse(w)
    ensures Base(DoRefuse(w)) && Ordered(DoRefuse(w), s)
  {
    hide Core;
    ReleaseKeeps(w, DoRefuse(w));
    HistoryFacts(w);
    MoveOrdered(w, DoRefuse(w), s);
  }

  lemma BlockOrdered(w: World, s: string)
    requires Base(w) && Ordered(w, s) && InPhase(w, Delivering)
    ensures Base(DoBlock(w)) && Ordered(DoBlock(w), s)
  {
    hide Core;
    ReleaseKeeps(w, DoBlock(w));
    HeldFacts(w);
    MoveOrdered(w, DoBlock(w), s);
  }

  lemma ClearOrdered(w: World, removed: bool, s: string)
    requires Base(w) && Ordered(w, s) && CanClear(w, removed)
    ensures Base(DoClear(w, removed)) && Ordered(DoClear(w, removed), s)
  {
    hide Core;
    ReleaseKeeps(w, DoClear(w, removed));
    HeldFacts(w);
    MoveOrdered(w, DoClear(w, removed), s);
  }

  /** Every step but an arrival keeps the order, and leaves the arrivals alone. */
  lemma StepOrdered(w: World, a: Step, s: string)
    requires Base(w) && Ordered(w, s) && Enabled(w, a) && !a.Enqueue?
    ensures Base(Apply(w, a)) && Ordered(Apply(w, a), s)
  {
    hide Base, Ordered, Core, CanEnqueue, CanLoad, CanRefuse, CanAsk, DoLoad, DoSkip, DoRefuse, DoAsk, DoPrepare,
      DoPersist, DoSave, DoAcknowledge, DoSend, DoRecord, DoRemove, DoBlock, DoClear;
    match a
    case Begin(listing, config) => BeginOrdered(w, listing, config, s);
    case Skip => SkipOrdered(w, s);
    case Refuse => RefuseOrdered(w, s);
    case Load => LoadOrdered(w, s);
    case Prepare(draw) => PrepareOrdered(w, draw, s);
    case FailPrepare(asked) =>
      AskOrdered(w, s);
      HaltOrdered(w, if asked then DoAsk(w) else w, s);
    case Persist => PersistOrdered(w, s);
    case FailPersist(written) =>
      PersistOrdered(w, s);
      HaltOrdered(w, if written then DoPersist(w) else w, s);
    case Save => SaveOrdered(w, s);
    case Acknowledge => AcknowledgeOrdered(w, s);
    case LoseReply(applied, written) => LoseReplyOrdered(w, applied, written, s);
    case Reject(written) =>
      MarkOrdered(w, true, s);
      BlockOrdered(if written then DoMark(w, true) else w, s);
    case Record => RecordOrdered(w, s);
    case FailRecord(written) =>
      RecordOrdered(w, s);
      HaltOrdered(w, if written then DoRecord(w) else w, s);
    case Remove => RemoveOrdered(w, s);
    case Clear(removed) => ClearOrdered(w, removed, s);
    case _ => HaltOrdered(w, w, s);
  }

  lemma LoseReplyOrdered(w: World, applied: bool, written: bool, s: string)
    requires Base(w) && Ordered(w, s) && Sending(w)
    ensures var w' := if applied then DoSend(w) else w;
            var w'' := Halt(if written then DoMark(w', false) else w');
            Base(w'') && Ordered(w'', s)
  {
    hide Base, Ordered;
    SendOrdered(w, s);
    var w' := if applied then DoSend(w) else w;
    MarkOrdered(w', false, s);
    HaltOrdered(w, if written then DoMark(w', false) else w', s);
  }
}

/** What the server holds of a whole session is the operations of its finished
    hooks, in order, and then a prefix of the current one's. */
module SessionEffect {
  import opened Telemetry
  import opened Session
  import opened Journal
  import opened ExactlyOnce
  import opened SessionOrder
  import opened CrashRefinement

  /** What a server that ignores repeated operation ids holds of session `s`, in order of receipt. */
  function HeldOf(log: seq<Request>, s: string): seq<Op> {
    if log == [] then []
    else
      var front, r := log[..|log| - 1], log[|log| - 1];
      HeldOf(front, s) + if r.session == s && r.index !in Sent(front, r.name) then [r.op] else []
  }

  function OpsOf(w: World, n: Name): seq<Op> {
    if n in w.done && w.done[n].prep.Some? then w.done[n].prep.value.ops else []
  }

  function Flat(w: World, names: seq<Name>): seq<Op> {
    if names == [] then [] else Flat(w, names[..|names| - 1]) + OpsOf(w, names[|names| - 1])
  }

  ghost predicate Effects(w: World, s: string) {
    && ((forall n :: !Unfinished(w, s, n)) ==> HeldOf(w.log, s) == Flat(w, Trail(w, s)))
    && (forall n :: Unfinished(w, s, n) ==> HeldOf(w.log, s) == Flat(w, Trail(w, s)) + Held(w.log, n))
  }

  lemma {:induction false} KeepFlat(w: World, w': World, names: seq<Name>)
    requires forall n :: n in names ==> n in w.done && n in w'.done && w'.done[n] == w.done[n]
    ensures Flat(w', names) == Flat(w, names)
    decreases names
  {
    if names != [] {
      KeepFlat(w, w', names[..|names| - 1]);
    }
  }

  /** Neither the log nor the set of prepared files nor the finished hooks change. */
  lemma KeepEffects(w: World, w': World, s: string)
    requires Effects(w, s) && Trailed(w, s) && w'.log == w.log && Trail(w', s) == Trail(w, s)
    requires forall n :: Unfinished(w', s, n) <==> Unfinished(w, s, n)
    requires forall n :: n in w.done ==> n in w'.done && w'.done[n] == w.done[n]
    ensures Effects(w', s)
  {
    KeepFlat(w, w', Trail(w, s));
  }

  lemma KeepSpool(w: World, w': World, s: string)
    requires Effects(w, s) && w'.log == w.log && w'.trail == w.trail && w'.done == w.done && w'.hooks == w.hooks
    requires w'.spool == w.spool
    ensures Effects(w', s)
  {
    forall names ensures Flat(w', names) == Flat(w, names) {
      SameDone(w, w', names);
    }
    forall n ensures Unfinished(w', s, n) <==> Unfinished(w, s, n) {
    }
  }

  lemma {:induction false} SameDone(w: World, w': World, names: seq<Name>)
    requires w'.done == w.done
    ensures Flat(w', names) == Flat(w, names)
    decreases names
  {
    if names != [] {
      SameDone(w, w', names[..|names| - 1]);
    }
  }

  lemma EnqueueEffects(w: World, name: Name, hook: Hook, s: string)
    requires Ready(w, s) && Effects(w, s) && CanEnqueue(w, name, hook)
    ensures Effects(DoEnqueue(w, name, hook), s)
  {
    hide Core, Arrivals, Listed, Chained, Sequential, Queued, LogOrdered, Effects;
    HistoryFacts(w);
    assert name !in w.spool;
    var w' := DoEnqueue(w, name, hook);
    forall n ensures Unfinished(w', s, n) <==> Unfinished(w, s, n) {
    }
    KeepEffects(w, w', s);
  }

  /** Rewriting the held file; `env` keeps its preparation unless it is the first. */
  lemma WriteEffects(w: World, env: Envelope, worker: Worker, s: string)
    requires Ready(w, s) && Effects(w, s) && w.worker.Hold? && w.worker.phase != Clearing && w.worker.phase != Preparing
    requires env.hook == w.worker.env.hook && env.prep == w.worker.env.prep
    ensures Effects(Write(w, w.worker.name, env).(worker := worker), s)
  {
    hide Core, Arrivals, Listed, Chained, Sequential, Queued, LogOrdered, Effects;
    var w' := Write(w, w.worker.name, env).(worker := worker);
    HeldFacts(w);
    HeldPrep(w);
    if w.worker.phase == Persisting && env.hook.session == s {
      OnlyHeld(w, s);
      UnpreparedSent(w);
      forall n ensures Unfinished(w', s, n) ==> n == w.worker.name {
        assert n != w.worker.name && Unfinished(w', s, n) ==> Unfinished(w, s, n);
      }
      PersistEffects(w, w', s);
    } else {
      forall n ensures Unfinished(w', s, n) <==> Unfinished(w, s, n) {
      }
      KeepEffects(w, w', s);
    }
  }

  lemma UnpreparedSent(w: World)
    requires Core(w) && InPhase(w, Persisting)
    ensures Held(w.log, w.worker.name) == []
  {
    var n := w.worker.name;
    assert Sent(w.log, n) == [] by {
      hide Placed, Traced;
    }
    hide Core;
    NothingHeld(w.log, n);
  }

  lemma {:induction false} NothingHeld(log: seq<Request>, n: Name)
    requires Sent(log, n) == []
    ensures Held(log, n) == []
    decreases log
  {
    if log != [] {
      NothingHeld(log[..|log| - 1], n);
    }
  }

  lemma PersistEffects(w: World, w': World, s: string)
    requires Effects(w, s) && w.worker.Hold? && w'.log == w.log && w'.trail == w.trail && w'.done == w.done
    requires forall n :: !Unfinished(w, s, n)
    requires forall n :: Unfinished(w', s, n) ==> n == w.worker.name
    requires Held(w.log, w.worker.name) == []
    ensures Effects(w', s)
  {
    SameDone(w, w', Trail(w, s));
    assert Flat(w, Trail(w, s)) + [] == Flat(w, Trail(w, s));
  }

  lemma SendEffects(w: World, s: string)
    requires Ready(w, s) && Effects(w, s) && Sending(w)
    ensures Effects(DoSend(w), s)
  {
    hide Core, Arrivals, Listed, Chained, Sequential, Queued, LogOrdered, Effects, Sent, Held;
    var w', k := DoSend(w), w.worker;
    HeldFacts(w);
    HeldPrep(w);
    if k.env.hook.session == s {
      OnlyHeld(w, s);
    }
    SendHeld(w, s);
  }

  lemma SendHeld(w: World, s: string)
    requires Effects(w, s) && Sending(w) && w.worker.name in w.hooks && w.hooks[w.worker.name] == w.worker.env.hook
    requires w.worker.env.hook.session == s ==>
               Unfinished(w, s, w.worker.name) && forall n :: Unfinished(w, s, n) ==> n == w.worker.name
    ensures Effects(DoSend(w), s)
  {
    hide Sent;
    var w', k := DoSend(w), w.worker;
    var r := NextRequest(k.name, k.env);
    assert w'.log[..|w.log|] == w.log;
    SameDone(w, w', Trail(w, s));
    forall n ensures Held(w'.log, n) == Held(w.log, n) + if r.name == n && r.index !in Sent(w.log, n) then [r.op] else [] {
      LogAdd(w.log, r, n);
    }
    forall n ensures Unfinished(w', s, n) <==> Unfinished(w, s, n) {
    }
    if k.env.hook.session == s {
      var more := if r.index !in Sent(w.log, k.name) then [r.op] else [];
      assert HeldOf(w.log, s) == Flat(w, Trail(w, s)) + Held(w.log, k.name);
      assert Flat(w, Trail(w, s)) + Held(w.log, k.name) + more == Flat(w, Trail(w, s)) + (Held(w.log, k.name) + more);
    } else {
      assert HeldOf(w'.log, s) == HeldOf(w.log, s);
      forall n | Unfinished(w, s, n) ensures Held(w'.log, n) == Held(w.log, n) {
        assert n != k.name;
      }
    }
  }

  lemma RemoveEffects(w: World, s: string)
    requires Ready(w, s) && Effects(w, s) && Finishing(w)
    ensures Effects(DoRemove(w), s)
  {
    hide Core, Arrivals, Listed, Chained, Sequential, Queued, LogOrdered, Effects, Sent, Held;
    var w', k := DoRemove(w), w.worker;
    HeldFacts(w);
    HeldPrep(w);
    if k.env.hook.session == s {
      OnlyHeld(w, s);
      FinishedHeld(w);
      RemoveHeld(w, s);
    } else {
      forall n ensures Unfinished(w', s, n) <==> Unfinished(w, s, n) {
      }
      KeepEffects(w, w', s);
    }
  }

  lemma FinishedHeld(w: World)
    requires Core(w) && Finishing(w)
    ensures Held(w.log, w.worker.name) == w.worker.env.prep.value.ops
  {
    hide Placed, Traced, Sent, Held, Staircase, Faithful;
    var k := w.worker;
    assert Journaled(w.spool[k.name], w.log, k.name);
    HeldIsPrefix(w.log, k.name, k.env.prep.value.ops);
  }

  lemma RemoveHeld(w: World, s: string)
    requires Effects(w, s) && Trailed(w, s) && Finishing(w) && w.worker.env.hook.session == s
    requires w.worker.name !in w.done && Unfinished(w, s, w.worker.name)
    requires forall n :: Unfinished(w, s, n) ==> n == w.worker.name
    requires Held(w.log, w.worker.name) == w.worker.env.prep.value.ops
    ensures Effects(DoRemove(w), s)
  {
    hide Held, HeldOf;
    var w', k := DoRemove(w), w.worker;
    var trail := Trail(w', s);
    assert trail == Trail(w, s) + [k.name];
    assert trail[..|trail| - 1] == Trail(w, s);
    KeepFlat(w, w', Trail(w, s));
    forall n ensures !Unfinished(w', s, n) {
      assert Unfinished(w', s, n) ==> Unfinished(w, s, n);
    }
  }

  lemma PersistedEffects(w: World, s: string)
    requires Ready(w, s) && Effects(w, s) && InPhase(w, Persisting)
    ensures Effects(DoPersist(w), s)
  {
    hide Ready, Effects;
    WriteEffects(w, w.worker.env, w.worker.(phase := Saving), s);
  }

  lemma MarkEffects(w: World, permanent: bool, s: string)
    requires Ready(w, s) && Effects(w, s) && InPhase(w, Delivering)
    ensures Effects(DoMark(w, permanent), s)
  {
    hide Ready, Effects;
    WriteEffects(w, w.worker.env.(permanent := permanent, config := w.worker.d.config), w.worker, s);
  }

  lemma RecordEffects(w: World, s: string)
    requires Ready(w, s) && Effects(w, s) && InPhase(w, Recording)
    ensures Effects(DoRecord(w), s)
  {
    hide Ready, Effects;
    WriteEffects(w, w.worker.env, w.worker.(phase := Delivering), s);
  }

  /** Steps that write no hook file and send nothing. */
  predicate Silent(a: Step) {
    match a
    case Enqueue(_, _) | Persist | FailPersist(_) | Acknowledge | LoseReply(_, _) | Reject(_) | Record | FailRecord(_) | Remove => false
    case _ => true
  }

  lemma AskEffects(w: World, s: string)
    requires Effects(w, s) && InPhase(w, Preparing)
    ensures Effects(DoAsk(w), s)
  {
    hide Effects;
    KeepSpool(w, DoAsk(w), s);
  }

  lemma PrepareEffects(w: World, draw: Draw, s: string)
    requires Effects(w, s) && CanPrepare(w, draw)
    ensures Effects(DoPrepare(w, draw), s)
  {
    hide Effects, PrepareAgainst, CanAsk;
    KeepSpool(w, DoPrepare(w, draw), s);
  }

  lemma SilentEffects(w: World, a: Step, s: string)
    requires Effects(w, s) && Enabled(w, a) && Silent(a) && !a.Prepare? && !a.FailPrepare?
    ensures Effects(Apply(w, a), s)
  {
    hide Effects, CanEnqueue, DoPrepare, DoSend, DoRemove, DoEnqueue, DoMark, DoPersist, DoRecord, DoAcknowledge, DoBlock, CanAsk, RefusedNow;
    var w' := Apply(w, a);
    match a
    case Begin(_, _) => KeepSpool(w, w', s);
    case Skip => KeepSpool(w, w', s);
    case Refuse => KeepSpool(w, w', s);
    case Load => KeepSpool(w, w', s);
    case Save => KeepSpool(w, w', s);
    case Clear(_) => KeepSpool(w, w', s);
    case _ => KeepSpool(w, Halt(w), s);
  }

  lemma StepEffects(w: World, a: Step, s: string)
    requires Ready(w, s) && Effects(w, s) && Enabled(w, a)
    ensures Effects(Apply(w, a), s)
  {
    hide Ready, Effects, CanEnqueue, CanLoad, CanRefuse, CanAsk, DoSend, DoRemove, DoEnqueue, DoMark, DoPersist, DoRecord,
      DoLoad, DoAsk, DoPrepare, DoSave, DoClear;
    match a
    case Enqueue(name, hook) => EnqueueEffects(w, name, hook, s);
    case Persist => PersistedEffects(w, s);
    case FailPersist(written) =>
      PersistedEffects(w, s);
      var w' := if written then DoPersist(w) else w;
      KeepSpool(w', Halt(w'), s);
    case Acknowledge =>
      SendEffects(w, s);
      KeepSpool(DoSend(w), DoAcknowledge(w), s);
    case LoseReply(applied, written) => LoseReplyEffects(w, applied, written, s);
    case Reject(written) =>
      MarkEffects(w, true, s);
      var w' := if written then DoMark(w, true) else w;
      KeepSpool(w', Apply(w, a), s);
    case Record => RecordEffects(w, s);
    case FailRecord(written) =>
      RecordEffects(w, s);
      var w' := if written then DoRecord(w) else w;
      KeepSpool(w', Halt(w'), s);
    case Remove => RemoveEffects(w, s);
    case Prepare(draw) => PrepareEffects(w, draw, s);
    case FailPrepare(asked) =>
      AskEffects(w, s);
      var w' := if asked then DoAsk(w) else w;
      KeepSpool(w', Halt(w'), s);
    case _ => SilentEffects(w, a, s);
  }

  lemma LoseReplyEffects(w: World, applied: bool, written: bool, s: string)
    requires Ready(w, s) && Effects(w, s) && Sending(w)
    ensures var w' := if applied then DoSend(w) else w;
            Effects(Halt(if written then DoMark(w', false) else w'), s)
  {
    hide Base, Ordered, Chained, Effects;
    SendOrdered(w, s);
    SendChained(w, s);
    SendEffects(w, s);
    var w', k := if applied then DoSend(w) else w, w.worker;
    WriteEffects(w', k.env.(permanent := false, config := k.d.config), k, s);
    var w'' := if written then DoMark(w', false) else w';
    KeepSpool(w'', Halt(w''), s);
  }
}

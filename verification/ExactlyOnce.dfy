/** Each hook's operations take effect exactly once and in order, in every run. */
module ExactlyOnce {
  import opened Wrappers
  import opened Telemetry
  import opened Session
  import opened Journal

  // ---- What was sent for one hook ----

  /** The operation indices received for hook file `n`, in order of receipt. */
  function Sent(log: seq<Request>, n: Name): seq<nat> {
    if log == [] then []
    else
      var r := log[|log| - 1];
      Sent(log[..|log| - 1], n) + if r.name == n then [r.index] else []
  }

  /** What a server that ignores repeated operation ids holds of hook file `n`. */
  function Held(log: seq<Request>, n: Name): seq<Op> {
    if log == [] then []
    else
      var front, r := log[..|log| - 1], log[|log| - 1];
      Held(front, n) + if r.name == n && r.index !in Sent(front, n) then [r.op] else []
  }

  /** Starts at 0, never decreases, and rises by at most one. */
  predicate Staircase(indices: seq<nat>) {
    && (indices != [] ==> indices[0] == 0)
    && (forall i :: 0 < i < |indices| ==> indices[i - 1] <= indices[i] <= indices[i - 1] + 1)
  }

  /** The highest index sent, plus one. */
  function Reach(indices: seq<nat>): nat {
    if indices == [] then 0 else indices[|indices| - 1] + 1
  }

  lemma LogAdd(log: seq<Request>, r: Request, n: Name)
    ensures Sent(log + [r], n) == Sent(log, n) + if r.name == n then [r.index] else []
    ensures Held(log + [r], n) == Held(log, n) + if r.name == n && r.index !in Sent(log, n) then [r.op] else []
  {
    assert (log + [r])[..|log|] == log;
  }

  lemma StaircaseAdd(indices: seq<nat>, i: nat)
    ensures Staircase(indices + [i]) <==> Staircase(indices) && i <= Reach(indices) <= i + 1
    ensures Reach(indices + [i]) == i + 1
  {
    var all := indices + [i];
    forall j | 0 <= j < |indices| ensures all[j] == indices[j] {
    }
    if Staircase(all) {
      forall j | 0 < j < |indices| ensures indices[j - 1] <= indices[j] <= indices[j - 1] + 1 {
        assert all[j - 1] <= all[j] <= all[j - 1] + 1;
      }
      assert indices != [] ==> all[|indices| - 1] <= all[|indices|] <= all[|indices| - 1] + 1;
      assert indices != [] ==> all[0] == 0;
    }
    if Staircase(indices) && i <= Reach(indices) <= i + 1 {
      forall j | 0 < j < |all| ensures all[j - 1] <= all[j] <= all[j - 1] + 1 {
      }
    }
  }

  /** A staircase visits every index below its reach, and no other. */
  lemma {:induction false} StaircaseVisits(indices: seq<nat>, i: nat)
    requires Staircase(indices)
    ensures i in indices <==> i < Reach(indices)
    decreases indices
  {
    if indices != [] {
      var n := |indices| - 1;
      assert indices == indices[..n] + [indices[n]];
      StaircaseAdd(indices[..n], indices[n]);
      StaircaseVisits(indices[..n], i);
    }
  }

  predicate Faithful(log: seq<Request>, n: Name, ops: seq<Op>) {
    forall r :: r in log && r.name == n ==> r.index < |ops| && r.op == ops[r.index]
  }

  lemma {:induction false} SentIndices(log: seq<Request>, n: Name)
    ensures forall i :: i in Sent(log, n) <==> exists r :: r in log && r.name == n && r.index == i
    decreases log
  {
    if log != [] {
      var m := |log| - 1;
      SentIndices(log[..m], n);
      assert log == log[..m] + [log[m]];
    }
  }

  lemma HeldStep(front: seq<Request>, r: Request, n: Name, ops: seq<Op>)
    requires Staircase(Sent(front, n)) && Staircase(Sent(front + [r], n))
    requires r.name == n ==> r.index < |ops| && r.op == ops[r.index]
    requires Reach(Sent(front, n)) <= |ops| && Held(front, n) == ops[..Reach(Sent(front, n))]
    ensures Reach(Sent(front + [r], n)) <= |ops|
    ensures Held(front + [r], n) == ops[..Reach(Sent(front + [r], n))]
  {
    LogAdd(front, r, n);
    var before := Sent(front, n);
    if r.name == n {
      StaircaseAdd(before, r.index);
      StaircaseVisits(before, r.index);
      assert r.index == Reach(before) ==> ops[..r.index] + [ops[r.index]] == ops[..r.index + 1];
    } else {
      assert before + [] == before;
    }
  }

  /** A server that ignores repeated ids holds exactly a prefix of the hook's operations. */
  lemma {:induction false} HeldIsPrefix(log: seq<Request>, n: Name, ops: seq<Op>)
    requires Staircase(Sent(log, n)) && Faithful(log, n, ops)
    ensures Reach(Sent(log, n)) <= |ops| && Held(log, n) == ops[..Reach(Sent(log, n))]
    decreases log
  {
    if log != [] {
      var front, r := log[..|log| - 1], log[|log| - 1];
      assert log == front + [r];
      LogAdd(front, r, n);
      assert Staircase(Sent(front, n)) by {
        if r.name == n {
          StaircaseAdd(Sent(front, n), r.index);
        } else {
          assert Sent(front, n) + [] == Sent(front, n);
        }
      }
      HeldIsPrefix(front, n, ops);
      HeldStep(front, r, n, ops);
    }
  }

  // ---- The invariant ----

  ghost predicate SameWork(a: Envelope, b: Envelope) {
    a.hook == b.hook && a.prep == b.prep && a.next == b.next
  }

  /** One hook file against what has been sent for it. */
  ghost predicate Journaled(env: Envelope, log: seq<Request>, n: Name) {
    && (env.prep.None? ==> env.next == 0 && Sent(log, n) == [])
    && (env.prep.Some? ==>
          && env.next <= |env.prep.value.ops|
          && Faithful(log, n, env.prep.value.ops)
          && Staircase(Sent(log, n))
          && env.next <= Reach(Sent(log, n)) <= env.next + 1)
  }

  ghost predicate Files(spool: map<Name, Envelope>, done: map<Name, Envelope>, log: seq<Request>) {
    && (forall n :: n in spool ==> Journaled(spool[n], log, n))
    && (forall n :: n in done ==> Journaled(done[n], log, n) && Complete(done[n]))
  }

  /** Every hook that arrived is in exactly one place. */
  ghost predicate Placed(hooks: map<Name, Hook>, spool: map<Name, Envelope>, done: map<Name, Envelope>) {
    && (forall n :: n in hooks <==> n in spool || n in done)
    && (forall n :: n in done ==> n !in spool && done[n].hook == hooks[n])
    && (forall n :: n in spool ==> spool[n].hook == hooks[n])
  }

  /** Traces of work exist only for hooks the worker has taken up. */
  ghost predicate Traced(w: World) {
    && (forall n :: n in w.begun ==> n in w.hooks)
    && (forall n :: n in w.done ==> n in w.begun)
    && (forall n :: n in w.spool && w.spool[n].prep.Some? ==> n in w.begun)
    && (forall r :: r in w.log ==> r.name in w.begun && r.session == w.hooks[r.name].session)
    && (forall st :: st in w.starts ==> st.name in w.begun && st.session == w.hooks[st.name].session)
    && (w.worker.Hold? ==> w.worker.name in w.begun && w.worker.env.hook == w.hooks[w.worker.name])
  }

  ghost predicate Holding(w: World) {
    w.worker.Hold? ==>
      var k := w.worker;
      if k.phase == Clearing then k.name in w.done && k.env.prep.Some? && w.done[k.name] == k.env
      else
        && k.name in w.spool
        && (k.phase == Preparing ==> k.env == w.spool[k.name] && k.env.prep.None?)
        && (k.phase == Persisting ==>
              k.env.prep.Some? && w.spool[k.name] == k.env.(prep := None) && k.env.prep.value.draw.seed in w.seeds)
        && (k.phase == Saving || k.phase == Delivering ==> k.env.prep.Some? && SameWork(k.env, w.spool[k.name]))
        && (k.phase == Recording ==>
              && k.env.prep.Some? && k.env.next <= |k.env.prep.value.ops| && 0 < k.env.next
              && SameWork(k.env.(next := k.env.next - 1), w.spool[k.name])
              && Reach(Sent(w.log, k.name)) == k.env.next)
  }

  ghost predicate Core(w: World) {
    Files(w.spool, w.done, w.log) && Placed(w.hooks, w.spool, w.done) && Traced(w) && Holding(w)
  }

  lemma HeldFacts(w: World)
    requires Core(w) && w.worker.Hold?
    ensures w.worker.name in w.begun && w.worker.name in w.hooks && w.hooks[w.worker.name] == w.worker.env.hook
    ensures w.worker.phase == Clearing ==> w.worker.name in w.done
    ensures w.worker.phase != Clearing ==> w.worker.name in w.spool && w.worker.name !in w.done
  {
    hide Files, Sent;
  }

  lemma HistoryFacts(w: World)
    requires Core(w)
    ensures forall n :: n in w.hooks <==> n in w.spool || n in w.done
    ensures forall n :: n in w.spool ==> w.spool[n].hook == w.hooks[n]
    ensures forall n :: n in w.done ==> n in w.begun && n !in w.spool && w.done[n].hook == w.hooks[n]
    ensures forall n :: n in w.begun ==> n in w.hooks
  {
    hide Files, Holding;
  }

  lemma LogFacts(w: World)
    requires Core(w)
    ensures forall r :: r in w.log ==> r.name in w.begun && r.name in w.hooks && r.session == w.hooks[r.name].session
  {
    hide Files, Holding, Placed;
  }

  /** A hook file may be rewritten by anything that journals the same requests. */
  lemma WriteKeeps(w: World, n: Name, env: Envelope)
    requires Files(w.spool, w.done, w.log) && Placed(w.hooks, w.spool, w.done) && n in w.spool
    requires env.hook == w.spool[n].hook && Journaled(env, w.log, n)
    ensures Files(w.spool[n := env], w.done, w.log) && Placed(w.hooks, w.spool[n := env], w.done)
  {
  }

  lemma UnsentJournaled(w: World, n: Name, env: Envelope)
    requires Sent(w.log, n) == [] && env.next == 0
    ensures Journaled(env, w.log, n)
  {
    SentIndices(w.log, n);
    assert forall r :: r in w.log && r.name == n ==> r.index in Sent(w.log, n);
  }

  lemma OtherUnsent(log: seq<Request>, r: Request, n: Name, env: Envelope)
    requires Journaled(env, log, n) && r.name != n
    ensures Journaled(env, log + [r], n)
  {
    LogAdd(log, r, n);
  }

  lemma OwnSent(log: seq<Request>, r: Request, n: Name, env: Envelope)
    requires Journaled(env, log, n) && r.name == n
    requires env.prep.Some? && env.next < |env.prep.value.ops|
    requires r.index == env.next && r.op == env.prep.value.ops[env.next]
    ensures Journaled(env, log + [r], n) && Reach(Sent(log + [r], n)) == env.next + 1
  {
    LogAdd(log, r, n);
    StaircaseAdd(Sent(log, n), r.index);
  }

  // ---- Every step keeps it ----

  lemma NothingSent(w: World, n: Name)
    requires Traced(w) && n !in w.hooks
    ensures Sent(w.log, n) == []
  {
    SentIndices(w.log, n);
    assert Sent(w.log, n) != [] ==> Sent(w.log, n)[0] in Sent(w.log, n);
  }

  lemma EnqueueFiles(spool: map<Name, Envelope>, done: map<Name, Envelope>, log: seq<Request>, n: Name, hook: Hook)
    requires Files(spool, done, log) && Sent(log, n) == []
    ensures Files(spool[n := Envelope(hook, None, 0, false, "")], done, log)
  {
  }

  lemma EnqueuePlaced(hooks: map<Name, Hook>, spool: map<Name, Envelope>, done: map<Name, Envelope>, n: Name, env: Envelope)
    requires Placed(hooks, spool, done) && n !in hooks
    ensures Placed(hooks[n := env.hook], spool[n := env], done)
  {
  }

  lemma EnqueueTraced(w: World, n: Name, hook: Hook)
    requires Traced(w) && n !in w.hooks
    ensures Traced(DoEnqueue(w, n, hook))
  {
  }

  lemma EnqueueHolding(w: World, n: Name, hook: Hook)
    requires Holding(w) && n !in w.spool
    ensures Holding(DoEnqueue(w, n, hook))
  {
    hide Sent;
  }

  lemma EnqueueKeeps(w: World, n: Name, hook: Hook)
    requires Core(w) && CanEnqueue(w, n, hook)
    ensures Core(DoEnqueue(w, n, hook))
  {
    var env := Envelope(hook, None, 0, false, "");
    assert n !in w.spool by {
      hide Files, Traced, Holding;
    }
    hide Files, Traced, Holding, Placed;
    NothingSent(w, n);
    EnqueueFiles(w.spool, w.done, w.log, n, hook);
    EnqueuePlaced(w.hooks, w.spool, w.done, n, env);
    EnqueueTraced(w, n, hook);
    EnqueueHolding(w, n, hook);
  }

  lemma LoadKeeps(w: World)
    requires Core(w) && CanLoad(w)
    ensures Core(DoLoad(w))
  {
    hide Files, Sent;
  }

  lemma AskKeeps(w: World)
    requires Core(w) && InPhase(w, Preparing)
    ensures Core(DoAsk(w))
  {
    hide Files, Sent;
  }

  lemma PrepareKeeps(w: World, draw: Draw)
    requires Core(w) && CanPrepare(w, draw)
    ensures Core(DoPrepare(w, draw))
  {
    hide PrepareAgainst, Files, Sent;
  }

  /** The held file is rewritten; the worker keeps holding that very envelope, or the same work. */
  lemma RewriteKeeps(w: World, env: Envelope, worker: Worker)
    requires Core(w) && w.worker.Hold? && w.worker.phase != Clearing
    requires env.hook == w.worker.env.hook && env.prep.Some? && Journaled(env, w.log, w.worker.name)
    requires worker.Hold? && worker.name == w.worker.name && SameWork(worker.env, env)
    requires worker.phase == Saving || worker.phase == Delivering
    ensures Core(Write(w, w.worker.name, env).(worker := worker))
  {
    hide Journaled;
    var w' := Write(w, w.worker.name, env).(worker := worker);
    WriteKeeps(w, w.worker.name, env);
    assert Traced(w') by {
      hide Files, Placed;
    }
    assert Holding(w') by {
      hide Files, Placed, Traced;
    }
  }

  lemma PersistKeeps(w: World)
    requires Core(w) && InPhase(w, Persisting)
    ensures Core(DoPersist(w))
  {
    UnsentJournaled(w, w.worker.name, w.worker.env);
    RewriteKeeps(w, w.worker.env, w.worker.(phase := Saving));
  }

  lemma SaveKeeps(w: World)
    requires Core(w) && CanSave(w)
    ensures Core(DoSave(w))
  {
    hide Files, Placed, Sent;
  }

  lemma SendFiles(w: World)
    requires Core(w) && Sending(w)
    ensures Files(w.spool, w.done, DoSend(w).log)
    ensures Reach(Sent(DoSend(w).log, w.worker.name)) == w.worker.env.next + 1
  {
    var k := w.worker;
    var r := NextRequest(k.name, k.env);
    forall n | n in w.spool ensures Journaled(w.spool[n], w.log + [r], n) {
      if n == k.name {
        OwnSent(w.log, r, n, w.spool[n]);
      } else {
        OtherUnsent(w.log, r, n, w.spool[n]);
      }
    }
    forall n | n in w.done ensures Journaled(w.done[n], w.log + [r], n) {
      OtherUnsent(w.log, r, n, w.done[n]);
    }
    OwnSent(w.log, r, k.name, w.spool[k.name]);
  }

  lemma SendKeeps(w: World)
    requires Core(w) && Sending(w)
    ensures Core(DoSend(w)) && Reach(Sent(DoSend(w).log, w.worker.name)) == w.worker.env.next + 1
  {
    hide Files, Placed, Sent;
    SendFiles(w);
  }

  lemma AcknowledgeKeeps(w: World)
    requires Core(w) && Sending(w)
    ensures Core(DoAcknowledge(w))
  {
    hide Files, Placed, Sent;
    SendKeeps(w);
  }

  lemma MarkKeeps(w: World, permanent: bool)
    requires Core(w) && InPhase(w, Delivering)
    ensures Core(DoMark(w, permanent))
  {
    RewriteKeeps(w, w.worker.env.(permanent := permanent, config := w.worker.d.config), w.worker);
  }

  lemma RecordKeeps(w: World)
    requires Core(w) && InPhase(w, Recording)
    ensures Core(DoRecord(w))
  {
    RewriteKeeps(w, w.worker.env, w.worker.(phase := Delivering));
  }

  lemma RemoveKeeps(w: World)
    requires Core(w) && Finishing(w)
    ensures Core(DoRemove(w))
  {
    hide Files, Sent, Journaled;
    RemoveFiles(w);
  }

  lemma RemoveFiles(w: World)
    requires Core(w) && Finishing(w)
    ensures Files(DoRemove(w).spool, DoRemove(w).done, w.log)
  {
    hide Sent, Placed, Traced;
  }

  /** Letting go of the file. */
  lemma ReleaseKeeps(w: World, w': World)
    requires Core(w) && !w'.worker.Hold?
    requires w'.spool == w.spool && w'.done == w.done && w'.log == w.log
    requires w'.hooks == w.hooks && w'.begun == w.begun && w'.starts == w.starts
    ensures Core(w')
  {
    hide Files, Placed, Sent;
  }

  lemma LoseReplyKeeps(w: World, applied: bool, written: bool)
    requires Core(w) && Sending(w)
    ensures var w' := if applied then DoSend(w) else w;
            Core(Halt(if written then DoMark(w', false) else w'))
  {
    SendKeeps(w);
    var w' := if applied then DoSend(w) else w;
    MarkKeeps(w', false);
    ReleaseKeeps(w', Halt(w'));
    ReleaseKeeps(DoMark(w', false), Halt(DoMark(w', false)));
  }

  lemma StepKeepsCore(w: World, a: Step)
    requires Core(w) && Enabled(w, a)
    ensures Core(Apply(w, a))
  {
    hide Core, CanAsk, CanEnqueue, CanLoad, DoEnqueue, DoLoad, DoAsk, DoPrepare, DoPersist, DoSave, DoAcknowledge, DoRecord, DoRemove;
    match a
    case Enqueue(name, hook) => EnqueueKeeps(w, name, hook);
    case Load => LoadKeeps(w);
    case Prepare(draw) => PrepareKeeps(w, draw);
    case FailPrepare(asked) =>
      AskKeeps(w);
      ReleaseKeeps(if asked then DoAsk(w) else w, Apply(w, a));
    case Persist => PersistKeeps(w);
    case FailPersist(written) =>
      PersistKeeps(w);
      ReleaseKeeps(if written then DoPersist(w) else w, Apply(w, a));
    case Save => SaveKeeps(w);
    case Acknowledge => AcknowledgeKeeps(w);
    case LoseReply(applied, written) => LoseReplyKeeps(w, applied, written);
    case Reject(written) =>
      MarkKeeps(w, true);
      ReleaseKeeps(if written then DoMark(w, true) else w, Apply(w, a));
    case Record => RecordKeeps(w);
    case FailRecord(written) =>
      RecordKeeps(w);
      ReleaseKeeps(if written then DoRecord(w) else w, Apply(w, a));
    case Remove => RemoveKeeps(w);
    case _ => ReleaseKeeps(w, Apply(w, a));
  }

  lemma {:induction false} RunKeepsCore(w: World, actions: seq<Step>, w': World)
    requires Core(w) && Runs(w, actions, w')
    ensures Core(w')
    decreases actions
  {
    if actions != [] {
      StepKeepsCore(w, actions[0]);
      RunKeepsCore(Apply(w, actions[0]), actions[1..], w');
    }
  }

  lemma ReachableCore(w: World)
    requires Reachable(w)
    ensures Core(w)
  {
    var actions :| Runs(START, actions, w);
    RunKeepsCore(START, actions, w);
  }

  /** For every hook, at any moment of any run: indices sent form a staircase,
      every copy of an operation is the frozen one, a server that ignores
      repeats holds a prefix reaching the durable cursor or one past it, and the
      file is gone only when that prefix is everything. */
  lemma ExactlyOnceEffect(w: World, n: Name)
    requires Reachable(w) && n in w.hooks
    ensures n in w.spool || n in w.done
    ensures Staircase(Sent(w.log, n))
    ensures Env(w, n).prep.None? ==> Held(w.log, n) == []
    ensures Env(w, n).prep.Some? ==>
              var ops := Env(w, n).prep.value.ops;
              && Faithful(w.log, n, ops)
              && Held(w.log, n) <= ops
              && Env(w, n).next <= |Held(w.log, n)| <= Env(w, n).next + 1
    ensures n in w.done ==> Env(w, n).prep.Some? && Held(w.log, n) == Env(w, n).prep.value.ops
  {
    ReachableCore(w);
    var env := Env(w, n);
    assert Journaled(env, w.log, n);
    if env.prep.Some? {
      HeldIsPrefix(w.log, n, env.prep.value.ops);
    } else {
      SentIndices(w.log, n);
      assert forall r :: r in w.log && r.name == n ==> r.index in Sent(w.log, n);
      HeldIsPrefix(w.log, n, []);
    }
  }
}

/** Between two resets of a session at most one execution is ever created. */
module OneExecution {
  import opened Telemetry
  import opened Session
  import opened Journal
  import opened ExactlyOnce
  import opened SessionOrder
  import opened CrashRefinement

  /** The session has an open execution. */
  predicate Busy(st: State) {
    st.exec != NoExec && !st.closed
  }

  // ---- Handlers and executions ----

  /** A handler that asks for an execution leaves one open. */
  lemma StartsBusy(base: State, hook: Hook, draw: Draw)
    requires Starts(base, hook)
    ensures Busy(PrepareAgainst(base, hook, draw).state)
  {
  }

  /** Only closing the session ends its execution. */
  lemma BusyStays(base: State, hook: Hook, draw: Draw)
    requires Busy(base)
    ensures Busy(PrepareAgainst(base, hook, draw).state) || PrepareAgainst(base, hook, draw).state.closed
  {
  }

  /** The key is chosen with the execution and discarded with it. */
  predicate Keyed(st: State) {
    st.exec == NoExec ==> st.key == ""
  }

  lemma HandleKeyed(base: State, hook: Hook, draw: Draw)
    requires Keyed(base)
    ensures Keyed(PrepareAgainst(base, hook, draw).state)
  {
  }

  lemma {:induction false} TrailKeyed(w: World, s: string, i: nat)
    requires SoundTrail(w, s) && i <= |Trail(w, s)|
    ensures Keyed(After(w, Trail(w, s)[..i]))
    decreases i
  {
    hide PrepareAgainst;
    if i > 0 {
      var n := Trail(w, s)[i - 1];
      TrailKeyed(w, s, i - 1);
      var p := w.done[n].prep.value;
      assert Sound(p, w.hooks[n], After(w, Trail(w, s)[..i - 1]));
      HandleKeyed(p.base, w.hooks[n], p.draw);
      assert Trail(w, s)[..i][|Trail(w, s)[..i]| - 1] == n;
    }
  }

  // ---- The starts of one session ----

  /** Hook `n` of the session asked for an execution: it was then without one,
      its key comes from its own id, and once prepared it has one. */
  ghost predicate Justified(w: World, s: string, n: Name, key: string) {
    && Mine(w, s, n) && key == "cc-" + w.hooks[n].id
    && (n in w.spool && w.spool[n].prep.None? ==> Starts(Disk(w, s), w.hooks[n]))
    && (n in w.spool && w.spool[n].prep.Some? ==> !Busy(Last(w, s)) && Busy(w.spool[n].prep.value.state))
    && (n in w.done ==> Busy(LeftBy(w, n)))
    && (forall i :: 0 <= i < |Trail(w, s)| && Trail(w, s)[i] == n ==> !Busy(After(w, Trail(w, s)[..i])))
  }

  ghost predicate Asked(w: World, n: Name) {
    exists st :: st in w.starts && st.name == n
  }

  ghost predicate HeldJustified(w: World, s: string) {
    && (InPhase(w, Persisting) && w.worker.env.hook.session == s && Asked(w, w.worker.name) ==>
          w.worker.env.prep.Some? && Busy(w.worker.env.prep.value.state) && !Busy(Last(w, s)))
    && (InPhase(w, Clearing) && w.worker.env.hook.session == s ==>
          forall n :: n in w.spool && Mine(w, s, n) ==> n !in w.begun)
  }

  ghost predicate Charged(w: World, s: string) {
    && (forall st :: st in w.starts && st.session == s ==> Justified(w, s, st.name, st.key))
    && HeldJustified(w, s)
  }

  ghost predicate Settled(w: World, s: string) {
    Base(w) && Ordered(w, s) && Chained(w, s) && Charged(w, s)
  }

  lemma StartFacts(w: World)
    requires Core(w)
    ensures forall st :: st in w.starts ==> st.name in w.begun && st.name in w.hooks && st.session == w.hooks[st.name].session
  {
    hide Files, Holding, Placed;
  }

  /** While the worker holds a file, it is the only begun one of its session on disk. */
  lemma OnlyBegun(w: World, s: string)
    requires Core(w) && Sequential(w, s) && w.worker.Hold? && w.worker.phase != Clearing
    requires w.worker.env.hook.session == s
    ensures forall n :: n in w.spool && Mine(w, s, n) && n in w.begun ==> n == w.worker.name
  {
    hide Core;
    HeldFacts(w);
    HistoryFacts(w);
    assert Mine(w, s, w.worker.name);
  }

  /** A justification outlives a step that leaves the finished hooks alone. */
  lemma StaysJustified(w: World, w': World, s: string, n: Name, key: string)
    requires Mine(w, s, n) && key == "cc-" + w.hooks[n].id
    requires w'.done == w.done && w'.trail == w.trail && w'.hooks == w.hooks
    requires n in w'.spool && w'.spool[n].prep.None? ==> Starts(Disk(w', s), w.hooks[n])
    requires n in w'.spool && w'.spool[n].prep.Some? ==> !Busy(Last(w, s)) && Busy(w'.spool[n].prep.value.state)
    requires n in w.done ==> Busy(LeftBy(w, n))
    requires forall i :: 0 <= i < |Trail(w, s)| && Trail(w, s)[i] == n ==> !Busy(After(w, Trail(w, s)[..i]))
    ensures Justified(w', s, n, key)
  {
    hide Busy, Starts;
    assert Trail(w', s) == Trail(w, s) && Last(w', s) == Last(w, s);
    forall i | 0 <= i < |Trail(w', s)| && Trail(w', s)[i] == n ensures !Busy(After(w', Trail(w', s)[..i])) {
      assert Trail(w, s)[i] == n;
      assert After(w', Trail(w, s)[..i]) == After(w, Trail(w, s)[..i]);
    }
  }

  /** Nothing the justification mentions changes, for hooks that were ever begun. */
  lemma KeepCharged(w: World, w': World, s: string)
    requires Charged(w, s) && SoundTrail(w, s) && w'.starts == w.starts
    requires forall n :: n in w.hooks ==> n in w'.hooks && w'.hooks[n] == w.hooks[n]
    requires w'.done == w.done && w'.trail == w.trail
    requires forall n :: Mine(w, s, n) && Asked(w, n) && n in w'.spool ==> n in w.spool && w'.spool[n].prep == w.spool[n].prep
    requires Disk(w', s) == Disk(w, s)
    requires HeldJustified(w', s)
    ensures Charged(w', s)
  {
    hide HeldJustified, Busy, Starts;
    KeepTrail(w, w', s);
    forall i | 0 <= i <= |Trail(w, s)| ensures After(w', Trail(w, s)[..i]) == After(w, Trail(w, s)[..i]) {
    }
    forall st | st in w'.starts && st.session == s ensures Justified(w', s, st.name, st.key) {
      assert Asked(w, st.name);
    }
  }

  lemma EnqueueCharged(w: World, name: Name, hook: Hook, s: string)
    requires Settled(w, s) && CanEnqueue(w, name, hook)
    ensures Charged(DoEnqueue(w, name, hook), s)
  {
    hide Core, Ordered, SoundSpool, SoundDisk, SoundHeld, Arrivals, Listed, Busy;
    var w' := DoEnqueue(w, name, hook);
    HistoryFacts(w);
    StartFacts(w);
    assert !Asked(w, name);
    assert Last(w', s) == Last(w, s);
    assert HeldJustified(w', s);
    KeepCharged(w, w', s);
  }

  lemma LoadCharged(w: World, s: string)
    requires Settled(w, s) && CanLoad(w)
    ensures Charged(DoLoad(w), s)
  {
    hide Base, Ordered, SoundSpool, SoundDisk, SoundHeld, Busy;
    KeepCharged(w, DoLoad(w), s);
  }

  /** An execution is asked for under the asking hook's own key. */
  lemma AskKey(w: World, s: string)
    requires Base(w) && Ordered(w, s) && Chained(w, s) && CanAsk(w) && w.worker.env.hook.session == s
    ensures StartKey(Disk(w, s), w.worker.env.hook.id) == "cc-" + w.worker.env.hook.id
    ensures !Busy(Last(w, s))
  {
    DiskFollows(w, s);
    hide Base, Ordered, SoundSpool, SoundDisk, SoundHeld;
    TrailKeyed(w, s, |Trail(w, s)|);
    assert Trail(w, s)[..|Trail(w, s)|] == Trail(w, s);
  }

  lemma UnpreparedHeld(w: World)
    requires Core(w) && InPhase(w, Preparing)
    ensures w.worker.name in w.spool && w.spool[w.worker.name].prep.None?
  {
    hide Files, Placed, Traced;
  }

  lemma AskCharged(w: World, s: string)
    requires Settled(w, s) && CanAsk(w)
    ensures Charged(DoAsk(w), s)
  {
    hide Core, Queued, Sequential, LogOrdered, Chained, Arrivals, Listed, Busy, Starts;
    var w', k := DoAsk(w), w.worker;
    HeldFacts(w);
    HistoryFacts(w);
    UnpreparedHeld(w);
    if k.env.hook.session == s {
      AskKey(w, s);
      TrailExcludes(w, s, k.name);
    }
    AskJustified(w, s);
  }

  lemma TrailExcludes(w: World, s: string, n: Name)
    requires Trailed(w, s) && n !in w.done
    ensures forall i :: 0 <= i < |Trail(w, s)| ==> Trail(w, s)[i] != n
  {
    forall i | 0 <= i < |Trail(w, s)| ensures Trail(w, s)[i] != n {
      assert Trail(w, s)[i] in Trail(w, s);
    }
  }

  lemma AskJustified(w: World, s: string)
    requires Charged(w, s) && CanAsk(w) && w.worker.name in w.spool && w.spool[w.worker.name].prep.None?
    requires w.worker.name !in w.done && Mine(w, w.worker.env.hook.session, w.worker.name)
    requires w.hooks[w.worker.name] == w.worker.env.hook
    requires w.worker.env.hook.session == s ==>
               && StartKey(Disk(w, s), w.worker.env.hook.id) == "cc-" + w.worker.env.hook.id
               && forall i :: 0 <= i < |Trail(w, s)| ==> Trail(w, s)[i] != w.worker.name
    ensures Charged(DoAsk(w), s)
  {
    hide Busy, Starts;
    var w' := DoAsk(w);
    forall st | st in w'.starts && st.session == s ensures Justified(w', s, st.name, st.key) {
      if st in w.starts {
        assert Justified(w, s, st.name, st.key);
      }
      StaysJustified(w, w', s, st.name, st.key);
    }
  }

  lemma PrepareHeldJustified(w: World, w1: World, draw: Draw, s: string)
    requires Settled(w, s) && CanPrepare(w, draw) && w1 == (if CanAsk(w) then DoAsk(w) else w)
    ensures HeldJustified(DoPrepare(w, draw), s)
  {
    hide PrepareAgainst, Base, Ordered, Chained, Charged, Starts, Busy, CanAsk;
    var w', k := DoPrepare(w, draw), w.worker;
    if k.env.hook.session == s && Asked(w', k.name) {
      assert Asked(w1, k.name);
      PrepareBusy(w, draw, s);
      assert Last(w', s) == Last(w, s);
    }
  }

  lemma PrepareCharged(w: World, draw: Draw, s: string)
    requires Settled(w, s) && CanPrepare(w, draw)
    ensures Charged(DoPrepare(w, draw), s)
  {
    hide PrepareAgainst, Base, Ordered, SoundSpool, SoundDisk, SoundHeld, Charged, Starts, Busy, CanAsk, HeldJustified;
    if CanAsk(w) {
      AskCharged(w, s);
    }
    var w1 := if CanAsk(w) then DoAsk(w) else w;
    PrepareHeldJustified(w, w1, draw, s);
    KeepTrail(w, w1, s);
    KeepCharged(w1, DoPrepare(w, draw), s);
  }

  lemma PrepareBusy(w: World, draw: Draw, s: string)
    requires Settled(w, s) && CanPrepare(w, draw) && w.worker.env.hook.session == s
    requires Asked(if CanAsk(w) then DoAsk(w) else w, w.worker.name)
    ensures Busy(PrepareAgainst(Disk(w, s), w.worker.env.hook, draw).state) && !Busy(Last(w, s))
  {
    hide PrepareAgainst, Core, Ordered, Chained, Arrivals, Listed, Busy;
    UnpreparedHeld(w);
    HeldFacts(w);
    StartFacts(w);
    assert forall st :: st in w.starts && st.session == s ==> Justified(w, s, st.name, st.key);
    assert CanAsk(w);
    AskKey(w, s);
    StartsBusy(Disk(w, s), w.worker.env.hook, draw);
  }

  lemma WriteCharged(w: World, env: Envelope, worker: Worker, s: string)
    requires Charged(w, s) && SoundTrail(w, s) && w.worker.Hold? && w.worker.name in w.spool && w.worker.name in w.hooks
    requires worker.Hold? && (worker.phase == Saving || worker.phase == Delivering)
    requires env.prep == w.spool[w.worker.name].prep || w.hooks[w.worker.name].session != s
    ensures Charged(Write(w, w.worker.name, env).(worker := worker), s)
  {
    hide Busy, Starts, Justified;
    KeepCharged(w, Write(w, w.worker.name, env).(worker := worker), s);
  }

  lemma PersistCharged(w: World, s: string)
    requires Settled(w, s) && InPhase(w, Persisting)
    ensures Charged(DoPersist(w), s)
  {
    hide Core, Ordered, SoundSpool, SoundDisk, SoundHeld, Arrivals, Listed, Busy, Starts, Charged;
    HeldFacts(w);
    HeldPrep(w);
    if w.worker.env.hook.session == s {
      PersistOwnCharged(w, s);
    } else {
      WriteCharged(w, w.worker.env, w.worker.(phase := Saving), s);
    }
  }

  lemma PersistOwnCharged(w: World, s: string)
    requires Charged(w, s) && InPhase(w, Persisting) && w.worker.env.hook.session == s && w.worker.env.prep.Some?
    requires w.worker.name !in w.done
    ensures Charged(DoPersist(w), s)
  {
    hide Busy, Starts;
    var w', k := DoPersist(w), w.worker;
    forall st | st in w'.starts && st.session == s ensures Justified(w', s, st.name, st.key) {
      assert Justified(w, s, st.name, st.key);
      assert st.name == k.name ==> Asked(w, k.name);
      StaysJustified(w, w', s, st.name, st.key);
    }
  }

  lemma SaveCharged(w: World, s: string)
    requires Settled(w, s) && CanSave(w)
    ensures Charged(DoSave(w), s)
  {
    hide Core, Queued, Trailed, LogOrdered, SoundSpool, SoundDisk, SoundHeld, Arrivals, Listed, Busy, Starts;
    var w', k := DoSave(w), w.worker;
    HeldFacts(w);
    HeldPrep(w);
    if k.env.hook.session == s {
      OnlyBegun(w, s);
      StartFacts(w);
      forall st | st in w.starts && st.session == s && st.name in w.spool ensures w.spool[st.name].prep.Some? {
        assert Justified(w, s, st.name, st.key);
      }
      SaveOwnCharged(w, s);
    } else {
      KeepCharged(w, w', s);
    }
  }

  lemma SaveOwnCharged(w: World, s: string)
    requires Charged(w, s) && CanSave(w)
    requires forall st :: st in w.starts && st.session == s && st.name in w.spool ==> w.spool[st.name].prep.Some?
    ensures Charged(DoSave(w), s)
  {
    hide Busy, Starts;
    var w' := DoSave(w);
    forall st | st in w'.starts && st.session == s ensures Justified(w', s, st.name, st.key) {
      assert Justified(w, s, st.name, st.key);
      StaysJustified(w, w', s, st.name, st.key);
    }
  }

  lemma RemoveCharged(w: World, s: string)
    requires Settled(w, s) && Finishing(w)
    ensures Charged(DoRemove(w), s)
  {
    hide Core, Queued, LogOrdered, SoundSpool, SoundDisk, SoundHeld, Arrivals, Listed, Busy, Starts;
    var w', k := DoRemove(w), w.worker;
    HeldFacts(w);
    HeldPrep(w);
    HistoryFacts(w);
    StartFacts(w);
    if k.env.hook.session == s {
      OnlyBegun(w, s);
      TrailExcludes(w, s, k.name);
      RemoveOwnCharged(w, s);
    } else {
      RemoveOtherCharged(w, s);
    }
  }

  lemma RemoveOtherCharged(w: World, s: string)
    requires Charged(w, s) && SoundTrail(w, s) && Finishing(w) && w.worker.env.hook.session != s
    requires w.worker.name !in w.done && w.worker.name in w.hooks && w.hooks[w.worker.name] == w.worker.env.hook
    ensures Charged(DoRemove(w), s)
  {
    hide Busy, Starts;
    var w' := DoRemove(w);
    KeepTrail(w, w', s);
    forall i | 0 <= i <= |Trail(w, s)| ensures After(w', Trail(w, s)[..i]) == After(w, Trail(w, s)[..i]) {
      assert After(w, Trail(w, s)[..i]) == if i == 0 then EMPTY else LeftBy(w, Trail(w, s)[i - 1]);
    }
    forall st | st in w'.starts && st.session == s ensures Justified(w', s, st.name, st.key) {
      assert Justified(w, s, st.name, st.key);
    }
  }

  lemma ExtendAfter(w: World, w': World, before: seq<Name>, name: Name, env: Envelope, i: nat)
    requires w'.done == w.done[name := env] && i <= |before|
    requires forall j :: 0 <= j < |before| ==> before[j] != name
    ensures After(w', (before + [name])[..i]) == After(w, before[..i])
  {
    assert (before + [name])[..i] == before[..i];
    if i > 0 {
      assert before[..i][i - 1] == before[i - 1];
    }
  }

  lemma RemoveOwnCharged(w: World, s: string)
    requires Charged(w, s) && Finishing(w) && Mine(w, s, w.worker.name)
    requires w.worker.env.hook.session == s && w.worker.name in w.spool && w.worker.name !in w.done
    requires w.spool[w.worker.name].prep == w.worker.env.prep
    requires forall n :: n in w.spool && Mine(w, s, n) && n in w.begun ==> n == w.worker.name
    requires forall st :: st in w.starts ==> st.name in w.begun
    requires forall i :: 0 <= i < |Trail(w, s)| ==> Trail(w, s)[i] != w.worker.name
    ensures Charged(DoRemove(w), s)
  {
    hide Busy, Starts, After;
    var w', k := DoRemove(w), w.worker;
    var before := Trail(w, s);
    assert Trail(w', s) == before + [k.name] && before[..|before|] == before;
    forall st | st in w'.starts && st.session == s ensures Justified(w', s, st.name, st.key) {
      assert Justified(w, s, st.name, st.key);
      forall i | 0 <= i < |Trail(w', s)| && Trail(w', s)[i] == st.name ensures !Busy(After(w', Trail(w', s)[..i])) {
        ExtendAfter(w, w', before, k.name, k.env, i);
      }
    }
    assert HeldJustified(w', s);
  }

  lemma ClearCharged(w: World, removed: bool, s: string)
    requires Settled(w, s) && CanClear(w, removed)
    ensures Charged(DoClear(w, removed), s)
  {
    hide Core, Ordered, SoundSpool, SoundDisk, SoundHeld, Arrivals, Listed, Busy, Starts;
    StartFacts(w);
    if w.worker.env.hook.session == s {
      ClearOwnCharged(w, removed, s);
    } else {
      KeepCharged(w, DoClear(w, removed), s);
    }
  }

  lemma ClearOwnCharged(w: World, removed: bool, s: string)
    requires Charged(w, s) && CanClear(w, removed) && w.worker.env.hook.session == s
    requires forall st :: st in w.starts ==> st.name in w.begun
    ensures Charged(DoClear(w, removed), s)
  {
    hide Busy, Starts;
    var w' := DoClear(w, removed);
    forall st | st in w'.starts && st.session == s ensures Justified(w', s, st.name, st.key) {
      assert Justified(w, s, st.name, st.key);
      StaysJustified(w, w', s, st.name, st.key);
    }
  }

  /** The worker stops, or moves on without touching files. */
  lemma ReleaseCharged(w: World, w': World, s: string)
    requires Charged(w, s) && SoundTrail(w, s)
    requires w'.starts == w.starts && w'.hooks == w.hooks && w'.spool == w.spool && w'.done == w.done && w'.trail == w.trail
    requires w'.sessions == w.sessions
    requires !InPhase(w', Persisting) && !InPhase(w', Clearing)
    ensures Charged(w', s)
  {
    hide Busy, Starts, Justified;
    KeepCharged(w, w', s);
  }

  lemma MarkCharged(w: World, permanent: bool, s: string)
    requires Settled(w, s) && InPhase(w, Delivering)
    ensures Charged(DoMark(w, permanent), s)
  {
    hide Core, Ordered, SoundSpool, SoundDisk, SoundHeld, Arrivals, Listed, Charged;
    HeldFacts(w);
    HeldPrep(w);
    WriteCharged(w, w.worker.env.(permanent := permanent, config := w.worker.d.config), w.worker, s);
  }

  lemma RecordCharged(w: World, s: string)
    requires Settled(w, s) && InPhase(w, Recording)
    ensures Charged(DoRecord(w), s)
  {
    hide Core, Ordered, SoundSpool, SoundDisk, SoundHeld, Arrivals, Listed, Charged;
    HeldFacts(w);
    HeldPrep(w);
    WriteCharged(w, w.worker.env, w.worker.(phase := Delivering), s);
  }

  lemma LoseReplyCharged(w: World, applied: bool, written: bool, s: string)
    requires Settled(w, s) && Sending(w)
    ensures var w' := if applied then DoSend(w) else w;
            Charged(Halt(if written then DoMark(w', false) else w'), s)
  {
    hide Base, Ordered, SoundSpool, SoundDisk, SoundHeld, Charged;
    SendOrdered(w, s);
    SendChained(w, s);
    ReleaseCharged(w, DoSend(w), s);
    var w' := if applied then DoSend(w) else w;
    MarkCharged(w', false, s);
    MarkChained(w', false, s);
    var w'' := if written then DoMark(w', false) else w';
    ReleaseCharged(w'', Halt(w''), s);
  }

  lemma StepCharged(w: World, a: Step, s: string)
    requires Settled(w, s) && Enabled(w, a)
    ensures Charged(Apply(w, a), s)
  {
    hide Base, Ordered, SoundTrail, SoundSpool, SoundDisk, SoundHeld, Charged, CanEnqueue, CanLoad, CanRefuse, CanAsk,
      DoLoad, DoAsk, DoPrepare, DoPersist, DoSave, DoRecord, DoRemove, DoClear, DoEnqueue, DoMark;
    match a
    case Enqueue(name, hook) => EnqueueCharged(w, name, hook, s);
    case Load => LoadCharged(w, s);
    case Prepare(draw) => PrepareCharged(w, draw, s);
    case FailPrepare(asked) => FailPrepareCharged(w, asked, s);
    case Persist => PersistCharged(w, s);
    case FailPersist(written) => FailPersistCharged(w, written, s);
    case Save => SaveCharged(w, s);
    case Acknowledge => ReleaseCharged(w, DoAcknowledge(w), s);
    case LoseReply(applied, written) => LoseReplyCharged(w, applied, written, s);
    case Reject(written) => RejectCharged(w, written, s);
    case Record => RecordCharged(w, s);
    case FailRecord(written) => FailRecordCharged(w, written, s);
    case Remove => RemoveCharged(w, s);
    case Clear(removed) => ClearCharged(w, removed, s);
    case _ => ReleaseCharged(w, Apply(w, a), s);
  }

  lemma FailPrepareCharged(w: World, asked: bool, s: string)
    requires Settled(w, s) && InPhase(w, Preparing) && (asked ==> CanAsk(w))
    ensures Charged(Halt(if asked then DoAsk(w) else w), s)
  {
    hide Base, Ordered, SoundSpool, SoundDisk, SoundHeld, Charged, CanAsk;
    if asked {
      AskCharged(w, s);
      KeepTrail(w, DoAsk(w), s);
    }
    var w' := if asked then DoAsk(w) else w;
    ReleaseCharged(w', Halt(w'), s);
  }

  lemma FailPersistCharged(w: World, written: bool, s: string)
    requires Settled(w, s) && InPhase(w, Persisting)
    ensures Charged(Halt(if written then DoPersist(w) else w), s)
  {
    hide Base, Ordered, SoundSpool, SoundDisk, SoundHeld, Charged;
    PersistCharged(w, s);
    PersistChained(w, s);
    var w' := if written then DoPersist(w) else w;
    ReleaseCharged(w', Halt(w'), s);
  }

  lemma RejectCharged(w: World, written: bool, s: string)
    requires Settled(w, s) && Sending(w)
    ensures Charged(DoBlock(if written then DoMark(w, true) else w), s)
  {
    hide Base, Ordered, SoundSpool, SoundDisk, SoundHeld, Charged;
    MarkCharged(w, true, s);
    MarkChained(w, true, s);
    var w' := if written then DoMark(w, true) else w;
    ReleaseCharged(w', DoBlock(w'), s);
  }

  lemma FailRecordCharged(w: World, written: bool, s: string)
    requires Settled(w, s) && InPhase(w, Recording)
    ensures Charged(Halt(if written then DoRecord(w) else w), s)
  {
    hide Base, Ordered, SoundSpool, SoundDisk, SoundHeld, Charged;
    RecordCharged(w, s);
    RecordChained(w, s);
    var w' := if written then DoRecord(w) else w;
    ReleaseCharged(w', Halt(w'), s);
  }
}

/** Whatever crashes and retries intervene, each hook of a session is prepared
    against the state the previous one left. */
module CrashRefinement {
  import opened Session
  import opened Journal
  import opened ExactlyOnce
  import opened SessionOrder

  /** The state a finished hook left behind. */
  function LeftBy(w: World, n: Name): State {
    if n in w.done && w.done[n].prep.Some? then w.done[n].prep.value.state else EMPTY
  }

  function After(w: World, names: seq<Name>): State {
    if names == [] then EMPTY else LeftBy(w, names[|names| - 1])
  }

  function Last(w: World, s: string): State {
    After(w, Trail(w, s))
  }

  /** The previous state itself, or nothing if that state was closed and its file is gone. */
  predicate Follows(base: State, previous: State) {
    base == previous || (previous.closed && base == EMPTY)
  }

  ghost predicate Sound(p: Prep, hook: Hook, previous: State) {
    p == PrepareAgainst(p.base, hook, p.draw) && Follows(p.base, previous)
  }

  ghost predicate SoundTrail(w: World, s: string) {
    forall i :: 0 <= i < |Trail(w, s)| ==>
      var n := Trail(w, s)[i];
      n in w.done && n in w.hooks && w.done[n].prep.Some? &&
      Sound(w.done[n].prep.value, w.hooks[n], After(w, Trail(w, s)[..i]))
  }

  ghost predicate Unfinished(w: World, s: string, n: Name) {
    n in w.spool && Mine(w, s, n) && w.spool[n].prep.Some?
  }

  ghost predicate SoundSpool(w: World, s: string) {
    forall n :: Unfinished(w, s, n) ==> Sound(w.spool[n].prep.value, w.hooks[n], Last(w, s))
  }

  ghost predicate SoundDisk(w: World, s: string) {
    Follows(Disk(w, s), Last(w, s)) || exists n :: Unfinished(w, s, n) && Disk(w, s) == w.spool[n].prep.value.state
  }

  ghost predicate SoundHeld(w: World, s: string) {
    w.worker.Hold? && w.worker.env.hook.session == s ==>
      var k := w.worker;
      && (k.phase == Persisting ==> k.env.prep.Some? && Sound(k.env.prep.value, k.env.hook, Last(w, s)))
      && (k.phase == Delivering || k.phase == Recording ==> k.env.prep.Some? && Disk(w, s) == k.env.prep.value.state)
      && (k.phase == Clearing ==> Trail(w, s) != [] && Trail(w, s)[|Trail(w, s)| - 1] == k.name)
  }

  ghost predicate Chained(w: World, s: string) {
    SoundTrail(w, s) && SoundSpool(w, s) && SoundDisk(w, s) && SoundHeld(w, s)
  }

  ghost predicate Ready(w: World, s: string) {
    Base(w) && Ordered(w, s) && Chained(w, s)
  }

  /** While the worker holds a file, no other file of its session has been begun. */
  lemma OnlyHeld(w: World, s: string)
    requires Base(w) && Ordered(w, s) && w.worker.Hold? && w.worker.phase != Clearing
    requires w.worker.env.hook.session == s
    ensures forall n :: Unfinished(w, s, n) ==> n == w.worker.name
    ensures Mine(w, s, w.worker.name)
  {
    HeldFacts(w);
    HistoryFacts(w);
    PreparedBegun(w);
    hide Core;
    forall n | Unfinished(w, s, n) ensures n == w.worker.name {
      assert Mine(w, s, n) && Mine(w, s, w.worker.name) && n in w.begun;
    }
  }

  lemma PreparedBegun(w: World)
    requires Core(w)
    ensures forall n :: n in w.spool && w.spool[n].prep.Some? ==> n in w.begun
  {
    hide Files, Holding, Placed;
  }

  // ---- Steps that leave a session's files alone ----

  /** Finished hooks stay what they are. */
  lemma KeepTrail(w: World, w': World, s: string)
    requires SoundTrail(w, s) && Trail(w', s) == Trail(w, s)
    requires forall n :: n in w.done ==> n in w'.done && w'.done[n] == w.done[n]
    requires forall n :: n in w.hooks ==> n in w'.hooks && w'.hooks[n] == w.hooks[n]
    ensures SoundTrail(w', s) && Last(w', s) == Last(w, s)
  {
    hide Sound;
    forall i | 0 <= i < |Trail(w, s)| ensures LeftBy(w', Trail(w, s)[i]) == LeftBy(w, Trail(w, s)[i]) {
    }
    forall i | 0 <= i <= |Trail(w, s)| ensures After(w', Trail(w, s)[..i]) == After(w, Trail(w, s)[..i]) {
    }
    assert Trail(w, s)[..|Trail(w, s)|] == Trail(w, s);
  }

  ghost predicate SameFiles(w: World, w': World, s: string) {
    && (forall n :: n in w.hooks ==> n in w'.hooks && w'.hooks[n] == w.hooks[n])
    && (forall n :: n in w.done ==> n in w'.done && w'.done[n] == w.done[n])
    && (forall n :: Unfinished(w', s, n) <==> Unfinished(w, s, n))
    && (forall n :: Unfinished(w, s, n) ==> w'.spool[n].prep == w.spool[n].prep)
    && Trail(w', s) == Trail(w, s)
    && Disk(w', s) == Disk(w, s)
  }

  lemma KeepFiles(w: World, w': World, s: string)
    requires Chained(w, s) && SameFiles(w, w', s)
    requires SoundHeld(w', s)
    ensures Chained(w', s) && Last(w', s) == Last(w, s)
  {
    hide Sound, SoundTrail;
    KeepTrail(w, w', s);
    assert SoundSpool(w', s);
    if n :| Unfinished(w, s, n) && Disk(w, s) == w.spool[n].prep.value.state {
      assert Unfinished(w', s, n);
    }
  }

  /** Only the worker, the log or another session's state file changed. */
  lemma KeepDisk(w: World, w': World, s: string)
    requires Chained(w, s) && SoundHeld(w', s)
    requires w'.spool == w.spool && w'.done == w.done && w'.trail == w.trail && w'.hooks == w.hooks
    requires Disk(w', s) == Disk(w, s)
    ensures Chained(w', s) && Last(w', s) == Last(w, s)
  {
    hide Sound, Chained, SoundHeld;
    KeepFiles(w, w', s);
  }

  // ---- The worker's steps ----

  lemma EnqueueChained(w: World, name: Name, hook: Hook, s: string)
    requires Ready(w, s) && CanEnqueue(w, name, hook)
    ensures Chained(DoEnqueue(w, name, hook), s)
  {
    hide Core, Ordered, Chained, Sound;
    HistoryFacts(w);
    var w' := DoEnqueue(w, name, hook);
    assert name !in w.spool;
    forall n ensures Unfinished(w', s, n) <==> Unfinished(w, s, n) {
    }
    assert Trail(w', s) == Trail(w, s);
    assert SameFiles(w, w', s);
    EnqueueHeld(w, name, hook, s);
    KeepFiles(w, w', s);
  }

  lemma EnqueueHeld(w: World, name: Name, hook: Hook, s: string)
    requires Chained(w, s) && name !in w.hooks
    ensures SoundHeld(DoEnqueue(w, name, hook), s)
  {
    hide Sound;
    var w' := DoEnqueue(w, name, hook);
    assert Last(w', s) == Last(w, s) by {
      hide SoundTrail, SoundSpool, SoundDisk, SoundHeld;
    }
    hide SoundTrail, SoundSpool, SoundDisk;
  }

  lemma LoadChained(w: World, s: string)
    requires Ready(w, s) && CanLoad(w)
    ensures Chained(DoLoad(w), s)
  {
    hide Core, Base, Ordered, Chained, Sound;
    KeepDisk(w, DoLoad(w), s);
  }

  lemma AskChained(w: World, s: string)
    requires Chained(w, s) && InPhase(w, Preparing)
    ensures Chained(DoAsk(w), s)
  {
    hide Core, Base, Ordered, Chained, Sound;
    KeepDisk(w, DoAsk(w), s);
  }

  /** The disk holds what the previous hook of the session left. */
  lemma DiskFollows(w: World, s: string)
    requires Ready(w, s) && InPhase(w, Preparing) && w.worker.env.hook.session == s
    ensures Follows(Disk(w, s), Last(w, s))
  {
    OnlyHeld(w, s);
    assert w.spool[w.worker.name].prep.None? by {
      hide Files, Placed, Traced, Ordered, Chained;
    }
    hide Core, Base, Ordered, Sound, SoundTrail, SoundSpool, SoundHeld;
    assert forall n :: !Unfinished(w, s, n);
  }

  lemma PrepareSound(base: State, hook: Hook, draw: Draw, previous: State)
    requires Follows(base, previous)
    ensures Sound(PrepareAgainst(base, hook, draw), hook, previous)
  {
    hide Handle;
  }

  lemma PrepareHeld(w: World, draw: Draw, s: string)
    requires CanPrepare(w, draw)
    requires w.worker.env.hook.session == s ==> Follows(Disk(w, s), Last(w, s))
    ensures SoundHeld(DoPrepare(w, draw), s)
  {
    hide Sound, PrepareAgainst, CanAsk;
    var w' := DoPrepare(w, draw);
    if w.worker.env.hook.session == s {
      PrepareSound(Disk(w, s), w.worker.env.hook, draw, Last(w, s));
      assert Last(w', s) == Last(w, s);
    }
  }

  lemma PrepareChained(w: World, draw: Draw, s: string)
    requires Ready(w, s) && CanPrepare(w, draw)
    ensures Chained(DoPrepare(w, draw), s)
  {
    hide Base, Ordered, Chained, Sound, SoundHeld, PrepareAgainst, CanAsk, After, Follows;
    if w.worker.env.hook.session == s {
      DiskFollows(w, s);
    }
    PrepareHeld(w, draw, s);
    KeepDisk(w, DoPrepare(w, draw), s);
  }

  lemma HeldPrep(w: World)
    requires Core(w) && w.worker.Hold? && w.worker.phase != Clearing && w.worker.phase != Preparing
    ensures w.worker.env.prep.Some?
    ensures w.spool[w.worker.name].prep == w.worker.env.prep || w.worker.phase == Persisting
    ensures w.worker.phase == Persisting ==> w.spool[w.worker.name].prep.None?
  {
    hide Files, Placed, Traced;
  }

  lemma PersistOwn(w: World, s: string)
    requires Chained(w, s) && InPhase(w, Persisting) && Mine(w, s, w.worker.name)
    requires w.worker.env.hook == w.hooks[w.worker.name] && w.worker.name !in w.done
    requires forall n :: !Unfinished(w, s, n)
    ensures Chained(DoPersist(w), s)
  {
    hide Sound;
    var w' := DoPersist(w);
    KeepTrail(w, w', s);
    hide SoundTrail;
    assert forall n :: Unfinished(w', s, n) ==> n == w.worker.name;
  }

  /** Writing the held file of another session, or the work a file already journals. */
  lemma WriteOther(w: World, env: Envelope, worker: Worker, s: string)
    requires Chained(w, s) && w.worker.Hold? && w.worker.name in w.spool && w.worker.name in w.hooks
    requires env.prep == w.spool[w.worker.name].prep || w.hooks[w.worker.name].session != s
    requires SoundHeld(Write(w, w.worker.name, env).(worker := worker), s)
    ensures Chained(Write(w, w.worker.name, env).(worker := worker), s)
  {
    hide Sound, Chained, SoundHeld;
    var w' := Write(w, w.worker.name, env).(worker := worker);
    forall n ensures Unfinished(w', s, n) <==> Unfinished(w, s, n) {
    }
    KeepFiles(w, w', s);
  }

  lemma PersistChained(w: World, s: string)
    requires Ready(w, s) && InPhase(w, Persisting)
    ensures Chained(DoPersist(w), s)
  {
    hide Core, Arrivals, Listed, Ordered, Chained, Sound, SoundTrail, SoundSpool, SoundDisk;
    HeldFacts(w);
    HeldPrep(w);
    if w.worker.env.hook.session == s {
      OnlyHeld(w, s);
      PersistOwn(w, s);
    } else {
      WriteOther(w, w.worker.env, w.worker.(phase := Saving), s);
    }
  }

  /** Rewriting a file whose preparation is already durable. */
  lemma RewriteChained(w: World, env: Envelope, worker: Worker, s: string)
    requires Ready(w, s) && (InPhase(w, Delivering) || InPhase(w, Recording))
    requires env.hook == w.worker.env.hook && env.prep == w.worker.env.prep
    requires worker.Hold? && worker.name == w.worker.name && worker.env.hook == env.hook && worker.env.prep == env.prep
    requires worker.phase == Delivering
    ensures Chained(Write(w, w.worker.name, env).(worker := worker), s)
  {
    hide Core, Arrivals, Listed, Ordered, Sound, SoundTrail, SoundSpool, SoundDisk;
    HeldFacts(w);
    HeldPrep(w);
    WriteOther(w, env, worker, s);
  }

  lemma SaveOwn(w: World, s: string)
    requires Chained(w, s) && CanSave(w) && Unfinished(w, s, w.worker.name) && w.worker.env.hook.session == s
    requires w.spool[w.worker.name].prep == w.worker.env.prep
    ensures Chained(DoSave(w), s)
  {
    hide Sound;
    var w' := DoSave(w);
    KeepTrail(w, w', s);
    hide SoundTrail;
    assert forall n :: Unfinished(w', s, n) <==> Unfinished(w, s, n);
    assert Unfinished(w', s, w.worker.name) && Disk(w', s) == w'.spool[w.worker.name].prep.value.state;
  }

  lemma SaveChained(w: World, s: string)
    requires Ready(w, s) && CanSave(w)
    ensures Chained(DoSave(w), s)
  {
    hide Core, Arrivals, Listed, Ordered, Chained, Sound;
    HeldFacts(w);
    HeldPrep(w);
    if w.worker.env.hook.session == s {
      SaveOwn(w, s);
    } else {
      KeepDisk(w, DoSave(w), s);
    }
  }

  lemma SendChained(w: World, s: string)
    requires Chained(w, s) && Sending(w)
    ensures Chained(DoSend(w), s)
  {
    hide Sound, SoundTrail, SoundSpool, SoundDisk;
    KeepDisk(w, DoSend(w), s);
  }

  lemma AcknowledgeChained(w: World, s: string)
    requires Chained(w, s) && Sending(w)
    ensures Chained(DoAcknowledge(w), s)
  {
    hide Sound, SoundTrail, SoundSpool, SoundDisk;
    KeepDisk(w, DoAcknowledge(w), s);
  }

  lemma RemoveOwn(w: World, s: string)
    requires Chained(w, s) && Finishing(w) && Mine(w, s, w.worker.name) && Unfinished(w, s, w.worker.name)
    requires w.worker.env.hook == w.hooks[w.worker.name] && w.worker.name !in w.done
    requires w.spool[w.worker.name].prep == w.worker.env.prep
    requires forall n :: Unfinished(w, s, n) ==> n == w.worker.name
    ensures Chained(DoRemove(w), s)
  {
    hide Sound;
    var w' := DoRemove(w);
    RemoveTrail(w, s);
    hide SoundTrail;
    assert Trail(w', s) == Trail(w, s) + [w.worker.name];
    forall n ensures !Unfinished(w', s, n) {
      assert Unfinished(w', s, n) ==> Unfinished(w, s, n);
    }
  }

  lemma RemoveOther(w: World, s: string)
    requires Chained(w, s) && Finishing(w) && w.worker.name in w.hooks && w.worker.name !in w.done
    requires w.hooks[w.worker.name] == w.worker.env.hook && w.worker.env.hook.session != s
    ensures Chained(DoRemove(w), s)
  {
    hide Sound, Chained;
    var w' := DoRemove(w);
    forall n ensures Unfinished(w', s, n) <==> Unfinished(w, s, n) {
    }
    KeepFiles(w, w', s);
  }

  lemma RemoveChained(w: World, s: string)
    requires Ready(w, s) && Finishing(w)
    ensures Chained(DoRemove(w), s)
  {
    hide Core, Arrivals, Listed, Ordered, Chained, Sound;
    HeldFacts(w);
    HeldPrep(w);
    if w.worker.env.hook.session == s {
      OnlyHeld(w, s);
      RemoveOwn(w, s);
    } else {
      RemoveOther(w, s);
    }
  }

  lemma RemoveTrail(w: World, s: string)
    requires Finishing(w) && w.worker.env.hook.session == s && SoundTrail(w, s)
    requires w.worker.name in w.hooks && w.worker.name !in w.done && w.hooks[w.worker.name] == w.worker.env.hook
    requires Sound(w.worker.env.prep.value, w.worker.env.hook, Last(w, s))
    ensures SoundTrail(DoRemove(w), s)
  {
    hide Sound;
    var w', k := DoRemove(w), w.worker;
    var before := Trail(w, s);
    var w1 := w.(done := w'.done);
    KeepTrail(w, w1, s);
    assert Trail(w', s) == before + [k.name];
    LongerTrail(w1, w', s, k.name);
  }

  /** A sound trail grows by a file sound against what the trail left. */
  lemma LongerTrail(w: World, w': World, s: string, n: Name)
    requires SoundTrail(w, s) && w'.done == w.done && w'.hooks == w.hooks && Trail(w', s) == Trail(w, s) + [n]
    requires n in w.done && n in w.hooks && w.done[n].prep.Some? && Sound(w.done[n].prep.value, w.hooks[n], Last(w, s))
    ensures SoundTrail(w', s)
  {
    hide Sound;
    var before := Trail(w, s);
    assert before[..|before|] == before;
    forall i | 0 <= i <= |before| ensures Trail(w', s)[..i] == before[..i] && After(w', before[..i]) == After(w, before[..i]) {
    }
  }

  lemma ClearOwn(w: World, s: string)
    requires Chained(w, s) && CanClear(w, true) && w.worker.env.hook.session == s
    requires LeftBy(w, w.worker.name) == w.worker.env.prep.value.state
    ensures Chained(DoClear(w, true), s)
  {
    hide Sound;
    var w' := DoClear(w, true);
    KeepTrail(w, w', s);
    hide SoundTrail;
    assert forall n :: Unfinished(w', s, n) <==> Unfinished(w, s, n);
    assert Last(w, s) == w.worker.env.prep.value.state;
  }

  lemma ClearedState(w: World)
    requires Core(w) && InPhase(w, Clearing)
    ensures w.worker.env.prep.Some? && LeftBy(w, w.worker.name) == w.worker.env.prep.value.state
  {
    hide Files, Placed, Traced;
  }

  lemma ClearChained(w: World, removed: bool, s: string)
    requires Ready(w, s) && CanClear(w, removed)
    ensures Chained(DoClear(w, removed), s)
  {
    hide Core, Arrivals, Listed, Ordered, Chained, Sound;
    ClearedState(w);
    if w.worker.env.hook.session == s && removed {
      ClearOwn(w, s);
    } else {
      KeepDisk(w, DoClear(w, removed), s);
    }
  }

  lemma ReleaseChained(w: World, w': World, s: string)
    requires Chained(w, s) && !w'.worker.Hold?
    requires w'.spool == w.spool && w'.done == w.done && w'.trail == w.trail && w'.hooks == w.hooks && w'.sessions == w.sessions
    ensures Chained(w', s)
  {
    hide Sound, Chained;
    KeepDisk(w, w', s);
  }

  lemma StepChained(w: World, a: Step, s: string)
    requires Ready(w, s) && Enabled(w, a)
    ensures Chained(Apply(w, a), s)
  {
    hide Base, Ordered, Core, Chained, CanEnqueue, CanLoad, CanRefuse, CanAsk, DoEnqueue, DoLoad, DoAsk, DoPrepare,
      DoPersist, DoSave, DoAcknowledge, DoSend, DoRecord, DoRemove, DoClear;
    match a
    case Enqueue(name, hook) => EnqueueChained(w, name, hook, s);
    case Load => LoadChained(w, s);
    case Prepare(draw) => PrepareChained(w, draw, s);
    case FailPrepare(asked) =>
      AskChained(w, s);
      ReleaseChained(if asked then DoAsk(w) else w, Apply(w, a), s);
    case Persist => PersistChained(w, s);
    case FailPersist(written) =>
      PersistChained(w, s);
      ReleaseChained(if written then DoPersist(w) else w, Apply(w, a), s);
    case Save => SaveChained(w, s);
    case Acknowledge => AcknowledgeChained(w, s);
    case LoseReply(applied, written) => LoseReplyChained(w, applied, written, s);
    case Reject(written) =>
      MarkChained(w, true, s);
      ReleaseChained(if written then DoMark(w, true) else w, Apply(w, a), s);
    case Record => RecordChained(w, s);
    case FailRecord(written) =>
      RecordChained(w, s);
      ReleaseChained(if written then DoRecord(w) else w, Apply(w, a), s);
    case Remove => RemoveChained(w, s);
    case Clear(removed) => ClearChained(w, removed, s);
    case _ => ReleaseChained(w, Apply(w, a), s);
  }

  lemma MarkChained(w: World, permanent: bool, s: string)
    requires Ready(w, s) && InPhase(w, Delivering)
    ensures Chained(DoMark(w, permanent), s)
  {
    hide Ready, Chained;
    RewriteChained(w, w.worker.env.(permanent := permanent, config := w.worker.d.config), w.worker, s);
  }

  lemma RecordChained(w: World, s: string)
    requires Ready(w, s) && InPhase(w, Recording)
    ensures Chained(DoRecord(w), s)
  {
    hide Ready, Chained;
    RewriteChained(w, w.worker.env, w.worker.(phase := Delivering), s);
  }

  lemma LoseReplyChained(w: World, applied: bool, written: bool, s: string)
    requires Ready(w, s) && Sending(w)
    ensures var w' := if applied then DoSend(w) else w;
            Chained(Halt(if written then DoMark(w', false) else w'), s)
  {
    hide Base, Ordered, Chained, Core;
    SendOrdered(w, s);
    SendChained(w, s);
    var w' := if applied then DoSend(w) else w;
    MarkChained(w', false, s);
    ReleaseChained(if written then DoMark(w', false) else w', Halt(if written then DoMark(w', false) else w'), s);
  }
}

/** Two more facts every step keeps: identifiers and draws never repeat, and a
    drain accounts for every file it listed. */
module JournalHistory {
  import opened Session
  import opened Journal
  import opened ExactlyOnce
  import opened SessionOrder
  import opened CrashRefinement

  // ---- Identifiers and draws never repeat ----

  ghost predicate HasPrep(w: World, n: Name) {
    (n in w.spool && w.spool[n].prep.Some?) || (n !in w.spool && n in w.done && w.done[n].prep.Some?)
  }

  ghost function SeedOf(w: World, n: Name): nat
    requires HasPrep(w, n)
  {
    Env(w, n).prep.value.draw.seed
  }

  ghost predicate Unrepeated(w: World) {
    && (forall m, n :: m in w.hooks && n in w.hooks && m != n ==> w.hooks[m].id != w.hooks[n].id)
    && (forall n :: HasPrep(w, n) ==> SeedOf(w, n) in w.seeds)
    && (forall m, n :: HasPrep(w, m) && HasPrep(w, n) && m != n ==> SeedOf(w, m) != SeedOf(w, n))
    && (InPhase(w, Persisting) && w.worker.env.prep.Some? ==>
          && w.worker.env.prep.value.draw.seed in w.seeds
          && forall n :: HasPrep(w, n) ==> SeedOf(w, n) != w.worker.env.prep.value.draw.seed)
  }

  lemma SamePreps(w: World, w': World)
    requires Unrepeated(w) && w'.hooks == w.hooks && w'.seeds == w.seeds
    requires forall n :: HasPrep(w', n) <==> HasPrep(w, n)
    requires forall n :: HasPrep(w, n) ==> SeedOf(w', n) == SeedOf(w, n)
    requires InPhase(w', Persisting) ==> w'.worker == w.worker
    ensures Unrepeated(w')
  {
  }

  lemma QuietUnrepeated(w: World, w': World)
    requires Unrepeated(w) && w'.hooks == w.hooks && w'.seeds == w.seeds && w'.spool == w.spool && w'.done == w.done
    requires InPhase(w', Persisting) ==> w'.worker == w.worker
    ensures Unrepeated(w')
  {
    hide Unrepeated;
    SamePreps(w, w');
  }

  lemma EnqueueUnrepeated(w: World, name: Name, hook: Hook)
    requires Core(w) && Unrepeated(w) && CanEnqueue(w, name, hook)
    ensures Unrepeated(DoEnqueue(w, name, hook))
  {
    hide Core;
    HistoryFacts(w);
    var w' := DoEnqueue(w, name, hook);
    assert name !in w.spool && name !in w.done;
    forall n ensures HasPrep(w', n) <==> HasPrep(w, n) {
    }
    assert forall n :: HasPrep(w, n) ==> SeedOf(w', n) == SeedOf(w, n);
  }

  lemma PrepareUnrepeated(w: World, draw: Draw)
    requires Unrepeated(w) && CanPrepare(w, draw)
    ensures Unrepeated(DoPrepare(w, draw))
  {
    hide PrepareAgainst, CanAsk;
    var w' := DoPrepare(w, draw);
    forall n ensures HasPrep(w', n) <==> HasPrep(w, n) {
    }
    assert forall n :: HasPrep(w, n) ==> SeedOf(w', n) == SeedOf(w, n);
  }

  /** Writing the held file, with the preparation it has or with the one just drawn. */
  lemma WriteUnrepeated(w: World, env: Envelope, worker: Worker)
    requires Core(w) && Unrepeated(w) && w.worker.Hold? && w.worker.phase != Clearing && w.worker.phase != Preparing
    requires env.prep == w.worker.env.prep
    requires worker.Hold? && (worker.phase == Saving || worker.phase == Delivering)
    ensures Unrepeated(Write(w, w.worker.name, env).(worker := worker))
  {
    hide Core;
    HeldFacts(w);
    HeldPrep(w);
    var w' := Write(w, w.worker.name, env).(worker := worker);
    forall n ensures HasPrep(w', n) <==> HasPrep(w, n) || n == w.worker.name {
    }
    assert forall n :: HasPrep(w, n) && n != w.worker.name ==> SeedOf(w', n) == SeedOf(w, n);
    assert SeedOf(w', w.worker.name) == env.prep.value.draw.seed;
    assert HasPrep(w, w.worker.name) ==> SeedOf(w, w.worker.name) == env.prep.value.draw.seed;
  }

  lemma RemoveUnrepeated(w: World)
    requires Core(w) && Unrepeated(w) && Finishing(w)
    ensures Unrepeated(DoRemove(w))
  {
    hide Core;
    HeldFacts(w);
    HeldPrep(w);
    HistoryFacts(w);
    var w' := DoRemove(w);
    forall n ensures HasPrep(w', n) <==> HasPrep(w, n) {
    }
    assert forall n :: HasPrep(w, n) ==> SeedOf(w', n) == SeedOf(w, n);
    SamePreps(w, w');
  }

  lemma StepUnrepeated(w: World, a: Step)
    requires Core(w) && Unrepeated(w) && Enabled(w, a)
    ensures Unrepeated(Apply(w, a))
  {
    hide Core, Unrepeated, CanEnqueue, CanLoad, CanRefuse, CanAsk, DoPrepare, DoRemove, DoEnqueue;
    match a
    case Enqueue(name, hook) => EnqueueUnrepeated(w, name, hook);
    case Prepare(draw) => PrepareUnrepeated(w, draw);
    case Remove => RemoveUnrepeated(w);
    case LoseReply(applied, written) => LoseReplyUnrepeated(w, applied, written);
    case Persist => WritesUnrepeated(w, a);
    case FailPersist(written) => WritesUnrepeated(w, a);
    case Reject(written) => WritesUnrepeated(w, a);
    case Record => WritesUnrepeated(w, a);
    case FailRecord(written) => WritesUnrepeated(w, a);
    case _ => QuietUnrepeated(w, Apply(w, a));
  }

  lemma WritesUnrepeated(w: World, a: Step)
    requires Core(w) && Unrepeated(w) && Enabled(w, a)
    requires a.Persist? || a.FailPersist? || a.Reject? || a.Record? || a.FailRecord?
    ensures Unrepeated(Apply(w, a))
  {
    hide Core, Unrepeated, CanEnqueue;
    var k := w.worker;
    match a
    case Persist => WriteUnrepeated(w, k.env, k.(phase := Saving));
    case FailPersist(written) =>
      WriteUnrepeated(w, k.env, k.(phase := Saving));
      var w' := if written then DoPersist(w) else w;
      QuietUnrepeated(w', Halt(w'));
    case Reject(written) =>
      WriteUnrepeated(w, k.env.(permanent := true, config := k.d.config), k);
      var w' := if written then DoMark(w, true) else w;
      QuietUnrepeated(w', DoBlock(w'));
    case Record => WriteUnrepeated(w, k.env, k.(phase := Delivering));
    case FailRecord(written) =>
      WriteUnrepeated(w, k.env, k.(phase := Delivering));
      var w' := if written then DoRecord(w) else w;
      QuietUnrepeated(w', Halt(w'));
  }

  lemma LoseReplyUnrepeated(w: World, applied: bool, written: bool)
    requires Core(w) && Unrepeated(w) && Sending(w)
    ensures var w' := if applied then DoSend(w) else w;
            Unrepeated(Halt(if written then DoMark(w', false) else w'))
  {
    hide Core, Unrepeated;
    SendKeeps(w);
    QuietUnrepeated(w, DoSend(w));
    var w', k := if applied then DoSend(w) else w, w.worker;
    WriteUnrepeated(w', k.env.(permanent := false, config := k.d.config), k);
    var w'' := if written then DoMark(w', false) else w';
    QuietUnrepeated(w'', Halt(w''));
  }

  // ---- Every listed file is accounted for ----

  function Culprit(b: Blame): Name {
    b.name
  }

  /** The listed file `c` of session `s` is what blocks it: the session's earlier
      listed files are finished, and this one and the later ones are kept. */
  ghost predicate Blocks(w: World, s: string, c: Name)
    requires !w.worker.Idle?
  {
    var d := w.worker.d;
    && c in d.listing && c in w.hooks && w.hooks[c].session == s
    && forall m :: m in d.listing && m in w.hooks && w.hooks[m].session == s ==>
         if m < c then m in w.done else m in w.spool && !Holds(w, m) && (m == c ==> m !in d.todo)
  }

  /** A listed file is still to come, in hand, finished, or of a blocked session;
      a session is blocked by one of its own listed files; files finish in order. */
  ghost predicate Accounted(w: World) {
    !w.worker.Idle? ==>
      var d := w.worker.d;
      && (forall n :: n in d.listing ==>
            n in w.hooks && (n in d.todo || Holds(w, n) || n in w.done || w.hooks[n].session in d.blocked))
      && (forall n :: n in d.todo ==> n in d.listing)
      && (w.worker.Hold? ==> w.worker.name in d.listing)
      && (forall m :: m in d.listing && m in w.done ==>
            (w.worker.Hold? ==> m <= w.worker.name) && forall n :: n in d.todo ==> m < n)
      && (forall s :: s in d.blocked ==> Blocks(w, s, Culprit(d.blocked[s])))
  }

  lemma SameListAccounted(w: World, w': World)
    requires Accounted(w) && SameList(w, w')
    requires w'.hooks == w.hooks && w'.done == w.done && forall n :: n in w.spool ==> n in w'.spool
    ensures Accounted(w')
  {
  }

  lemma EnqueueAccounted(w: World, name: Name, hook: Hook)
    requires Base(w) && Accounted(w) && CanEnqueue(w, name, hook)
    ensures Accounted(DoEnqueue(w, name, hook))
  {
    hide Core;
    HistoryFacts(w);
  }

  lemma BeginAccounted(w: World, listing: seq<Name>, config: string)
    requires Core(w) && CanBegin(w, listing)
    ensures Accounted(DoBegin(w, listing, config))
  {
    hide Core;
    HistoryFacts(w);
  }

  /** The head of the list is set aside, refused or taken in hand. */
  lemma HeadAccounted(w: World, w': World)
    requires Base(w) && Accounted(w) && w.worker.Scan? && w.worker.d.todo != []
    requires w'.hooks == w.hooks && w'.done == w.done && w'.spool == w.spool && !w'.worker.Idle?
    requires w'.worker.d.listing == w.worker.d.listing && w'.worker.d.todo == w.worker.d.todo[1..]
    requires var head, blocked := w.worker.d.todo[0], w.worker.d.blocked;
             if w.hooks[head].session in blocked then w'.worker.Scan? && w'.worker.d.blocked == blocked
             else || (w'.worker.Scan? && w'.worker.d.blocked == blocked[w.hooks[head].session := Refused(head)])
                  || (w'.worker.Hold? && w'.worker.name == head && w'.worker.d.blocked == blocked)
    ensures Accounted(w')
  {
    hide Core;
    HistoryFacts(w);
    RestOf(w.worker.d.todo);
    var head, d, d' := w.worker.d.todo[0], w.worker.d, w'.worker.d;
    forall s | s in d'.blocked ensures Blocks(w', s, Culprit(d'.blocked[s])) {
      if s in d.blocked {
        assert Blocks(w, s, Culprit(d.blocked[s]));
      }
    }
  }

  lemma BlockAccounted(w: World)
    requires Base(w) && Accounted(w) && InPhase(w, Delivering)
    ensures Accounted(DoBlock(w))
  {
    hide Core;
    HeldFacts(w);
  }

  lemma RemoveAccounted(w: World)
    requires Base(w) && Accounted(w) && Finishing(w)
    ensures Accounted(DoRemove(w))
  {
    hide Core;
    HeldFacts(w);
  }

  lemma ClearAccounted(w: World, removed: bool)
    requires Base(w) && Accounted(w) && CanClear(w, removed)
    ensures Accounted(DoClear(w, removed))
  {
    hide Core;
    HeldFacts(w);
  }

  lemma HoldAccounted(w: World, a: Step)
    requires Base(w) && Accounted(w) && Enabled(w, a)
    requires a.Prepare? || a.Persist? || a.Save? || a.Acknowledge? || a.Record?
    ensures Accounted(Apply(w, a))
  {
    hide Core, Accounted, CanAsk, PrepareAgainst, CanEnqueue;
    match a
    case Prepare(draw) => SameListAccounted(w, DoPrepare(w, draw));
    case Persist => SameListAccounted(w, DoPersist(w));
    case Save => SameListAccounted(w, DoSave(w));
    case Acknowledge => SameListAccounted(w, DoAcknowledge(w));
    case Record => SameListAccounted(w, DoRecord(w));
  }

  lemma RejectAccounted(w: World, written: bool)
    requires Base(w) && Accounted(w) && Sending(w)
    ensures Accounted(DoBlock(if written then DoMark(w, true) else w))
  {
    hide Base, Accounted;
    if written {
      MarkOnly(w);
      SameListAccounted(w, DoMark(w, true));
    }
    BlockAccounted(if written then DoMark(w, true) else w);
  }

  lemma StepAccounted(w: World, a: Step)
    requires Base(w) && Accounted(w) && Enabled(w, a)
    ensures Accounted(Apply(w, a))
  {
    hide Core, CanEnqueue, CanAsk, CanLoad, CanRefuse, DoEnqueue, DoBegin, DoLoad, DoSkip, DoRefuse, DoPrepare, DoPersist,
      DoSave, DoAcknowledge, DoRecord, DoRemove, DoBlock, DoClear, DoMark, DoSend, DoAsk;
    match a
    case Enqueue(name, hook) => EnqueueAccounted(w, name, hook);
    case Begin(listing, config) => BeginAccounted(w, listing, config);
    case Skip => HeadStepAccounted(w, a);
    case Refuse => HeadStepAccounted(w, a);
    case Load => HeadStepAccounted(w, a);
    case Prepare(_) => HoldAccounted(w, a);
    case Persist => HoldAccounted(w, a);
    case Save => HoldAccounted(w, a);
    case Acknowledge => HoldAccounted(w, a);
    case Record => HoldAccounted(w, a);
    case Reject(written) => RejectAccounted(w, written);
    case Remove => RemoveAccounted(w);
    case Clear(removed) => ClearAccounted(w, removed);
    case _ => assert Apply(w, a).worker.Idle?;
  }

  lemma MarkOnly(w: World)
    requires Base(w) && Sending(w)
    ensures Base(DoMark(w, true))
  {
    MarkKeeps(w, true);
    hide Core;
  }

  lemma HeadStepAccounted(w: World, a: Step)
    requires Base(w) && Accounted(w) && Enabled(w, a) && (a.Skip? || a.Refuse? || a.Load?)
    ensures Accounted(Apply(w, a))
  {
    hide Core, Accounted, Arrivals, RefusedNow;
    HistoryFacts(w);
    HeadAccounted(w, Apply(w, a));
  }
}

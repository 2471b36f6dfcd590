/** The collector as it runs: hooks are written to the journal, and a worker
    drains it. Every effect it has is a step of the journal's machine. */
module Collector {
  import opened Wrappers
  import opened Telemetry
  import opened Session
  import opened HookTransactions
  import opened Journal
  import opened ExactlyOnce
  import opened JournalTheorems
  import opened SessionOrder
  import opened JournalHistory

  /** What the outside world does at one point where the worker depends on it.
      `ok`: the call comes back; otherwise it fails, or the process dies in it.
      `refused`: a delivery comes back with a permanent refusal. `applied`: the
      server applied a request whose reply was lost. `lost`: the following write
      fails, or the process dies in it; `written`: it took effect all the same. */
  datatype Luck = Luck(ok: bool, refused: bool, applied: bool, lost: bool, written: bool, tokens: bool)

  /** No call and no write fails. Deliveries may be refused all the same. */
  ghost predicate Fortunate(luck: nat -> Luck) {
    forall i :: luck(i).ok && !luck(i).lost
  }

  lemma SmoothIsFortunate(luck: nat -> Luck)
    ensures Smooth(luck) ==> Fortunate(luck) && forall i :: luck(i).written
  {
  }

  lemma LuckAt(luck: nat -> Luck, i: nat)
    ensures Fortunate(luck) ==> luck(i).ok && !luck(i).lost
  {
  }

  datatype Verdict = Done | Blocked | Stopped

  ghost predicate Reaches(w: World, w': World) {
    exists steps :: Runs(w, steps, w')
  }

  lemma ReachesStep(w: World, a: Step)
    requires Enabled(w, a)
    ensures Reaches(w, Apply(w, a))
  {
    hide Enabled, Apply;
    assert Runs(w, [a], Apply(w, a)) by {
      assert [a][0] == a && [a][1..] == [];
      assert Runs(Apply(w, a), [], Apply(w, a));
    }
  }

  lemma ReachesSelf(w: World)
    ensures Reaches(w, w)
  {
    assert Runs(w, [], w);
  }

  lemma ReachesMore(w0: World, w1: World, w2: World)
    requires Reaches(w0, w1) && Reaches(w1, w2)
    ensures Reaches(w0, w2)
  {
    hide Runs;
    var a :| Runs(w0, a, w1);
    var b :| Runs(w1, b, w2);
    RunsConcat(w0, a, w1, b, w2);
  }

  lemma ReachesReachable(w: World, w': World)
    requires Reachable(w) && Reaches(w, w')
    ensures Reachable(w')
  {
    hide Runs;
    var a :| Runs(START, a, w);
    var b :| Runs(w, b, w');
    RunsConcat(START, a, w, b, w');
  }

  /** Where the worker stands after delivering from a held file. */
  function WorkerAfter(v: Verdict, d: Drain, name: Name, env: Envelope): Worker {
    match v
    case Done => Hold(d, name, env, Delivering)
    case Blocked => Scan(d.(blocked := d.blocked[env.hook.session := Rejected(name)]))
    case Stopped => Idle
  }

  /** Where the worker stands when it lets go of a held file. */
  function WorkerLeaves(v: Verdict, d: Drain, name: Name, session: string): Worker {
    match v
    case Done => Scan(d)
    case Blocked => Scan(d.(blocked := d.blocked[session := Rejected(name)]))
    case Stopped => Idle
  }

  /** Where the worker stands once it has read a file. */
  function Loaded(d: Drain, name: Name, env: Envelope): Worker {
    Hold(d, name, env, if env.prep.Some? then Saving else Preparing)
  }

  // ---- What a drain leaves, and why ----

  /** The deliveries of one hook, as the stretch of the world's answers they used. */
  datatype Stretch = Stretch(from: nat, to: nat)

  /** One of those deliveries came back with a permanent refusal. */
  ghost predicate RefusedIn(luck: nat -> Luck, sent: Stretch) {
    exists i :: sent.from <= i < sent.to && luck(i).ok && luck(i).refused
  }

  /** The file records a permanent refusal under this configuration. */
  predicate Marked(env: Envelope, config: string) {
    env.permanent && env.config == config
  }

  ghost predicate OthersKept(before: map<Name, Envelope>, after: map<Name, Envelope>, name: Name) {
    forall n :: n != name ==> (n in after <==> n in before) && (n in before ==> after[n] == before[n])
  }

  lemma OthersKeptBy(before: map<Name, Envelope>, after: map<Name, Envelope>, name: Name, env: Envelope)
    ensures OthersKept(before, before, name)
    ensures OthersKept(before, after, name) ==>
              OthersKept(before, after[name := env], name) && OthersKept(before, after - {name}, name)
  {
  }

  lemma OthersKeptThen(a: map<Name, Envelope>, b: map<Name, Envelope>, c: map<Name, Envelope>, name: Name)
    ensures OthersKept(a, b, name) && OthersKept(b, c, name) ==> OthersKept(a, c, name)
  {
  }

  lemma OneMoreDelivery(luck: nat -> Luck, from: nat, to: nat)
    requires from <= to
    ensures !RefusedIn(luck, Stretch(from, from))
    ensures RefusedIn(luck, Stretch(from, to + 1)) <==>
              RefusedIn(luck, Stretch(from, to)) || (luck(to).ok && luck(to).refused)
  {
  }

  /** Nothing fails: no call, no write, and no removal of a state file. */
  ghost predicate Smooth(luck: nat -> Luck) {
    Fortunate(luck) && forall i :: luck(i).written
  }

  /** The state files after a session's hook was delivered: its frozen state is there,
      unless the hook is finished and ended the session. */
  function SessionsAfter(sessions: map<string, State>, session: string, st: State, finished: bool): map<string, State> {
    if finished && st.closed then sessions - {session} else sessions[session := st]
  }

  /** What delivering a hook leaves: its file, finished or kept, and the state files after it. */
  ghost predicate Leaves(v: Verdict, name: Name, session: string, sessions: map<string, State>, done: map<Name, Envelope>,
                         sessions': map<string, State>, done': map<Name, Envelope>, spool': map<Name, Envelope>) {
    var files := if v == Done then done' else spool';
    && name in files && files[name].prep.Some?
    && sessions' == SessionsAfter(sessions, session, files[name].prep.value.state, v == Done)
    && done' == if v == Done then done[name := files[name]] else done
  }

  /** The same of a listed hook, which may have been passed over. */
  ghost predicate Rests(sent: Option<Stretch>, luck: nat -> Luck, name: Name, session: string,
                        sessions: map<string, State>, done: map<Name, Envelope>,
                        sessions': map<string, State>, done': map<Name, Envelope>, spool': map<Name, Envelope>) {
    if sent.None? then sessions' == sessions && done' == done
    else Leaves(if RefusedIn(luck, sent.value) then Blocked else Done, name, session, sessions, done, sessions', done', spool')
  }

  /** What a drain found on disk, what the world answered it, and which hooks it delivered. */
  datatype Tour = Tour(files: map<Name, Envelope>, config: string, luck: nat -> Luck, sent: map<Name, Stretch>)

  function SessionIn(t: Tour, n: Name): string
    requires n in t.files
  {
    t.files[n].hook.session
  }

  /** A hook is stuck if it was marked when the drain began, or refused during it. */
  ghost predicate Stuck(t: Tour, n: Name)
    requires n in t.files
  {
    Marked(t.files[n], t.config) || (n in t.sent && RefusedIn(t.luck, t.sent[n]))
  }

  /** No hook of the session up to `n`, or before it, is stuck. */
  ghost predicate Unobstructed(t: Tour, n: Name, itself: bool)
    requires n in t.files
  {
    forall m :: m in t.files && SessionIn(t, m) == SessionIn(t, n) && (m < n || (itself && m == n)) ==> !Stuck(t, m)
  }

  /** Exactly the hooks are finished that are not stuck and do not come after a stuck
      one of their own session. A hook is delivered unless it is marked or comes after a
      stuck one. What blocks a session is a stuck hook of it; one refused in this drain
      is found marked by the next, if its file could be written. */
  ghost predicate Drained(w: World, t: Tour, blocked: map<string, Blame>) {
    && (forall n :: n in t.files ==>
          && n in w.hooks && w.hooks[n] == t.files[n].hook
          && (n in w.done <==> Unobstructed(t, n, true)) && (n in w.spool <==> !Unobstructed(t, n, true))
          && (n in t.sent <==> !Marked(t.files[n], t.config) && Unobstructed(t, n, false)))
    && (forall s :: s in blocked ==> Blamed(t, s, blocked[s]))
    && (Fortunate(t.luck) ==> forall s :: s in blocked ==>
          Culprit(blocked[s]) in w.spool && Marked(w.spool[Culprit(blocked[s])], t.config))
    && Apart(t.sent)
  }

  /** The last hook of its session that the drain delivered. */
  ghost predicate Latest(t: Tour, n: Name) {
    n in t.sent && n in t.files &&
    forall m :: m in t.sent && m in t.files && SessionIn(t, m) == SessionIn(t, n) ==> m <= n
  }

  /** A session's state file holds what its last delivered hook froze, and is gone if that hook
      is finished and ended the session; a session without a delivered hook has the file it had. */
  ghost predicate Saved(t: Tour, before: map<string, State>, sessions: map<string, State>,
                        done: map<Name, Envelope>, spool: map<Name, Envelope>) {
    && (forall n :: Latest(t, n) ==> n in t.files && SavedFor(SessionIn(t, n), n, sessions, done, spool))
    && (forall s :: (forall n :: n in t.sent && n in t.files ==> SessionIn(t, n) != s) ==> AtSession(sessions, s) == AtSession(before, s))
  }

  ghost predicate SavedFor(s: string, n: Name, sessions: map<string, State>, done: map<Name, Envelope>, spool: map<Name, Envelope>) {
    if n in done then
      done[n].prep.Some? && AtSession(sessions, s) == if done[n].prep.value.state.closed then None else Some(done[n].prep.value.state)
    else n in spool && spool[n].prep.Some? && AtSession(sessions, s) == Some(spool[n].prep.value.state)
  }

  function AtSession(sessions: map<string, State>, s: string): Option<State> {
    if s in sessions then Some(sessions[s]) else None
  }

  ghost predicate Blamed(t: Tour, s: string, b: Blame) {
    && Culprit(b) in t.files && SessionIn(t, Culprit(b)) == s && Stuck(t, Culprit(b))
    && (b.Refused? <==> Marked(t.files[Culprit(b)], t.config))
  }

  /** Different hooks' deliveries are different ones, made in the hooks' order. */
  ghost predicate Apart(sent: map<Name, Stretch>) {
    forall m, n :: m in sent && n in sent && m < n ==> sent[m].to <= sent[n].from
  }

  class Store {
    var spool: map<Name, Envelope>
    var sessions: map<string, State>
    var log: seq<Request>
    var starts: seq<Start>
    var nextSeed: nat
    ghost var hooks: map<Name, Hook>
    ghost var arrived: seq<Name>
    ghost var begun: set<Name>
    ghost var done: map<Name, Envelope>
    ghost var trail: map<string, seq<Name>>
    ghost var seeds: set<nat>

    /** The machine's view of the store, with the worker at `k`. */
    ghost function At(k: Worker): World
      reads this
    {
      World(spool, sessions, log, starts, k, hooks, arrived, begun, done, trail, seeds)
    }

    /** The store is one the machine can reach, and fresh draws are fresh. */
    ghost predicate Valid(k: Worker)
      reads this
    {
      Reachable(At(k)) && forall s :: s in seeds ==> s < nextSeed
    }

    constructor ()
      ensures Valid(Idle) && At(Idle) == START
    {
      spool, sessions, log, starts, nextSeed := map[], map[], [], [], 0;
      hooks, arrived, begun, done, trail, seeds := map[], [], {}, map[], map[], {};
      new;
      assert Runs(START, [], START);
    }

    /** A hook is persisted under a new name before anything else happens to it. */
    method EnqueueHook(name: Name, hook: Hook)
      requires Valid(Idle) && CanEnqueue(At(Idle), name, hook)
      modifies this
      ensures Valid(Idle) && At(Idle) == DoEnqueue(old(At(Idle)), name, hook)
    {
      ghost var w := At(Idle);
      spool := spool[name := Envelope(hook, None, 0, false, "")];
      hooks := hooks[name := hook];
      arrived := arrived + [name];
      ReachesStep(w, Enqueue(name, hook));
      ReachesReachable(w, At(Idle));
    }

    /** A missing state file is an empty state. */
    method LoadState(session: string, ghost k: Worker) returns (st: State)
      ensures st == Disk(At(k), session)
    {
      st := if session in sessions then sessions[session] else EMPTY;
    }

    /** Runs the hook's handler against a copy of the loaded state. */
    method RunHandler(hook: Hook, base: State, draw: Draw, available: bool)
      returns (err: bool, prep: Prep, asked: seq<string>)
      ensures asked == if Starts(base, hook) then [StartKey(base, hook.id)] else []
      ensures err <==> Starts(base, hook) && !available
      ensures !err ==> prep == PrepareAgainst(base, hook, draw)
    {
      var st := new SessionState(base);
      var tx := new HookTransaction(st, hook, draw, available);
      tx.Dispatch();
      hide Handle, Starts, StartKey;
      err, asked, prep := tx.err, tx.asked, Prep(st.Value(), tx.ops, base, draw);
    }

    /** Prepares the held hook against the state on disk. On failure its file is as it was. */
    method PrepareHook(d: Drain, name: Name, env: Envelope, limit: nat, bytes: Span -> nat, l: Luck)
      returns (ok: bool, prepared: Envelope)
      requires Valid(Hold(d, name, env, Preparing))
      modifies this
      ensures prepared.hook == env.hook && prepared.prep.Some? && hooks == old(hooks) && spool == old(spool)
      ensures sessions == old(sessions) && done == old(done)
      ensures l.ok ==> ok
      ensures var k := if ok then Hold(d, name, prepared, Persisting) else Idle;
              Valid(k) && Reaches(old(At(Hold(d, name, env, Preparing))), At(k))
    {
      hide Reachable, PrepareAgainst, Starts, StartKey, Reaches, Disk;
      ghost var w := At(Hold(d, name, env, Preparing));
      var session := env.hook.session;
      var base := LoadState(session, Hold(d, name, env, Preparing));
      var draw := Draw(nextSeed, limit, bytes, l.tokens);
      nextSeed := nextSeed + 1;
      var err, prep, asked := RunHandler(env.hook, base, draw, l.ok);
      prepared := env.(prep := Some(prep));
      ok := !err;
      if |asked| > 0 && (ok || l.applied) {
        starts := starts + [Start(session, name, asked[0])];
      }
      if ok {
        seeds := seeds + {draw.seed};
        assert At(Hold(d, name, prepared, Persisting)) == DoPrepare(w, draw);
        PrepareStep(w, draw);
      } else {
        ghost var lost := |asked| > 0 && l.applied;
        assert At(Idle) == Halt(if lost then DoAsk(w) else w);
        FailPrepareStep(w, lost);
      }
    }

    /** Freezes the preparation into the hook's file. */
    method PersistHook(d: Drain, name: Name, env: Envelope, l: Luck) returns (ok: bool)
      requires Valid(Hold(d, name, env, Persisting))
      modifies this
      ensures hooks == old(hooks) && (ok <==> !l.lost) && OthersKept(old(spool), spool, name)
      ensures sessions == old(sessions) && done == old(done)
      ensures var k := if ok then Hold(d, name, env, Saving) else Idle;
              Valid(k) && Reaches(old(At(Hold(d, name, env, Persisting))), At(k))
    {
      hide Reachable, Reaches, Enabled, Apply, OthersKept;
      ghost var w := At(Hold(d, name, env, Persisting));
      ReachesSelf(w);
      OthersKeptBy(spool, spool, name, env);
      ok := !l.lost;
      PersistStep(w, w, ok, l.written);
      if ok || l.written {
        spool := spool[name := env];
      }
      assert ok ==> At(Hold(d, name, env, Saving)) == DoPersist(w);
      assert !ok ==> At(Idle) == Halt(if l.written then DoPersist(w) else w);
    }

    /** Writes the frozen state of the held hook to its session's state file. */
    method SaveState(d: Drain, name: Name, env: Envelope, l: Luck) returns (ok: bool)
      requires Valid(Hold(d, name, env, Saving)) && env.prep.Some?
      modifies this
      ensures hooks == old(hooks) && spool == old(spool) && done == old(done) && (ok <==> l.ok)
      ensures ok ==> sessions == old(sessions)[env.hook.session := env.prep.value.state]
      ensures var k := if ok then Hold(d, name, env, Delivering) else Idle;
              Valid(k) && Reaches(old(At(Hold(d, name, env, Saving))), At(k))
    {
      hide Reachable, Reaches, Enabled, Apply;
      ghost var w := At(Hold(d, name, env, Saving));
      ReachesSelf(w);
      ok := l.ok;
      SaveStep(w, w, ok);
      if ok {
        sessions := sessions[env.hook.session := env.prep.value.state];
        assert At(Hold(d, name, env, Delivering)) == DoSave(w);
      } else {
        assert At(Idle) == Halt(w);
      }
    }

    /** Sends the operation at the held hook's cursor, and records the outcome in its file. */
    method DeliverNext(d: Drain, name: Name, held: Envelope, l: Luck) returns (v: Verdict, env: Envelope)
      requires Valid(Hold(d, name, held, Delivering)) && held.prep.Some? && held.next < |held.prep.value.ops|
      modifies this
      ensures env == if v == Blocked || !l.ok then held else held.(next := held.next + 1, permanent := false)
      ensures hooks == old(hooks) && OthersKept(old(spool), spool, name)
      ensures (v == Blocked <==> l.ok && l.refused) && (v == Done <==> l.ok && !l.refused && !l.lost)
      ensures v == Blocked && !l.lost ==> name in spool && Marked(spool[name], d.config) && spool[name].prep == held.prep
      ensures sessions == old(sessions) && done == old(done)
      ensures var k := WorkerAfter(v, d, name, env);
              Valid(k) && Reaches(old(At(Hold(d, name, held, Delivering))), At(k))
    {
      hide Reachable, Reaches, Enabled, Apply, OthersKept;
      ghost var w := At(Hold(d, name, held, Delivering));
      ReachesSelf(w);
      env, v := held, Done;
      if if l.ok then !l.refused else l.applied {
        log := log + [Request(env.hook.session, name, env.next, env.prep.value.ops[env.next])];
      }
      if !l.ok || l.refused {
        var failed := env.(permanent := l.ok, config := d.config);
        OthersKeptBy(spool, spool, name, failed);
        if !l.lost || l.written {
          spool := spool[name := failed];
        }
        v := if l.ok then Blocked else Stopped;
        if l.ok {
          RejectStep(w, w, !l.lost || l.written);
        } else {
          LoseReplyStep(w, w, l.applied, !l.lost || l.written);
        }
        return;
      }
      env := env.(next := env.next + 1, permanent := false);
      OthersKeptBy(spool, spool, name, env);
      AcknowledgeStep(w, w);
      ghost var w1 := At(Hold(d, name, env, Recording));
      assert w1 == DoAcknowledge(w);
      RecordStep(w, w1, !l.lost, l.written);
      if !l.lost || l.written {
        spool := spool[name := env];
      }
      if l.lost {
        v := Stopped;
        assert At(Idle) == Halt(if l.written then DoRecord(w1) else w1);
      } else {
        assert At(Hold(d, name, env, Delivering)) == DoRecord(w1);
      }
    }

    /** Delivers the held hook's operations from its cursor on, until one is not accepted. */
    method Deliver(d: Drain, name: Name, held: Envelope, luck: nat -> Luck, clock: nat)
      returns (v: Verdict, env: Envelope, now: nat)
      requires Valid(Hold(d, name, held, Delivering)) && held.prep.Some?
      modifies this
      ensures env.hook == held.hook && env.prep == held.prep && hooks == old(hooks)
      ensures v == Done ==> Complete(env)
      ensures Fortunate(luck) ==> v != Stopped
      ensures clock <= now && (v == Blocked <==> RefusedIn(luck, Stretch(clock, now)))
      ensures OthersKept(old(spool), spool, name)
      ensures v == Blocked && Fortunate(luck) ==> name in spool && Marked(spool[name], d.config) && spool[name].prep == held.prep
      ensures sessions == old(sessions) && done == old(done)
      ensures var k := WorkerAfter(v, d, name, env);
              Valid(k) && Reaches(old(At(Hold(d, name, held, Delivering))), At(k))
    {
      hide Reachable, Reaches, OthersKept, RefusedIn, Fortunate, Marked;
      ghost var w0 := At(Hold(d, name, held, Delivering));
      env, now, v := held, clock, Done;
      OneMoreDelivery(luck, clock, clock);
      OthersKeptBy(spool, spool, name, env);
      ReachesSelf(w0);
      while env.next < |env.prep.value.ops|
        invariant env.hook == held.hook && env.prep == held.prep && hooks == old(hooks)
        invariant Valid(Hold(d, name, env, Delivering)) && Reaches(w0, At(Hold(d, name, env, Delivering)))
        invariant clock <= now && !RefusedIn(luck, Stretch(clock, now)) && OthersKept(old(spool), spool, name)
        invariant v == Done && sessions == old(sessions) && done == old(done)
        decreases |held.prep.value.ops| - env.next
      {
        ghost var w, before := At(Hold(d, name, env, Delivering)), spool;
        OneMoreDelivery(luck, clock, now);
        LuckAt(luck, now);
        v, env := DeliverNext(d, name, env, luck(now));
        now := now + 1;
        OthersKeptThen(old(spool), before, spool, name);
        ReachesMore(w0, w, At(WorkerAfter(v, d, name, env)));
        if v != Done {
          return;
        }
      }
    }

    /** Removes a hook all of whose operations were acknowledged, and the state of an ended session. */
    method RemoveHook(d: Drain, name: Name, env: Envelope, l: Luck) returns (ok: bool)
      requires Valid(Hold(d, name, env, Delivering)) && Complete(env)
      modifies this
      ensures hooks == old(hooks) && (ok <==> l.ok && !l.lost) && OthersKept(old(spool), spool, name)
      ensures ok ==> done == old(done)[name := env]
      ensures ok ==> sessions == if env.prep.value.state.closed && l.written
                                 then old(sessions) - {env.hook.session} else old(sessions)
      ensures var k := if ok then Scan(d) else Idle;
              Valid(k) && Reaches(old(At(Hold(d, name, env, Delivering))), At(k))
    {
      hide Reachable, Reaches, Enabled, Apply, OthersKept;
      ghost var w := At(Hold(d, name, env, Delivering));
      var session := env.hook.session;
      ReachesSelf(w);
      OthersKeptBy(spool, spool, name, env);
      RemoveStep(w, w, l.ok);
      ok := l.ok && !l.lost;
      if !l.ok {
        assert At(Idle) == Halt(w);
        return;
      }
      spool := spool - {name};
      done := done[name := env];
      trail := trail[session := Trail(w, session) + [name]];
      ghost var w1 := At(Hold(d, name, env, Clearing));
      assert w1 == DoRemove(w);
      if l.lost {
        HaltStep(w, w1);
        assert At(Idle) == Halt(w1);
        return;
      }
      var removed := env.prep.value.state.closed && l.written;
      if removed {
        sessions := sessions - {session};
      }
      ClearStep(w, w1, removed);
      assert At(Scan(d)) == DoClear(w1, removed);
    }

    /** A file read without a preparation gets one, frozen into it. */
    method MakeReady(d: Drain, name: Name, held: Envelope, limit: nat, bytes: Span -> nat, luck: nat -> Luck, clock: nat)
      returns (ok: bool, env: Envelope, now: nat)
      requires Valid(Loaded(d, name, held))
      modifies this
      ensures env.hook == held.hook && env.prep.Some? && clock <= now && (Fortunate(luck) ==> ok)
      ensures hooks == old(hooks) && sessions == old(sessions) && done == old(done) && OthersKept(old(spool), spool, name)
      ensures var k := if ok then Hold(d, name, env, Saving) else Idle;
              Valid(k) && Reaches(old(At(Loaded(d, name, held))), At(k))
    {
      hide Reachable, Reaches, Fortunate, OthersKept;
      ghost var w0 := At(Loaded(d, name, held));
      ReachesSelf(w0);
      OthersKeptBy(spool, spool, name, held);
      ok, env, now := true, held, clock;
      if env.prep.None? {
        LuckAt(luck, now);
        LuckAt(luck, now + 1);
        ok, env := PrepareHook(d, name, held, limit, bytes, luck(now));
        now := now + 1;
        if ok {
          ghost var w1 := At(Hold(d, name, env, Persisting));
          ok := PersistHook(d, name, env, luck(now));
          now := now + 1;
          ReachesMore(w0, w1, At(if ok then Hold(d, name, env, Saving) else Idle));
        }
      }
    }

    /** Saves the frozen state, delivers the operations and removes the file. */
    method Conclude(d: Drain, name: Name, held: Envelope, luck: nat -> Luck, clock: nat)
      returns (v: Verdict, now: nat, ghost sent: Stretch)
      requires Valid(Hold(d, name, held, Saving)) && held.prep.Some?
      modifies this
      ensures hooks == old(hooks) && (Fortunate(luck) ==> v != Stopped)
      ensures clock <= sent.from <= sent.to <= now && (v == Blocked <==> RefusedIn(luck, sent))
      ensures OthersKept(old(spool), spool, name)
      ensures v == Blocked && Fortunate(luck) ==> name in spool && Marked(spool[name], d.config)
      ensures Smooth(luck) ==> Leaves(v, name, held.hook.session, old(sessions), old(done), sessions, done, spool)
      ensures var k := WorkerLeaves(v, d, name, held.hook.session);
              Valid(k) && Reaches(old(At(Hold(d, name, held, Saving))), At(k))
    {
      hide Reachable, Reaches, Fortunate, Smooth, Marked, RefusedIn, OthersKept;
      ghost var w0 := At(Hold(d, name, held, Saving));
      now, sent, v := clock, Stretch(clock, clock), Stopped;
      OneMoreDelivery(luck, now, now);
      LuckAt(luck, now);
      SmoothIsFortunate(luck);
      var ok := SaveState(d, name, held, luck(now));
      now, sent := now + 1, Stretch(now + 1, now + 1);
      OneMoreDelivery(luck, now, now);
      OthersKeptBy(spool, spool, name, held);
      if !ok {
        return;
      }
      ghost var w1 := At(Hold(d, name, held, Delivering));
      var env;
      v, env, now := Deliver(d, name, held, luck, now);
      sent := Stretch(sent.from, now);
      ghost var w2, before := At(WorkerAfter(v, d, name, env)), spool;
      ReachesMore(w0, w1, w2);
      if v == Done {
        LuckAt(luck, now);
        ok := RemoveHook(d, name, env, luck(now));
        v, now := if ok then Done else Stopped, now + 1;
        OthersKeptThen(old(spool), before, spool, name);
        ReachesMore(w0, w2, At(if ok then Scan(d) else Idle));
      }
    }

    /** Takes a held file to its end: prepared if it was not, state saved,
        operations delivered, file removed. */
    method Process(d: Drain, name: Name, held: Envelope, limit: nat, bytes: Span -> nat, luck: nat -> Luck, clock: nat)
      returns (v: Verdict, now: nat, ghost sent: Stretch)
      requires Valid(Loaded(d, name, held))
      modifies this
      ensures hooks == old(hooks) && (Fortunate(luck) ==> v != Stopped)
      ensures clock <= sent.from <= sent.to <= now && (v == Blocked <==> RefusedIn(luck, sent))
      ensures OthersKept(old(spool), spool, name)
      ensures v == Blocked && Fortunate(luck) ==> name in spool && Marked(spool[name], d.config)
      ensures Smooth(luck) ==> Leaves(v, name, held.hook.session, old(sessions), old(done), sessions, done, spool)
      ensures var k := WorkerLeaves(v, d, name, held.hook.session);
              Valid(k) && Reaches(old(At(Loaded(d, name, held))), At(k))
    {
      hide Reachable, Reaches, Fortunate, Smooth, Marked, RefusedIn, OthersKept, Leaves;
      ghost var w0 := At(Loaded(d, name, held));
      SmoothIsFortunate(luck);
      var ok, env;
      ok, env, now := MakeReady(d, name, held, limit, bytes, luck, clock);
      ghost var before := spool;
      if ok {
        ghost var w1 := At(Hold(d, name, env, Saving));
        v, now, sent := Conclude(d, name, env, luck, now);
        OthersKeptThen(old(spool), before, spool, name);
        ReachesMore(w0, w1, At(WorkerLeaves(v, d, name, held.hook.session)));
      } else {
        OneMoreDelivery(luck, now, now);
        v, sent := Stopped, Stretch(now, now);
      }
    }

    /** One listed file: passed over, refused, or taken up. */
    method Visit(d: Drain, limit: nat, bytes: Span -> nat, luck: nat -> Luck, clock: nat)
      returns (stopped: bool, d': Drain, now: nat, ghost sent: Option<Stretch>)
      requires Valid(Scan(d)) && d.todo != []
      modifies this
      ensures hooks == old(hooks) && clock <= now && OthersKept(old(spool), spool, d.todo[0])
      ensures d'.listing == d.listing && d'.config == d.config && d'.todo == d.todo[1..]
      ensures Fortunate(luck) ==> !stopped
      ensures d.todo[0] in old(spool)
      ensures !stopped ==> Visited(old(spool)[d.todo[0]], spool, d, d', luck, sent, clock, now)
      ensures d.todo[0] !in old(done)
      ensures Smooth(luck) ==> Rests(sent, luck, d.todo[0], old(spool)[d.todo[0]].hook.session,
                                     old(sessions), old(done), sessions, done, spool)
      ensures var k := if stopped then Idle else Scan(d');
              Valid(k) && Reaches(old(At(Scan(d))), At(k))
    {
      hide Reachable, Reaches, Fortunate, Smooth, Leaves, RefusedIn, OthersKept;
      ghost var w := At(Scan(d));
      HeadIsThere(w);
      ReachesSelf(w);
      OthersKeptBy(spool, spool, d.todo[0], spool[d.todo[0]]);
      var name := d.todo[0];
      var env, session := spool[name], spool[name].hook.session;
      stopped, d', now, sent := false, d.(todo := d.todo[1..]), clock, None;
      if session in d.blocked {
        SkipStep(w, w);
        assert At(Scan(d')) == DoSkip(w);
      } else if Marked(env, d.config) {
        d' := d'.(blocked := d.blocked[session := Refused(name)]);
        RefuseStep(w, w);
        assert At(Scan(d')) == DoRefuse(w);
      } else {
        begun := begun + {name};
        ghost var w1 := At(Loaded(d', name, env));
        LoadStep(w, w);
        assert w1 == DoLoad(w);
        var v;
        ghost var stretch;
        v, now, stretch := Process(d', name, env, limit, bytes, luck, clock);
        sent := Some(stretch);
        ReachesMore(w, w1, At(WorkerLeaves(v, d', name, session)));
        stopped := v == Stopped;
        SmoothIsFortunate(luck);
        if v == Blocked {
          d' := d'.(blocked := d'.blocked[session := Rejected(name)]);
        }
      }
    }

    /** One drain of the journal. `listing` is the sorted directory, `luck` what
        the world does next each time the worker depends on it, `maxBytes` the
        configured request limit. Whatever is refused, a drain in which nothing
        else fails reaches the end of its list. */
    method DrainHooks(listing: seq<Name>, config: string, maxBytes: int, bytes: Span -> nat, luck: nat -> Luck)
      returns (finished: bool, blocked: map<string, Blame>, ghost sent: map<Name, Stretch>)
      requires Valid(Idle) && CanBegin(At(Idle), listing)
      modifies this
      ensures Valid(Idle) && hooks == old(hooks) && Reaches(old(At(Idle)), At(Idle))
      ensures finished ==> Drained(At(Idle), Tour(old(spool), config, luck, sent), blocked)
      ensures Fortunate(luck) ==> finished
      ensures Smooth(luck) ==> Saved(Tour(old(spool), config, luck, sent), old(sessions), sessions, done, spool)
    {
      hide Reachable, Reaches, Drained, Underway, Visited, OthersKept, Saved, Rests;
      ghost var w0 := At(Idle);
      var d := Drain(listing, listing, map[], config);
      var clock := 0;
      sent := map[];
      ReachesSelf(w0);
      NothingVisited(w0, d, luck);
      NothingSaved(spool, config, luck, sessions, done);
      SmoothIsFortunate(luck);
      FilesAreHooks(w0);
      BeginStep(w0, listing, config);
      assert At(Scan(d)) == DoBegin(w0, listing, config);
      while d.todo != []
        invariant d.listing == listing && d.config == config && hooks == old(hooks)
        invariant Valid(Scan(d)) && Reaches(w0, At(Scan(d)))
        invariant Underway(Tour(old(spool), config, luck, sent), spool, d, clock)
        invariant Smooth(luck) ==> Saved(Tour(old(spool), config, luck, sent), old(sessions), sessions, done, spool)
        decreases |d.todo|
      {
        ghost var w := At(Scan(d));
        if !luck(clock).ok {
          HaltStep(w0, w);
          assert At(Idle) == Halt(w);
          return false, d.blocked, sent;
        }
        ghost var before, start, stretch := spool, clock, None;
        ghost var saved, finished' := sessions, done;
        var stopped, d' := false, d;
        stopped, d', clock, stretch := Visit(d, RequestLimit(maxBytes), bytes, luck, clock + 1);
        ReachesMore(w0, w, At(if stopped then Idle else Scan(d')));
        if stopped {
          return false, d'.blocked, sent;
        }
        VisitedOne(Tour(old(spool), config, luck, sent), before, d, start, spool, d', stretch, start + 1, clock);
        if Smooth(luck) {
          SavedOne(Tour(old(spool), config, luck, sent), d, start, old(sessions), before, saved, finished', stretch, spool, sessions, done);
        }
        sent := Noted(sent, d.todo[0], stretch);
        d := d';
      }
      HaltStep(w0, At(Scan(d)));
      AllDrained(At(Scan(d)), Tour(old(spool), config, luck, sent), clock);
      assert At(Idle) == Halt(At(Scan(d)));
      return true, d.blocked, sent;
    }
  }

  // ---- The machine's steps, one by one ----

  ghost predicate Steps(w0: World, w: World, w': World) {
    Reachable(w) && Reaches(w0, w) ==> Reachable(w') && Reaches(w0, w')
  }

  lemma StepOn(w0: World, w: World, a: Step)
    requires Enabled(w, a)
    ensures Steps(w0, w, Apply(w, a))
  {
    hide Enabled, Apply, Runs, Reaches, Reachable;
    if Reachable(w) && Reaches(w0, w) {
      ReachesStep(w, a);
      ReachesMore(w0, w, Apply(w, a));
      ReachesReachable(w, Apply(w, a));
    }
  }

  lemma PrepareStep(w: World, draw: Draw)
    requires Reachable(w) && CanPrepare(w, draw)
    ensures Reaches(w, DoPrepare(w, draw)) && Reachable(DoPrepare(w, draw))
  {
    hide PrepareAgainst, CanAsk;
    assert Enabled(w, Prepare(draw)) && Apply(w, Prepare(draw)) == DoPrepare(w, draw);
    ReachesStep(w, Prepare(draw));
    ReachesReachable(w, DoPrepare(w, draw));
  }

  lemma FailPrepareStep(w: World, asked: bool)
    requires Reachable(w) && InPhase(w, Preparing) && (asked ==> CanAsk(w))
    ensures Reaches(w, Halt(if asked then DoAsk(w) else w)) && Reachable(Halt(if asked then DoAsk(w) else w))
  {
    hide CanAsk;
    ReachesStep(w, FailPrepare(asked));
    ReachesReachable(w, Apply(w, FailPrepare(asked)));
  }

  lemma PersistStep(w0: World, w: World, ok: bool, written: bool)
    requires InPhase(w, Persisting)
    ensures Steps(w0, w, if ok then DoPersist(w) else Halt(if written then DoPersist(w) else w))
  {
    hide Steps;
    StepOn(w0, w, if ok then Persist else FailPersist(written));
  }

  lemma SaveStep(w0: World, w: World, ok: bool)
    requires CanSave(w)
    ensures Steps(w0, w, if ok then DoSave(w) else Halt(w))
  {
    hide Steps;
    StepOn(w0, w, if ok then Save else FailSave);
  }

  lemma AcknowledgeStep(w0: World, w: World)
    requires Sending(w)
    ensures Steps(w0, w, DoAcknowledge(w))
  {
    hide Steps;
    StepOn(w0, w, Acknowledge);
  }

  lemma RecordStep(w0: World, w: World, ok: bool, written: bool)
    requires InPhase(w, Recording)
    ensures Steps(w0, w, if ok then DoRecord(w) else Halt(if written then DoRecord(w) else w))
  {
    hide Steps;
    StepOn(w0, w, if ok then Record else FailRecord(written));
  }

  lemma RejectStep(w0: World, w: World, written: bool)
    requires Sending(w)
    ensures Steps(w0, w, DoBlock(if written then DoMark(w, true) else w))
  {
    hide Steps;
    StepOn(w0, w, Reject(written));
  }

  lemma LoseReplyStep(w0: World, w: World, applied: bool, written: bool)
    requires Sending(w)
    ensures var w' := if applied then DoSend(w) else w;
            Steps(w0, w, Halt(if written then DoMark(w', false) else w'))
  {
    hide Steps;
    StepOn(w0, w, LoseReply(applied, written));
  }

  lemma RemoveStep(w0: World, w: World, ok: bool)
    requires Finishing(w)
    ensures Steps(w0, w, if ok then DoRemove(w) else Halt(w))
  {
    hide Steps;
    StepOn(w0, w, if ok then Remove else FailRemove);
  }

  lemma ClearStep(w0: World, w: World, removed: bool)
    requires CanClear(w, removed)
    ensures Steps(w0, w, DoClear(w, removed))
  {
    hide Steps;
    StepOn(w0, w, Clear(removed));
  }

  lemma HaltStep(w0: World, w: World)
    ensures Steps(w0, w, Halt(w))
  {
    hide Steps;
    StepOn(w0, w, Crash);
  }

  lemma BeginStep(w: World, listing: seq<Name>, config: string)
    requires CanBegin(w, listing)
    ensures Steps(w, w, DoBegin(w, listing, config))
  {
    hide Steps;
    StepOn(w, w, Begin(listing, config));
  }

  lemma SkipStep(w0: World, w: World)
    requires HeadIs(w, true)
    ensures Steps(w0, w, DoSkip(w))
  {
    hide Steps;
    StepOn(w0, w, Skip);
  }

  lemma RefuseStep(w0: World, w: World)
    requires CanRefuse(w)
    ensures Steps(w0, w, DoRefuse(w))
  {
    hide Steps;
    StepOn(w0, w, Refuse);
  }

  lemma LoadStep(w0: World, w: World)
    requires CanLoad(w)
    ensures Steps(w0, w, DoLoad(w))
  {
    hide Steps;
    StepOn(w0, w, Load);
  }

  lemma HeadIsThere(w: World)
    requires Reachable(w) && w.worker.Scan? && w.worker.d.todo != []
    ensures w.worker.d.todo[0] in w.spool && w.worker.d.todo[0] !in w.done
  {
    hide Core, Arrivals, Unrepeated, Accounted, SessionOk, Reachable;
    ReachableGood(w);
    HistoryFacts(w);
    assert w.worker.d.todo[0] in w.worker.d.todo;
  }

  // ---- The account a drain gives ----

  /** What visiting the head of the list does to the blocked sessions. */
  ghost predicate Visited(env: Envelope, spool: map<Name, Envelope>, d: Drain, d': Drain, luck: nat -> Luck,
                          sent: Option<Stretch>, clock: nat, now: nat)
    requires d.todo != []
  {
    var name, s := d.todo[0], env.hook.session;
    && (sent.Some? <==> s !in d.blocked && !Marked(env, d.config))
    && (sent.Some? ==> clock <= sent.value.from <= sent.value.to <= now)
    && d'.blocked == (if s in d.blocked then d.blocked
                      else if Marked(env, d.config) then d.blocked[s := Refused(name)]
                      else if RefusedIn(luck, sent.value) then d.blocked[s := Rejected(name)]
                      else d.blocked)
    && (d'.blocked != d.blocked && Fortunate(luck) ==> name in spool && Marked(spool[name], d.config))
  }

  function Noted(sent: map<Name, Stretch>, name: Name, stretch: Option<Stretch>): map<Name, Stretch> {
    if stretch.Some? then sent[name := stretch.value] else sent
  }

  /** The files still to come are as they were found, and the account of the others is right. */
  ghost predicate Underway(t: Tour, spool: map<Name, Envelope>, d: Drain, clock: nat) {
    Route(t, spool, d) && Delivered(t, d, clock) && Judgements(t, d) && Culprits(t, d) && Marks(t, spool, d.blocked)
  }

  ghost predicate Route(t: Tour, spool: map<Name, Envelope>, d: Drain) {
    && d.config == t.config && Ascending(d.listing) && (forall n :: n in d.listing <==> n in t.files)
    && |d.todo| <= |d.listing| && d.todo == d.listing[|d.listing| - |d.todo|..]
    && (forall n :: n in d.todo ==> n in t.files && n in spool && spool[n] == t.files[n])
  }

  ghost predicate Delivered(t: Tour, d: Drain, clock: nat) {
    Apart(t.sent) && forall n :: n in t.sent ==> n in t.files && n !in d.todo && t.sent[n].to <= clock
  }

  ghost predicate Judgements(t: Tour, d: Drain) {
    forall n :: n in t.files && n !in d.todo ==> Judged(t, d.blocked, n)
  }

  /** A visited hook before its session's culprit was delivered without refusal, one after it was passed over. */
  ghost predicate Judged(t: Tour, blocked: map<string, Blame>, n: Name)
    requires n in t.files
  {
    var s := SessionIn(t, n);
    && (s !in blocked || n < Culprit(blocked[s]) ==> !Stuck(t, n))
    && (n in t.sent <==> !Marked(t.files[n], t.config) && (s in blocked ==> n <= Culprit(blocked[s])))
  }

  ghost predicate Culprits(t: Tour, d: Drain) {
    forall s :: s in d.blocked ==> Culprit(d.blocked[s]) !in d.todo && Blamed(t, s, d.blocked[s])
  }

  ghost predicate Marks(t: Tour, spool: map<Name, Envelope>, blocked: map<string, Blame>) {
    Fortunate(t.luck) ==> forall s :: s in blocked ==>
      Culprit(blocked[s]) in spool && Marked(spool[Culprit(blocked[s])], t.config)
  }

  lemma NothingVisited(w: World, d: Drain, luck: nat -> Luck)
    requires CanBegin(w, d.listing) && d.todo == d.listing && d.blocked == map[]
    ensures Underway(Tour(w.spool, d.config, luck, map[]), w.spool, d, 0)
  {
  }

  /** The head of the list comes after every visited file, and the rest after it. */
  ghost predicate Advances(t: Tour, d: Drain, d': Drain) {
    && d.todo != [] && d.todo[0] in t.files && d.todo[0] !in d'.todo && d.config == t.config
    && (forall n :: n in d.todo <==> n == d.todo[0] || n in d'.todo)
    && (forall n :: n in t.files && n !in d.todo ==> n < d.todo[0])
  }

  lemma HeadIsLeast(listing: seq<Name>, todo: seq<Name>)
    requires Ascending(listing) && 0 < |todo| <= |listing| && todo == listing[|listing| - |todo|..]
    ensures todo[1..] == listing[|listing| - |todo[1..]|..] && todo[0] !in todo[1..]
    ensures forall n :: n in todo <==> n == todo[0] || n in todo[1..]
    ensures forall n :: n in listing && n !in todo ==> n < todo[0]
  {
  }

  lemma RouteNext(t: Tour, spool: map<Name, Envelope>, d: Drain, spool': map<Name, Envelope>, d': Drain)
    requires Route(t, spool, d) && d.todo != [] && OthersKept(spool, spool', d.todo[0])
    requires d'.listing == d.listing && d'.config == d.config && d'.todo == d.todo[1..]
    ensures Route(t, spool', d')
  {
    HeadIsLeast(d.listing, d.todo);
    hide Ascending, OthersKept;
    forall n | n in d'.todo ensures n in t.files && n in spool' && spool'[n] == t.files[n] {
      assert n in d.todo;
      KeptAt(spool, spool', d.todo[0], n);
    }
  }

  lemma RouteAdvances(t: Tour, spool: map<Name, Envelope>, d: Drain, d': Drain)
    requires Route(t, spool, d) && d.todo != [] && d'.todo == d.todo[1..]
    ensures Advances(t, d, d') && d.todo[0] in spool && spool[d.todo[0]] == t.files[d.todo[0]]
  {
    HeadIsLeast(d.listing, d.todo);
    hide Ascending;
    assert d.todo[0] in d.todo;
  }

  lemma KeptAt(before: map<Name, Envelope>, after: map<Name, Envelope>, name: Name, n: Name)
    requires OthersKept(before, after, name) && n != name && n in before
    ensures n in after && after[n] == before[n]
  {
  }

  lemma StillMarked(t: Tour, spool: map<Name, Envelope>, d: Drain, spool': map<Name, Envelope>, d': Drain,
                    stretch: Option<Stretch>, clock: nat, now: nat)
    requires Advances(t, d, d') && Culprits(t, d) && Marks(t, spool, d.blocked) && OthersKept(spool, spool', d.todo[0])
    requires Visited(t.files[d.todo[0]], spool', d, d', t.luck, stretch, clock, now)
    ensures Marks(t, spool', d'.blocked)
  {
    hide Fortunate, RefusedIn, Blamed, Marked;
    if Fortunate(t.luck) {
      forall s | s in d'.blocked
        ensures Culprit(d'.blocked[s]) in spool' && Marked(spool'[Culprit(d'.blocked[s])], t.config)
      {
        assert s in d.blocked ==> Culprit(d.blocked[s]) != d.todo[0];
      }
    }
  }

  lemma StretchDelivered(t: Tour, d: Drain, spool': map<Name, Envelope>, d': Drain,
                         stretch: Option<Stretch>, start: nat, clock: nat, now: nat)
    requires Advances(t, d, d') && Delivered(t, d, start) && start <= clock <= now
    requires Visited(t.files[d.todo[0]], spool', d, d', t.luck, stretch, clock, now)
    ensures Delivered(t.(sent := Noted(t.sent, d.todo[0], stretch)), d', now)
  {
    hide Fortunate, RefusedIn, Marked;
  }

  /** The verdict on a visited hook, with the head of the list the latest one. */
  lemma JudgedNext(t: Tour, d: Drain, spool': map<Name, Envelope>, d': Drain,
                   stretch: Option<Stretch>, start: nat, clock: nat, now: nat)
    requires Advances(t, d, d') && Delivered(t, d, start) && Culprits(t, d) && Judgements(t, d)
    requires Visited(t.files[d.todo[0]], spool', d, d', t.luck, stretch, clock, now)
    ensures Judgements(t.(sent := Noted(t.sent, d.todo[0], stretch)), d')
  {
    hide Fortunate, RefusedIn, Apart, Marked;
    var name, t' := d.todo[0], t.(sent := Noted(t.sent, d.todo[0], stretch));
    forall n | n in t.files && n !in d'.todo ensures Judged(t', d'.blocked, n) {
      var s := SessionIn(t, n);
      assert s in d.blocked ==> Culprit(d.blocked[s]) < name && Blamed(t, s, d.blocked[s]);
      if n != name {
        assert Judged(t, d.blocked, n) && n < name;
      }
    }
  }

  lemma BlamedNext(t: Tour, d: Drain, spool': map<Name, Envelope>, d': Drain,
                   stretch: Option<Stretch>, clock: nat, now: nat)
    requires Advances(t, d, d') && Culprits(t, d)
    requires Visited(t.files[d.todo[0]], spool', d, d', t.luck, stretch, clock, now)
    ensures Culprits(t.(sent := Noted(t.sent, d.todo[0], stretch)), d')
  {
    hide Fortunate, RefusedIn, Marked;
    var t' := t.(sent := Noted(t.sent, d.todo[0], stretch));
    forall s | s in d'.blocked ensures Culprit(d'.blocked[s]) !in d'.todo && Blamed(t', s, d'.blocked[s]) {
      if s in d.blocked {
        assert Culprit(d.blocked[s]) !in d.todo && Blamed(t, s, d.blocked[s]);
      }
    }
  }

  lemma VisitedOne(t: Tour, spool: map<Name, Envelope>, d: Drain, start: nat,
                   spool': map<Name, Envelope>, d': Drain, stretch: Option<Stretch>, clock: nat, now: nat)
    requires start <= clock <= now && Underway(t, spool, d, start) && d.todo != [] && d.todo[0] in spool
    requires d'.listing == d.listing && d'.config == d.config && d'.todo == d.todo[1..]
    requires OthersKept(spool, spool', d.todo[0])
    requires Visited(spool[d.todo[0]], spool', d, d', t.luck, stretch, clock, now)
    ensures Underway(t.(sent := Noted(t.sent, d.todo[0], stretch)), spool', d', now)
  {
    var t' := t.(sent := Noted(t.sent, d.todo[0], stretch));
    RouteNext(t, spool, d, spool', d');
    RouteAdvances(t, spool, d, d');
    SameRoute(t, t', spool', d');
    hide Advances, Delivered, Judgements, Culprits, Marks, OthersKept, Visited, Route;
    StretchDelivered(t, d, spool', d', stretch, start, clock, now);
    JudgedNext(t, d, spool', d', stretch, start, clock, now);
    BlamedNext(t, d, spool', d', stretch, clock, now);
    StillMarked(t, spool, d, spool', d', stretch, clock, now);
    SameMarks(t, t', spool', d'.blocked);
  }

  lemma SameRoute(t: Tour, t': Tour, spool: map<Name, Envelope>, d: Drain)
    requires Route(t, spool, d) && t'.files == t.files && t'.config == t.config
    ensures Route(t', spool, d)
  {
  }

  lemma SameMarks(t: Tour, t': Tour, spool: map<Name, Envelope>, blocked: map<string, Blame>)
    requires Marks(t, spool, blocked) && t'.luck == t.luck && t'.config == t.config
    ensures Marks(t', spool, blocked)
  {
  }

  lemma NothingSaved(files: map<Name, Envelope>, config: string, luck: nat -> Luck, sessions: map<string, State>, done: map<Name, Envelope>)
    ensures Saved(Tour(files, config, luck, map[]), sessions, sessions, done, files)
  {
  }

  /** What visiting the head does to the state file and the journal file of another hook's session. */
  lemma OthersRest(stretch: Option<Stretch>, luck: nat -> Luck, name: Name, session: string,
                   sessions: map<string, State>, done: map<Name, Envelope>,
                   sessions': map<string, State>, done': map<Name, Envelope>, spool': map<Name, Envelope>)
    requires Rests(stretch, luck, name, session, sessions, done, sessions', done', spool')
    ensures stretch.None? ==> sessions' == sessions && done' == done
    ensures forall s :: s != session ==> AtSession(sessions', s) == AtSession(sessions, s)
    ensures forall n :: n != name ==> (n in done' <==> n in done) && (n in done ==> done'[n] == done[n])
  {
    hide RefusedIn;
  }

  /** And to its own. */
  lemma HeadRests(stretch: Option<Stretch>, luck: nat -> Luck, name: Name, session: string,
                  sessions: map<string, State>, done: map<Name, Envelope>,
                  sessions': map<string, State>, done': map<Name, Envelope>, spool': map<Name, Envelope>)
    requires Rests(stretch, luck, name, session, sessions, done, sessions', done', spool') && stretch.Some? && name !in done
    ensures SavedFor(session, name, sessions', done', spool')
  {
    hide RefusedIn;
  }

  lemma StillLatest(t: Tour, name: Name, stretch: Option<Stretch>, n: Name)
    requires name in t.files && name !in t.sent && (forall m :: m in t.sent ==> m < name)
    requires Latest(t.(sent := Noted(t.sent, name, stretch)), n) && n != name
    ensures Latest(t, n) && (stretch.Some? ==> SessionIn(t, n) != SessionIn(t, name))
  {
    var t' := t.(sent := Noted(t.sent, name, stretch));
    assert forall m :: m in t.sent ==> m in t'.sent;
  }

  lemma SavedOne(t: Tour, d: Drain, start: nat, first: map<string, State>,
                 spool: map<Name, Envelope>, sessions: map<string, State>, done: map<Name, Envelope>, stretch: Option<Stretch>,
                 spool': map<Name, Envelope>, sessions': map<string, State>, done': map<Name, Envelope>)
    requires Underway(t, spool, d, start) && Saved(t, first, sessions, done, spool) && d.todo != []
    requires d.todo[0] in spool && d.todo[0] !in done && OthersKept(spool, spool', d.todo[0])
    requires Rests(stretch, t.luck, d.todo[0], spool[d.todo[0]].hook.session, sessions, done, sessions', done', spool')
    ensures Saved(t.(sent := Noted(t.sent, d.todo[0], stretch)), first, sessions', done', spool')
  {
    RouteAdvances(t, spool, d, Rest(d));
    hide Fortunate, RefusedIn, Judgements, Culprits, Marks, Route, Rests, OthersKept, Latest, AtSession;
    var name, t' := d.todo[0], t.(sent := Noted(t.sent, d.todo[0], stretch));
    var s := SessionIn(t, name);
    OthersRest(stretch, t.luck, name, s, sessions, done, sessions', done', spool');
    forall n | Latest(t', n) ensures n in t'.files && SavedFor(SessionIn(t', n), n, sessions', done', spool') {
      if n == name && stretch.Some? {
        HeadRests(stretch, t.luck, name, s, sessions, done, sessions', done', spool');
      } else {
        NoLatest(t', n);
        StillLatest(t, name, stretch, n);
        assert SavedFor(SessionIn(t, n), n, sessions, done, spool);
        SavedStays(SessionIn(t, n), n, sessions, done, spool, sessions', done', spool', name);
      }
    }
    forall s' | forall n :: n in t'.sent && n in t'.files ==> SessionIn(t', n) != s'
      ensures AtSession(sessions', s') == AtSession(first, s')
    {
      assert forall n :: n in t.sent ==> n in t'.sent;
    }
  }

  lemma NoLatest(t: Tour, n: Name)
    requires Latest(t, n)
    ensures n in t.sent && n in t.files
  {
  }

  lemma SavedStays(s: string, n: Name, sessions: map<string, State>, done: map<Name, Envelope>, spool: map<Name, Envelope>,
                   sessions': map<string, State>, done': map<Name, Envelope>, spool': map<Name, Envelope>, name: Name)
    requires SavedFor(s, n, sessions, done, spool) && n != name && OthersKept(spool, spool', name)
    requires AtSession(sessions', s) == AtSession(sessions, s)
    requires (n in done' <==> n in done) && (n in done ==> done'[n] == done[n])
    ensures SavedFor(s, n, sessions', done', spool')
  {
  }

  lemma FilesAreHooks(w: World)
    requires Reachable(w)
    ensures forall n :: n in w.spool ==> n in w.hooks && w.hooks[n] == w.spool[n].hook
  {
    hide Core, Arrivals, Unrepeated, Accounted, SessionOk, Reachable;
    ReachableGood(w);
    HistoryFacts(w);
  }

  /** The culprit is the first stuck hook of its session. */
  lemma FirstStuck(t: Tour, d: Drain, n: Name)
    requires Judgements(t, d) && Culprits(t, d) && d.todo == [] && n in t.files
    ensures var s := SessionIn(t, n);
            && (Unobstructed(t, n, true) <==> s !in d.blocked || n < Culprit(d.blocked[s]))
            && (n in t.sent <==> !Marked(t.files[n], t.config) && Unobstructed(t, n, false))
  {
    hide Fortunate, RefusedIn, Stuck, Marked;
    var s := SessionIn(t, n);
    forall m | m in t.files && SessionIn(t, m) == s ensures Judged(t, d.blocked, m) {
    }
    if s in d.blocked {
      assert Blamed(t, s, d.blocked[s]);
    }
  }

  /** A finished drain's account, read off the machine's. */
  lemma AllDrained(w: World, t: Tour, clock: nat)
    requires Reachable(w) && w.worker.Scan? && w.worker.d.todo == [] && Underway(t, w.spool, w.worker.d, clock)
    requires forall n :: n in t.files ==> n in w.hooks && w.hooks[n] == t.files[n].hook
    ensures Drained(Halt(w), t, w.worker.d.blocked)
  {
    hide Reachable, Culprit, Stuck, RefusedIn, Fortunate, Judgements, Unobstructed, Blamed, Apart;
    forall n | n in t.files
      ensures (n in w.done <==> Unobstructed(t, n, true)) && (n in w.spool <==> !Unobstructed(t, n, true))
      ensures n in t.sent <==> !Marked(t.files[n], t.config) && Unobstructed(t, n, false)
    {
      DrainIsolation(w, n);
      FirstStuck(t, w.worker.d, n);
    }
  }
}

/** The collector's write-ahead journal as a step machine. Hook files and session
    state files are on disk; one worker at a time drains them; hooks arrive
    concurrently; a crash may fall between any two steps. */
module Journal {
  import opened Wrappers
  import opened Telemetry
  import opened Session

  /** A journal file's place in name order. */
  type Name = int

  /** A preparation frozen into the file. `base` and `draw` are history: the
      state it was prepared against and what it drew. */
  datatype Prep = Prep(state: State, ops: seq<Op>, base: State, draw: Draw)

  datatype Envelope = Envelope(hook: Hook, prep: Option<Prep>, next: nat, permanent: bool, config: string)

  /** One request the server applied: operation `index` of hook file `name`. */
  datatype Request = Request(session: string, name: Name, index: nat, op: Op)

  /** One request to start an execution. */
  datatype Start = Start(session: string, name: Name, key: string)

  /** Why a session is blocked for the rest of a drain. */
  datatype Blame = Refused(name: Name) | Rejected(name: Name)

  datatype Drain = Drain(listing: seq<Name>, todo: seq<Name>, blocked: map<string, Blame>, config: string)

  datatype Phase = Preparing | Persisting | Saving | Delivering | Recording | Clearing

  datatype Worker = Idle | Scan(d: Drain) | Hold(d: Drain, name: Name, env: Envelope, phase: Phase)

  datatype World = World(
    spool: map<Name, Envelope>,
    sessions: map<string, State>,
    log: seq<Request>,
    starts: seq<Start>,
    worker: Worker,
    // History: every hook that arrived, in order of arrival; the files the worker
    // ever took up; the removed ones, and their order; the draws used.
    hooks: map<Name, Hook>,
    arrived: seq<Name>,
    begun: set<Name>,
    done: map<Name, Envelope>,
    trail: map<string, seq<Name>>,
    seeds: set<nat>)

  const START := World(map[], map[], [], [], Idle, map[], [], {}, map[], map[], {})

  datatype Step =
    | Enqueue(name: Name, hook: Hook)
    | Begin(listing: seq<Name>, config: string)
    | Skip
    | Refuse
    | Load
    | Prepare(draw: Draw)
    | FailPrepare(asked: bool)
    | Persist
    | FailPersist(written: bool)
    | Save
    | FailSave
    | Acknowledge
    | LoseReply(applied: bool, written: bool)
    | Reject(written: bool)
    | Record
    | FailRecord(written: bool)
    | Remove
    | FailRemove
    | Clear(removed: bool)
    | Finish
    | Crash

  // ---- Reading the world ----

  function Env(w: World, n: Name): Envelope
    requires n in w.spool || n in w.done
  {
    if n in w.spool then w.spool[n] else w.done[n]
  }

  function Disk(w: World, s: string): State {
    if s in w.sessions then w.sessions[s] else EMPTY
  }

  function Trail(w: World, s: string): seq<Name> {
    if s in w.trail then w.trail[s] else []
  }

  predicate Ascending(names: seq<Name>) {
    forall i, j :: 0 <= i < j < |names| ==> names[i] < names[j]
  }

  predicate Complete(env: Envelope) {
    env.prep.Some? && env.next >= |env.prep.value.ops|
  }

  function NextRequest(name: Name, env: Envelope): Request
    requires env.prep.Some? && env.next < |env.prep.value.ops|
  {
    Request(env.hook.session, name, env.next, env.prep.value.ops[env.next])
  }

  // ---- Steps ----

  predicate InPhase(w: World, p: Phase) {
    w.worker.Hold? && w.worker.phase == p
  }

  predicate Sending(w: World) {
    InPhase(w, Delivering) && w.worker.env.prep.Some? && w.worker.env.next < |w.worker.env.prep.value.ops|
  }

  predicate Finishing(w: World) {
    InPhase(w, Delivering) && Complete(w.worker.env)
  }

  /** The next listed file, whose session is or is not blocked. */
  predicate HeadIs(w: World, blocked: bool) {
    && w.worker.Scan? && w.worker.d.todo != [] && w.worker.d.todo[0] in w.spool
    && (w.spool[w.worker.d.todo[0]].hook.session in w.worker.d.blocked) == blocked
  }

  predicate RefusedNow(w: World)
    requires HeadIs(w, false)
  {
    var env := w.spool[w.worker.d.todo[0]];
    env.permanent && env.config == w.worker.d.config
  }

  predicate CanRefuse(w: World) {
    HeadIs(w, false) && RefusedNow(w)
  }

  predicate CanLoad(w: World) {
    HeadIs(w, false) && !RefusedNow(w)
  }

  ghost predicate CanEnqueue(w: World, name: Name, hook: Hook) {
    && name !in w.hooks && hook.session != ""
    && (forall n :: n in w.hooks ==> w.hooks[n].id != hook.id)
  }

  ghost predicate CanBegin(w: World, listing: seq<Name>) {
    w.worker.Idle? && Ascending(listing) && forall n :: n in listing <==> n in w.spool
  }

  predicate CanPrepare(w: World, draw: Draw) {
    InPhase(w, Preparing) && draw.seed !in w.seeds
  }

  predicate CanAsk(w: World) {
    InPhase(w, Preparing) && Starts(Disk(w, w.worker.env.hook.session), w.worker.env.hook)
  }

  predicate CanSave(w: World) {
    InPhase(w, Saving) && w.worker.env.prep.Some?
  }

  predicate CanClear(w: World, removed: bool) {
    InPhase(w, Clearing) && w.worker.env.prep.Some? && (removed ==> w.worker.env.prep.value.state.closed)
  }

  function Write(w: World, name: Name, env: Envelope): World {
    w.(spool := w.spool[name := env])
  }

  function Halt(w: World): World {
    w.(worker := Idle)
  }

  function Rest(d: Drain): Drain
    requires d.todo != []
  {
    d.(todo := d.todo[1..])
  }

  function DoEnqueue(w: World, name: Name, hook: Hook): World {
    Write(w, name, Envelope(hook, None, 0, false, "")).(arrived := w.arrived + [name], hooks := w.hooks[name := hook])
  }

  function DoBegin(w: World, listing: seq<Name>, config: string): World {
    w.(worker := Scan(Drain(listing, listing, map[], config)))
  }

  function DoSkip(w: World): World
    requires HeadIs(w, true)
  {
    w.(worker := Scan(Rest(w.worker.d)))
  }

  function DoRefuse(w: World): World
    requires CanRefuse(w)
  {
    var d := w.worker.d;
    w.(worker := Scan(Rest(d).(blocked := d.blocked[w.spool[d.todo[0]].hook.session := Refused(d.todo[0])])))
  }

  function DoLoad(w: World): World
    requires CanLoad(w)
  {
    var d := w.worker.d;
    var env := w.spool[d.todo[0]];
    w.(worker := Hold(Rest(d), d.todo[0], env, if env.prep.Some? then Saving else Preparing),
       begun := w.begun + {d.todo[0]})
  }

  /** The worker asks the server to start an execution, under the key it derives. */
  function DoAsk(w: World): World
    requires w.worker.Hold?
  {
    var hook := w.worker.env.hook;
    w.(starts := w.starts + [Start(hook.session, w.worker.name, StartKey(Disk(w, hook.session), hook.id))])
  }

  ghost function PrepareAgainst(base: State, hook: Hook, draw: Draw): (p: Prep)
    ensures p.base == base && p.draw == draw
  {
    var r := Handle(base, hook, draw);
    Prep(r.state, r.ops, base, draw)
  }

  ghost function DoPrepare(w: World, draw: Draw): World
    requires CanPrepare(w, draw)
  {
    var k := w.worker;
    (if CanAsk(w) then DoAsk(w) else w)
    .(seeds := w.seeds + {draw.seed},
      worker := k.(phase := Persisting,
                   env := k.env.(prep := Some(PrepareAgainst(Disk(w, k.env.hook.session), k.env.hook, draw)))))
  }

  function DoPersist(w: World): World
    requires InPhase(w, Persisting)
  {
    Write(w, w.worker.name, w.worker.env).(worker := w.worker.(phase := Saving))
  }

  function DoSave(w: World): World
    requires CanSave(w)
  {
    var k := w.worker;
    w.(sessions := w.sessions[k.env.hook.session := k.env.prep.value.state], worker := k.(phase := Delivering))
  }

  /** The server applies the operation at the cursor. */
  function DoSend(w: World): World
    requires Sending(w)
  {
    w.(log := w.log + [NextRequest(w.worker.name, w.worker.env)])
  }

  function DoAcknowledge(w: World): World
    requires Sending(w)
  {
    var k := w.worker;
    DoSend(w).(worker := k.(phase := Recording, env := k.env.(next := k.env.next + 1, permanent := false)))
  }

  /** The file is rewritten with the outcome of a failed delivery. */
  function DoMark(w: World, permanent: bool): World
    requires w.worker.Hold?
  {
    Write(w, w.worker.name, w.worker.env.(permanent := permanent, config := w.worker.d.config))
  }

  function DoBlock(w: World): World
    requires w.worker.Hold?
  {
    var k := w.worker;
    w.(worker := Scan(k.d.(blocked := k.d.blocked[k.env.hook.session := Rejected(k.name)])))
  }

  function DoRecord(w: World): World
    requires InPhase(w, Recording)
  {
    Write(w, w.worker.name, w.worker.env).(worker := w.worker.(phase := Delivering))
  }

  function DoRemove(w: World): World
    requires Finishing(w)
  {
    var k := w.worker;
    var s := k.env.hook.session;
    w.(spool := w.spool - {k.name}, done := w.done[k.name := k.env],
       trail := w.trail[s := Trail(w, s) + [k.name]], worker := k.(phase := Clearing))
  }

  function DoClear(w: World, removed: bool): World
    requires CanClear(w, removed)
  {
    w.(sessions := if removed then w.sessions - {w.worker.env.hook.session} else w.sessions,
       worker := Scan(w.worker.d))
  }

  ghost predicate Enabled(w: World, a: Step) {
    match a
    case Enqueue(name, hook) => CanEnqueue(w, name, hook)
    case Begin(listing, config) => CanBegin(w, listing)
    case Skip => HeadIs(w, true)
    case Refuse => CanRefuse(w)
    case Load => CanLoad(w)
    case Prepare(draw) => CanPrepare(w, draw)
    case FailPrepare(asked) => InPhase(w, Preparing) && (asked ==> CanAsk(w))
    case Persist | FailPersist(_) => InPhase(w, Persisting)
    case Save | FailSave => CanSave(w)
    case Acknowledge | LoseReply(_, _) | Reject(_) => Sending(w)
    case Record | FailRecord(_) => InPhase(w, Recording)
    case Remove | FailRemove => Finishing(w)
    case Clear(removed) => CanClear(w, removed)
    case Finish => w.worker.Scan? && w.worker.d.todo == []
    case Crash => true
  }

  ghost function Apply(w: World, a: Step): World
    requires Enabled(w, a)
  {
    match a
    case Enqueue(name, hook) => DoEnqueue(w, name, hook)
    case Begin(listing, config) => DoBegin(w, listing, config)
    case Skip => DoSkip(w)
    case Refuse => DoRefuse(w)
    case Load => DoLoad(w)
    case Prepare(draw) => DoPrepare(w, draw)
    case FailPrepare(asked) => Halt(if asked then DoAsk(w) else w)
    case Persist => DoPersist(w)
    case FailPersist(written) => Halt(if written then DoPersist(w) else w)
    case Save => DoSave(w)
    case FailSave => Halt(w)
    case Acknowledge => DoAcknowledge(w)
    case LoseReply(applied, written) =>
      var w' := if applied then DoSend(w) else w;
      Halt(if written then DoMark(w', false) else w')
    case Reject(written) => DoBlock(if written then DoMark(w, true) else w)
    case Record => DoRecord(w)
    case FailRecord(written) => Halt(if written then DoRecord(w) else w)
    case Remove => DoRemove(w)
    case FailRemove => Halt(w)
    case Clear(removed) => DoClear(w, removed)
    case Finish => Halt(w)
    case Crash => Halt(w)
  }

  ghost predicate Runs(w: World, actions: seq<Step>, w': World)
    decreases actions
  {
    if actions == [] then w == w'
    else Enabled(w, actions[0]) && Runs(Apply(w, actions[0]), actions[1..], w')
  }

  ghost predicate Reachable(w: World) {
    exists actions :: Runs(START, actions, w)
  }

  lemma {:induction false} RunsConcat(w0: World, a: seq<Step>, w1: World, b: seq<Step>, w2: World)
    requires Runs(w0, a, w1) && Runs(w1, b, w2)
    ensures Runs(w0, a + b, w2)
    decreases a
  {
    if a == [] {
      assert a + b == b;
    } else {
      assert (a + b)[0] == a[0] && (a + b)[1..] == a[1..] + b;
      RunsConcat(Apply(w0, a[0]), a[1..], w1, b, w2);
    }
  }
}

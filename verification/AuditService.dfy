/** The audit service over one tenant's stored chain: ingest, verification and
    re-anchoring as they run. */
module AuditService {
  import opened Wrappers
  import opened CanonicalNumber
  import opened CanonicalJson
  import opened AuditHash
  import opened AuditChain
  import opened Decimal

  datatype Error = InvalidInput | NotFound

  datatype Result<T> = Success(value: T) | Failure(error: Error)

  datatype BrokenEvent = BrokenEvent(id: string, number: int, time: int, action: string, actor: string, reason: string)

  datatype VerifyResult = VerifyResult(
    valid: bool, checked: nat, root: string, from: int, to: int, first: string, reason: string, broken: seq<BrokenEvent>)

  datatype BatchResult = BatchResult(accepted: nat, rejected: nat, ids: seq<string>, errors: seq<nat>)

  const MAX_BATCH := 1000
  /** Nanoseconds since 1970: the range of supported times, and the time of an event without one. */
  const HISTORY_START := 0
  const FAR_FUTURE := 253402300799_999999999
  const NO_TIME := -62135596800_000000000

  // ---- Windows and failures ----

  predicate Inside(e: Event, from: int, to: int) {
    from <= e.time <= to
  }

  /** The events among the first `n` that fall in the window and fail, in chain order. */
  function Failing(rows: Rows, from: int, to: int, sha: Canonical -> string, n: nat): (f: seq<nat>)
    requires n <= |rows|
    ensures forall j :: 0 <= j < |f| ==> f[j] < n
  {
    if n == 0 then []
    else Failing(rows, from, to, sha, n - 1) +
         if Inside(rows[n - 1], from, to) && !Ok(rows, n - 1, sha) then [n - 1] else []
  }

  function InWindow(rows: Rows, from: int, to: int, n: nat): nat
    requires n <= |rows|
  {
    if n == 0 then 0 else InWindow(rows, from, to, n - 1) + if Inside(rows[n - 1], from, to) then 1 else 0
  }

  /** The hash of the last event in the window that verifies, among the first `n`. */
  function LastGood(rows: Rows, from: int, to: int, sha: Canonical -> string, n: nat): string
    requires n <= |rows|
  {
    if n == 0 then ""
    else if Inside(rows[n - 1], from, to) && Ok(rows, n - 1, sha) then rows[n - 1].hash
    else LastGood(rows, from, to, sha, n - 1)
  }

  /** Strictly ascending indices below `n`. */
  predicate Ascending(f: seq<nat>, n: nat) {
    (forall j :: 0 <= j < |f| ==> f[j] < n) && forall j, k :: 0 <= j < k < |f| ==> f[j] < f[k]
  }

  lemma AscendingMore(f: seq<nat>, n: nat)
    requires Ascending(f, n)
    ensures Ascending(f, n + 1) && Ascending(f + [n], n + 1)
  {
  }

  lemma {:induction false} FailingAscends(rows: Rows, from: int, to: int, sha: Canonical -> string, n: nat)
    requires n <= |rows|
    ensures Ascending(Failing(rows, from, to, sha, n), n)
  {
    hide Ok, Inside;
    if n > 0 {
      FailingAscends(rows, from, to, sha, n - 1);
      AscendingMore(Failing(rows, from, to, sha, n - 1), n - 1);
    }
  }

  lemma {:induction false} FailingExactly(rows: Rows, from: int, to: int, sha: Canonical -> string, n: nat)
    requires n <= |rows|
    ensures var f := Failing(rows, from, to, sha, n);
            forall i: nat :: i in f <==> i < n && Inside(rows[i], from, to) && !Ok(rows, i, sha)
  {
    hide Ok, Inside;
    if n > 0 {
      FailingExactly(rows, from, to, sha, n - 1);
      var front, bad := Failing(rows, from, to, sha, n - 1), Inside(rows[n - 1], from, to) && !Ok(rows, n - 1, sha);
      InOrLast(front, bad, n - 1);
    }
  }

  lemma InOrLast(front: seq<nat>, bad: bool, last: nat)
    ensures forall i: nat :: i in front + (if bad then [last] else []) <==> i in front || (bad && i == last)
  {
  }

  function Reason(rows: Rows, i: nat): string
    requires i < |rows|
  {
    if !LinkOk(rows, i) then "prev_hash mismatch" else "hash mismatch"
  }

  function DeepReason(rows: Rows, i: nat, sha: Canonical -> string): string
    requires i < |rows|
  {
    if !HashOk(rows, i, sha) then "hash mismatch" else "prev_hash mismatch"
  }

  function Reported(rows: Rows, i: nat, sha: Canonical -> string): BrokenEvent
    requires i < |rows|
  {
    var e := rows[i];
    BrokenEvent(e.id, e.number, e.time, e.action, e.actor.id, DeepReason(rows, i, sha))
  }

  /** The two scans name one reason, unless both of an event's hashes are wrong. */
  lemma ReasonsAgree(rows: Rows, i: nat, sha: Canonical -> string)
    requires i < |rows| && !Ok(rows, i, sha)
    ensures Reason(rows, i) == DeepReason(rows, i, sha) <==> LinkOk(rows, i) || HashOk(rows, i, sha)
  {
  }

  // ---- Ingest ----

  predicate HasId(rows: Rows, id: string) {
    exists i :: 0 <= i < |rows| && rows[i].id == id
  }

  predicate Acceptable(e: Event) {
    && (e.time == NO_TIME || e.time >= HISTORY_START) && e.time <= FAR_FUTURE
    && e.actor.id != "" && e.actor.kind in ["human", "agent", "system"]
    && e.action != "" && e.resource.id != "" && e.resource.kind != ""
    && e.outcome in ["success", "failure", "error"]
  }

  function Micros(t: int): int {
    t - t % 1000
  }

  function Defaulted(e: Event, id: string, now: int, redact: Json -> Json): Event {
    e.(id := if e.id == "" then id else e.id,
       time := Micros(if e.time == NO_TIME then now else e.time),
       metadata := redact(e.metadata))
  }

  /** The acceptable events of a batch, completed, in order. */
  function Admitted(batch: seq<Event>, ids: nat -> string, now: int, redact: Json -> Json): seq<Event> {
    if batch == [] then []
    else
      var n := |batch| - 1;
      Admitted(batch[..n], ids, now, redact) + if Acceptable(batch[n]) then [Defaulted(batch[n], ids(n), now, redact)] else []
  }

  /** The row an event becomes: linked, hashed, and its metadata stored as `jsonb` spells it. */
  function Row(e: Event, tenant: string, number: int, prev: string, sha: Canonical -> string, jsonb: Json -> Json): Event {
    var linked := e.(tenant := tenant, time := Micros(e.time), number := number, prevHash := prev);
    linked.(hash := ComputeHash(linked, sha), metadata := jsonb(linked.metadata))
  }

  /** The chain after a batch: events whose id is already stored are skipped. */
  function Extended(rows: Rows, batch: seq<Event>, tenant: string, next: int, sha: Canonical -> string, jsonb: Json -> Json): Rows
    decreases |batch|
  {
    if batch == [] then rows
    else if HasId(rows, batch[0].id) then Extended(rows, batch[1..], tenant, next, sha, jsonb)
    else Extended(rows + [Row(batch[0], tenant, next, Previous(rows, |rows|), sha, jsonb)],
                  batch[1..], tenant, next + 1, sha, jsonb)
  }

  /** Storage keeps a value, and spells it so that it can be read back. */
  ghost predicate Faithful(jsonb: Json -> Json) {
    forall v :: Readable(v) && Representable(v) ==>
                  Readable(jsonb(v)) && Representable(jsonb(v)) && Same(v, jsonb(v))
  }

  predicate Keyed(rows: Rows) {
    forall i, j :: 0 <= i < j < |rows| ==> rows[i].id != rows[j].id && rows[i].number < rows[j].number
  }

  /** A stored chain: distinct ids, ascending numbers, times in range, metadata readable. */
  ghost predicate Stored(rows: Rows, next: int) {
    && Keyed(rows)
    && (forall i :: 0 <= i < |rows| ==> rows[i].number < next && rows[i].id != "" && Inside(rows[i], HISTORY_START, FAR_FUTURE))
    && Legible(rows)
  }

  ghost predicate Submittable(e: Event) {
    e.id != "" && Readable(e.metadata) && Inside(e, HISTORY_START, FAR_FUTURE)
  }

  /** Linking and storing an event that canonicalises yields a row that verifies. */
  lemma RowIsOk(rows: Rows, e: Event, tenant: string, number: int, sha: Canonical -> string, jsonb: Json -> Json)
    requires Faithful(jsonb) && Canonicalises(e)
    ensures var row := Row(e, tenant, number, Previous(rows, |rows|), sha, jsonb);
            && Canonicalises(row) && row.hash == ComputeHash(row, sha) && row.hash != ""
            && Ok(rows + [row], |rows|, sha)
            && forall i :: 0 <= i < |rows| ==> (Ok(rows + [row], i, sha) <==> Ok(rows, i, sha))
  {
    hide ComputeHash, Readable, Representable, Same;
    var linked := e.(tenant := tenant, time := Micros(e.time), number := number, prevHash := Previous(rows, |rows|));
    var hashed := linked.(hash := ComputeHash(linked, sha));
    HashText(linked, sha);
    HashIgnoresDigest(linked, hashed.hash, sha);
    SpellingKeepsHash(hashed, jsonb(e.metadata), sha);
    AppendKeepsOk(rows, Row(e, tenant, number, Previous(rows, |rows|), sha, jsonb), sha);
  }

  lemma HashIgnoresDigest(e: Event, hash: string, sha: Canonical -> string)
    ensures ComputeHash(e.(hash := hash), sha) == ComputeHash(e, sha)
  {
  }

  lemma RowIsStored(rows: Rows, e: Event, tenant: string, next: int, sha: Canonical -> string, jsonb: Json -> Json)
    requires Stored(rows, next) && !HasId(rows, e.id) && Submittable(e) && Readable(jsonb(e.metadata))
    ensures Stored(rows + [Row(e, tenant, next, Previous(rows, |rows|), sha, jsonb)], next + 1)
  {
    hide ComputeHash, Readable;
  }

  /** A batch's events that are not stored yet all canonicalise. */
  ghost predicate Storable(rows: Rows, batch: seq<Event>) {
    forall k :: 0 <= k < |batch| && !HasId(rows, batch[k].id) && (forall j :: 0 <= j < k ==> batch[j].id != batch[k].id)
                ==> Canonicalises(batch[k])
  }

  lemma StorableRest(rows: Rows, batch: seq<Event>, row: Event)
    requires batch != [] && row.id == batch[0].id
    ensures HasId(rows, batch[0].id) ==> (Storable(rows, batch) <==> Storable(rows, batch[1..]))
    ensures !HasId(rows, batch[0].id) ==>
              (Storable(rows, batch) <==> Canonicalises(batch[0]) && Storable(rows + [row], batch[1..]))
  {
    hide Canonicalises;
    var rest, grown := batch[1..], rows + [row];
    HasIdMore(rows, row);
    forall k | 0 <= k < |rest|
      ensures rest[k].id != batch[0].id && (forall j :: 0 <= j < k ==> rest[j].id != rest[k].id)
              <==> forall j :: 0 <= j < k + 1 ==> batch[j].id != batch[k + 1].id
    {
      assert forall j :: 0 <= j < k ==> rest[j] == batch[j + 1];
      if rest[k].id != batch[0].id && (forall j :: 0 <= j < k ==> rest[j].id != rest[k].id) {
        forall j | 0 <= j < k + 1 ensures batch[j].id != batch[k + 1].id {
          assert j > 0 ==> batch[j] == rest[j - 1];
        }
      }
    }
    if HasId(rows, batch[0].id) {
      assert Storable(rows, batch) ==> Storable(rows, rest) by {
        forall k | Storable(rows, batch) && 0 <= k < |rest| && !HasId(rows, rest[k].id)
                   && (forall j :: 0 <= j < k ==> rest[j].id != rest[k].id)
          ensures Canonicalises(rest[k])
        {
          assert batch[k + 1] == rest[k];
        }
      }
      assert Storable(rows, rest) ==> Storable(rows, batch) by {
        forall k | Storable(rows, rest) && 0 <= k < |batch| && !HasId(rows, batch[k].id)
                   && (forall j :: 0 <= j < k ==> batch[j].id != batch[k].id)
          ensures Canonicalises(batch[k])
        {
          assert k > 0 && rest[k - 1] == batch[k];
          assert forall j :: 0 <= j < k - 1 ==> rest[j] == batch[j + 1];
        }
      }
    } else {
      assert Storable(rows, batch) ==> Canonicalises(batch[0]) && Storable(grown, rest) by {
        forall k | Storable(rows, batch) && 0 <= k < |rest| && !HasId(grown, rest[k].id)
                   && (forall j :: 0 <= j < k ==> rest[j].id != rest[k].id)
          ensures Canonicalises(rest[k])
        {
          assert batch[k + 1] == rest[k];
        }
      }
      assert Canonicalises(batch[0]) && Storable(grown, rest) ==> Storable(rows, batch) by {
        forall k | Canonicalises(batch[0]) && Storable(grown, rest) && 0 <= k < |batch| && !HasId(rows, batch[k].id)
                   && (forall j :: 0 <= j < k ==> batch[j].id != batch[k].id)
          ensures Canonicalises(batch[k])
        {
          if k > 0 {
            assert rest[k - 1] == batch[k];
            assert forall j :: 0 <= j < k - 1 ==> rest[j] == batch[j + 1];
          }
        }
      }
    }
  }

  lemma HasIdMore(rows: Rows, row: Event)
    ensures forall id :: HasId(rows + [row], id) <==> HasId(rows, id) || id == row.id
  {
    var grown := rows + [row];
    assert grown[|rows|] == row;
    forall id | HasId(rows, id) ensures HasId(grown, id) {
      var i :| 0 <= i < |rows| && rows[i].id == id;
      assert grown[i] == rows[i];
    }
  }

  /** A batch extends the chain by rows that verify, and leaves the rest as it was. */
  lemma {:induction false} ExtendedVerifies(rows: Rows, batch: seq<Event>, tenant: string, next: int,
                                            sha: Canonical -> string, jsonb: Json -> Json)
    requires Faithful(jsonb) && Storable(rows, batch)
    ensures var out := Extended(rows, batch, tenant, next, sha, jsonb);
            && |rows| <= |out| && out[..|rows|] == rows
            && (forall i :: |rows| <= i < |out| ==> Ok(out, i, sha) && Canonicalises(out[i]))
            && (forall i :: 0 <= i < |rows| ==> (Ok(out, i, sha) <==> Ok(rows, i, sha)))
    decreases |batch|
  {
    hide Canonicalises, Ok, Storable, HasId, Faithful, Row, Extended;
    if batch == [] {
      NothingLeft(rows, tenant, next, sha, jsonb);
    } else {
      ExtendedNext(rows, batch, tenant, next, sha, jsonb);
      var row := Row(batch[0], tenant, next, Previous(rows, |rows|), sha, jsonb);
      RowId(batch[0], tenant, next, Previous(rows, |rows|), sha, jsonb);
      StorableRest(rows, batch, row);
      if HasId(rows, batch[0].id) {
        ExtendedVerifies(rows, batch[1..], tenant, next, sha, jsonb);
      } else {
        RowIsOk(rows, batch[0], tenant, next, sha, jsonb);
        ExtendedVerifies(rows + [row], batch[1..], tenant, next + 1, sha, jsonb);
        var out := Extended(rows + [row], batch[1..], tenant, next + 1, sha, jsonb);
        assert out[..|rows|] == out[..|rows| + 1][..|rows|] == rows;
        assert out[|rows|] == out[..|rows| + 1][|rows|] == row;
      }
    }
  }

  // ---- What is stored, in terms of what was submitted ----

  /** A stored row says what the event said: time to the microsecond, metadata as a value. */
  ghost predicate Records(row: Event, e: Event, tenant: string) {
    && row.id == e.id && row.tenant == tenant && row.actor == e.actor && row.action == e.action
    && row.resource == e.resource && row.outcome == e.outcome && Same(e.metadata, row.metadata)
    && row.time % 1000 == 0 && row.time <= e.time < row.time + 1000
  }

  /** An event of a batch to be stored: no stored event, and none before it in the batch, has its id. */
  predicate IsNew(rows: Rows, batch: seq<Event>, k: nat)
    requires k < |batch|
  {
    !HasId(rows, batch[k].id) && forall j :: 0 <= j < k ==> batch[j].id != batch[k].id
  }

  predicate Increasing(at: seq<nat>) {
    forall i, j :: 0 <= i < j < |at| ==> at[i] < at[j]
  }

  /** `at` lists the new events of a batch, in order. */
  ghost predicate Lists(before: Rows, batch: seq<Event>, at: seq<nat>) {
    Increasing(at) && forall k: nat :: k in at <==> k < |batch| && IsNew(before, batch, k)
  }

  /** The rows after a batch: those before it, then one row for each new event `at`, in the batch's
      order, numbered on from `next`, saying what the event said, and verifying. */
  ghost predicate Appends(before: Rows, batch: seq<Event>, tenant: string, next: int, sha: Canonical -> string,
                          after: Rows, at: seq<nat>) {
    && |after| == |before| + |at| && after[..|before|] == before && Lists(before, batch, at)
    && forall j :: 0 <= j < |at| ==> at[j] < |batch| && AppendsOne(batch[at[j]], tenant, next + j, sha, after, |before| + j)
  }

  ghost predicate AppendsOne(e: Event, tenant: string, number: int, sha: Canonical -> string, after: Rows, i: nat)
    requires i < |after|
  {
    Records(after[i], e, tenant) && after[i].number == number && Ok(after, i, sha)
  }

  function Shifted(at: seq<nat>): (s: seq<nat>)
    ensures |s| == |at| && forall i :: 0 <= i < |at| ==> s[i] == at[i] + 1
  {
    seq(|at|, i requires 0 <= i < |at| => at[i] + 1)
  }

  lemma InShifted(at: seq<nat>)
    ensures forall k: nat :: k in Shifted(at) <==> k > 0 && k - 1 in at
  {
    forall k: nat | k > 0 && k - 1 in at ensures k in Shifted(at) {
      var i :| 0 <= i < |at| && at[i] == k - 1;
      assert Shifted(at)[i] == k;
    }
  }

  lemma RowRecords(e: Event, tenant: string, number: int, prev: string, sha: Canonical -> string, jsonb: Json -> Json)
    requires Faithful(jsonb) && Canonicalises(e)
    ensures var row := Row(e, tenant, number, prev, sha, jsonb); Records(row, e, tenant) && row.number == number
  {
    hide ComputeHash, Same, Readable, Representable;
  }

  /** Which of a batch is new, seen from its second event on. */
  lemma NewOfRest(rows: Rows, batch: seq<Event>, row: Event, k: nat)
    requires 0 < k < |batch| && row.id == batch[0].id
    ensures IsNew(rows, batch, k) <==>
            if HasId(rows, batch[0].id) then IsNew(rows, batch[1..], k - 1) else IsNew(rows + [row], batch[1..], k - 1)
  {
    HasIdMore(rows, row);
    hide HasId;
    var rest := batch[1..];
    assert forall j :: 0 <= j < k - 1 ==> rest[j] == batch[j + 1];
    if forall j :: 0 <= j < k - 1 ==> rest[j].id != rest[k - 1].id {
      forall j | 0 < j < k ensures batch[j].id != batch[k].id {
        assert rest[j - 1] == batch[j];
      }
    }
    if forall j :: 0 <= j < k ==> batch[j].id != batch[k].id {
      forall j | 0 <= j < k - 1 ensures rest[j].id != rest[k - 1].id {
        assert batch[j + 1] == rest[j];
      }
    }
  }

  lemma {:induction false} ExtendedAppends(rows: Rows, batch: seq<Event>, tenant: string, next: int,
                                           sha: Canonical -> string, jsonb: Json -> Json) returns (at: seq<nat>)
    requires Faithful(jsonb) && Storable(rows, batch)
    ensures Appends(rows, batch, tenant, next, sha, Extended(rows, batch, tenant, next, sha, jsonb), at)
    decreases |batch|
  {
    hide Canonicalises, Ok, Storable, HasId, Faithful, Row, Extended, Records, IsNew;
    ExtendedVerifies(rows, batch, tenant, next, sha, jsonb);
    if batch == [] {
      NothingLeft(rows, tenant, next, sha, jsonb);
      at := [];
    } else {
      ExtendedNext(rows, batch, tenant, next, sha, jsonb);
      var row := Row(batch[0], tenant, next, Previous(rows, |rows|), sha, jsonb);
      RowId(batch[0], tenant, next, Previous(rows, |rows|), sha, jsonb);
      StorableRest(rows, batch, row);
      forall k: nat | 0 < k < |batch|
        ensures IsNew(rows, batch, k) <==>
                if HasId(rows, batch[0].id) then IsNew(rows, batch[1..], k - 1) else IsNew(rows + [row], batch[1..], k - 1)
      {
        NewOfRest(rows, batch, row, k);
      }
      if HasId(rows, batch[0].id) {
        var rest := ExtendedAppends(rows, batch[1..], tenant, next, sha, jsonb);
        at := Shifted(rest);
        AppendsLater(rows, batch, tenant, next, sha, Extended(rows, batch, tenant, next, sha, jsonb), rest);
      } else {
        RowRecords(batch[0], tenant, next, Previous(rows, |rows|), sha, jsonb);
        var rest := ExtendedAppends(rows + [row], batch[1..], tenant, next + 1, sha, jsonb);
        at := [0] + Shifted(rest);
        AppendsFirst(rows, batch, row, tenant, next, sha, Extended(rows, batch, tenant, next, sha, jsonb), rest);
      }
    }
  }

  lemma ListsLater(rows: Rows, batch: seq<Event>, rest: seq<nat>)
    requires batch != [] && HasId(rows, batch[0].id) && Lists(rows, batch[1..], rest)
    requires forall k: nat :: 0 < k < |batch| ==> (IsNew(rows, batch, k) <==> IsNew(rows, batch[1..], k - 1))
    ensures Lists(rows, batch, Shifted(rest))
  {
    InShifted(rest);
    assert !IsNew(rows, batch, 0);
    hide IsNew, HasId;
  }

  lemma ListsFirst(rows: Rows, batch: seq<Event>, grown: Rows, rest: seq<nat>)
    requires batch != [] && !HasId(rows, batch[0].id) && Lists(grown, batch[1..], rest)
    requires forall k: nat :: 0 < k < |batch| ==> (IsNew(rows, batch, k) <==> IsNew(grown, batch[1..], k - 1))
    ensures Lists(rows, batch, [0] + Shifted(rest))
  {
    InShifted(rest);
    assert IsNew(rows, batch, 0);
    hide IsNew, HasId;
    assert forall k: nat :: k in [0] + Shifted(rest) <==> k == 0 || k in Shifted(rest);
  }

  lemma AppendsLater(rows: Rows, batch: seq<Event>, tenant: string, next: int, sha: Canonical -> string, out: Rows, rest: seq<nat>)
    requires batch != [] && HasId(rows, batch[0].id) && Appends(rows, batch[1..], tenant, next, sha, out, rest)
    requires forall k: nat :: 0 < k < |batch| ==> (IsNew(rows, batch, k) <==> IsNew(rows, batch[1..], k - 1))
    ensures Appends(rows, batch, tenant, next, sha, out, Shifted(rest))
  {
    ListsLater(rows, batch, rest);
    hide Lists, AppendsOne, IsNew, HasId;
    forall j | 0 <= j < |rest| ensures batch[1..][rest[j]] == batch[Shifted(rest)[j]] {
    }
  }

  lemma AppendsFirst(rows: Rows, batch: seq<Event>, row: Event, tenant: string, next: int, sha: Canonical -> string,
                     out: Rows, rest: seq<nat>)
    requires batch != [] && !HasId(rows, batch[0].id) && Appends(rows + [row], batch[1..], tenant, next + 1, sha, out, rest)
    requires forall k: nat :: 0 < k < |batch| ==> (IsNew(rows, batch, k) <==> IsNew(rows + [row], batch[1..], k - 1))
    requires Records(row, batch[0], tenant) && row.number == next && Ok(out, |rows|, sha)
    ensures Appends(rows, batch, tenant, next, sha, out, [0] + Shifted(rest))
  {
    ListsFirst(rows, batch, rows + [row], rest);
    assert out[..|rows|] == out[..|rows| + 1][..|rows|] == rows;
    assert out[|rows|] == out[..|rows| + 1][|rows|] == row;
    assert AppendsOne(batch[0], tenant, next, sha, out, |rows|);
    hide Lists, AppendsOne, IsNew, HasId, Ok, Records;
    var at := [0] + Shifted(rest);
    forall j | 0 <= j < |at|
      ensures at[j] < |batch| && AppendsOne(batch[at[j]], tenant, next + j, sha, out, |rows| + j)
    {
      if j > 0 {
        assert at[j] == rest[j - 1] + 1 && batch[1..][rest[j - 1]] == batch[at[j]];
        assert AppendsOne(batch[1..][rest[j - 1]], tenant, next + 1 + (j - 1), sha, out, |rows + [row]| + (j - 1));
      }
    }
  }

  /** A submitted event completed: its own id and time if it has them, otherwise those supplied; its
      metadata redacted; nothing else touched. */
  ghost predicate Completes(v: Event, e: Event, id: string, now: int, redact: Json -> Json) {
    && v.id == (if e.id == "" then id else e.id)
    && v.time % 1000 == 0 && v.time <= (if e.time == NO_TIME then now else e.time) < v.time + 1000
    && v.metadata == redact(e.metadata)
    && v.(id := e.id, time := e.time, metadata := e.metadata) == e
  }

  /** `from` lists the acceptable events of a batch in order, and `valid` is what they are completed to. */
  ghost predicate Accepts(batch: seq<Event>, ids: nat -> string, now: int, redact: Json -> Json, valid: seq<Event>, from: seq<nat>) {
    && |from| == |valid| && Increasing(from) && (forall k: nat :: k in from <==> k < |batch| && Acceptable(batch[k]))
    && forall j :: 0 <= j < |from| ==> from[j] < |batch| && Completes(valid[j], batch[from[j]], ids(from[j]), now, redact)
  }

  lemma {:induction false} AdmittedAccepts(batch: seq<Event>, ids: nat -> string, now: int, redact: Json -> Json) returns (from: seq<nat>)
    ensures Accepts(batch, ids, now, redact, Admitted(batch, ids, now, redact), from)
    decreases |batch|
  {
    hide Acceptable;
    from := [];
    if batch != [] {
      var n := |batch| - 1;
      var front := AdmittedAccepts(batch[..n], ids, now, redact);
      from := front + if Acceptable(batch[n]) then [n] else [];
      DefaultedCompletes(batch[n], ids(n), now, redact);
      hide Defaulted;
      AcceptsNext(batch, ids, now, redact, Admitted(batch[..n], ids, now, redact), front, Defaulted(batch[n], ids(n), now, redact));
    }
  }

  lemma DefaultedCompletes(e: Event, id: string, now: int, redact: Json -> Json)
    ensures Completes(Defaulted(e, id, now, redact), e, id, now, redact)
  {
  }

  lemma AcceptsNext(batch: seq<Event>, ids: nat -> string, now: int, redact: Json -> Json,
                    valid: seq<Event>, front: seq<nat>, last: Event)
    requires batch != [] && Accepts(batch[..|batch| - 1], ids, now, redact, valid, front)
    requires Completes(last, batch[|batch| - 1], ids(|batch| - 1), now, redact)
    ensures var adds := Acceptable(batch[|batch| - 1]);
            Accepts(batch, ids, now, redact, valid + (if adds then [last] else []), front + if adds then [|batch| - 1] else [])
  {
    hide Acceptable, Completes;
    var n := |batch| - 1;
    forall j | 0 <= j < |front| ensures front[j] < n && batch[..n][front[j]] == batch[front[j]] {
      assert front[j] in front;
    }
    var from := front + if Acceptable(batch[n]) then [n] else [];
    forall k: nat ensures k in from <==> k < |batch| && Acceptable(batch[k]) {
      assert k < n ==> batch[..n][k] == batch[k];
      assert k in from <==> k in front || (Acceptable(batch[n]) && k == n);
    }
  }

  function GivenId(batch: seq<Event>, ids: nat -> string, k: nat): string
    requires k < |batch|
  {
    if batch[k].id == "" then ids(k) else batch[k].id
  }

  /** An acceptable event whose id is neither stored nor that of an acceptable one before it. */
  predicate ToLog(rows: Rows, batch: seq<Event>, ids: nat -> string, k: nat)
    requires k < |batch|
  {
    && Acceptable(batch[k]) && !HasId(rows, GivenId(batch, ids, k))
    && forall j :: 0 <= j < k && Acceptable(batch[j]) ==> GivenId(batch, ids, j) != GivenId(batch, ids, k)
  }

  /** The row of a submitted event: its id and time if it has them, otherwise those supplied; its own
      actor, action, resource and outcome; its metadata redacted, as a value. */
  ghost predicate Tells(row: Event, e: Event, id: string, now: int, redact: Json -> Json, tenant: string) {
    && row.id == (if e.id == "" then id else e.id) && row.tenant == tenant
    && row.actor == e.actor && row.action == e.action && row.resource == e.resource && row.outcome == e.outcome
    && Same(redact(e.metadata), row.metadata)
    && row.time % 1000 == 0 && row.time <= (if e.time == NO_TIME then now else e.time) < row.time + 1000
  }

  /** The rows after a batch was logged: one more for each event `at` to log, in the order submitted. */
  ghost predicate Logs(before: Rows, batch: seq<Event>, ids: nat -> string, now: int, redact: Json -> Json, tenant: string,
                       next: int, sha: Canonical -> string, after: Rows, at: seq<nat>) {
    && |after| == |before| + |at| && after[..|before|] == before && Increasing(at)
    && (forall k: nat :: k in at <==> k < |batch| && ToLog(before, batch, ids, k))
    && forall j :: 0 <= j < |at| ==>
         at[j] < |batch| && LogsOne(batch[at[j]], ids(at[j]), now, redact, tenant, next + j, sha, after, |before| + j)
  }

  ghost predicate LogsOne(e: Event, id: string, now: int, redact: Json -> Json, tenant: string, number: int,
                          sha: Canonical -> string, after: Rows, i: nat)
    requires i < |after|
  {
    Tells(after[i], e, id, now, redact, tenant) && after[i].number == number && Ok(after, i, sha)
  }

  /** What is reported of a batch: the ids of its acceptable events `from`, in order, and the others' positions. */
  ghost predicate Answers(batch: seq<Event>, ids: nat -> string, res: BatchResult, from: seq<nat>) {
    && Increasing(from) && (forall k: nat :: k in from <==> k < |batch| && Acceptable(batch[k]))
    && res.accepted == |res.ids| == |from| && (forall j :: 0 <= j < |from| ==> from[j] < |batch| && res.ids[j] == GivenId(batch, ids, from[j]))
    && res.rejected == |res.errors| && |from| + |res.errors| == |batch|
    && (forall k: nat :: k in res.errors <==> k < |batch| && !Acceptable(batch[k]))
  }

  lemma AcceptsAnswers(batch: seq<Event>, ids: nat -> string, now: int, redact: Json -> Json,
                       valid: seq<Event>, from: seq<nat>, res: BatchResult)
    requires Accepts(batch, ids, now, redact, valid, from) && res.ids == Ids(valid) && res.accepted == |valid|
    requires res.rejected == |res.errors| && |valid| + res.rejected == |batch|
    requires forall k: nat :: k in res.errors <==> k < |batch| && !Acceptable(batch[k])
    ensures Answers(batch, ids, res, from)
  {
    hide Acceptable;
    IdsAre(valid);
  }

  lemma {:induction false} IdsAre(events: seq<Event>)
    ensures |Ids(events)| == |events| && forall j :: 0 <= j < |events| ==> Ids(events)[j] == events[j].id
    decreases events
  {
    if events != [] {
      IdsAre(events[..|events| - 1]);
    }
  }

  function Through(from: seq<nat>, at: seq<nat>): (s: seq<nat>)
    requires forall j :: 0 <= j < |at| ==> at[j] < |from|
    ensures |s| == |at| && forall j :: 0 <= j < |at| ==> s[j] == from[at[j]]
  {
    seq(|at|, j requires 0 <= j < |at| => from[at[j]])
  }

  /** Which completed events are new, in terms of the batch submitted. */
  lemma NewIffToLog(before: Rows, batch: seq<Event>, ids: nat -> string, now: int, redact: Json -> Json,
                    valid: seq<Event>, from: seq<nat>, j: nat)
    requires Accepts(batch, ids, now, redact, valid, from) && j < |valid|
    ensures from[j] < |batch| && (IsNew(before, valid, j) <==> ToLog(before, batch, ids, from[j]))
  {
    hide HasId, Acceptable;
    var k := from[j];
    assert k in from;
    forall i | 0 <= i < |valid| ensures valid[i].id == GivenId(batch, ids, from[i]) {
    }
    if IsNew(before, valid, j) {
      forall i | 0 <= i < k && Acceptable(batch[i]) ensures GivenId(batch, ids, i) != GivenId(batch, ids, k) {
        assert i in from;
        var h :| 0 <= h < |from| && from[h] == i;
        assert h < j;
      }
    }
    if ToLog(before, batch, ids, k) {
      forall h | 0 <= h < j ensures valid[h].id != valid[j].id {
        assert from[h] in from && from[h] < k;
      }
    }
  }

  lemma ListsThrough(before: Rows, batch: seq<Event>, ids: nat -> string, now: int, redact: Json -> Json,
                     valid: seq<Event>, from: seq<nat>, at: seq<nat>)
    requires Accepts(batch, ids, now, redact, valid, from) && Lists(before, valid, at)
    ensures forall j :: 0 <= j < |at| ==> at[j] < |from|
    ensures Increasing(Through(from, at))
    ensures forall k: nat :: k in Through(from, at) <==> k < |batch| && ToLog(before, batch, ids, k)
  {
    forall j | 0 <= j < |at| ensures at[j] < |from| {
      assert at[j] in at;
    }
    forall j: nat | j < |valid| ensures from[j] < |batch| && (IsNew(before, valid, j) <==> ToLog(before, batch, ids, from[j])) {
      NewIffToLog(before, batch, ids, now, redact, valid, from, j);
    }
    assert forall k: nat :: k < |batch| && ToLog(before, batch, ids, k) ==> k in from;
    hide IsNew, ToLog, Completes;
    var through := Through(from, at);
    forall k: nat ensures k in through <==> k < |batch| && ToLog(before, batch, ids, k) {
      if k in through {
        var j :| 0 <= j < |at| && from[at[j]] == k;
        assert at[j] in at;
      }
      if k < |batch| && ToLog(before, batch, ids, k) {
        var i :| 0 <= i < |from| && from[i] == k;
        assert i in at;
        var j :| 0 <= j < |at| && at[j] == i;
        assert through[j] == k;
      }
    }
  }

  lemma RecordsTells(row: Event, v: Event, e: Event, id: string, now: int, redact: Json -> Json, tenant: string)
    requires Records(row, v, tenant) && Completes(v, e, id, now, redact)
    ensures Tells(row, e, id, now, redact, tenant)
  {
    var back := v.(id := e.id, time := e.time, metadata := e.metadata);
    assert back.actor == v.actor && back.action == v.action && back.resource == v.resource && back.outcome == v.outcome;
  }

  /** Completing a batch and appending what is acceptable logs it. */
  lemma AppendsLogs(before: Rows, batch: seq<Event>, ids: nat -> string, now: int, redact: Json -> Json, tenant: string, next: int,
                    sha: Canonical -> string, after: Rows, valid: seq<Event>, from: seq<nat>, at: seq<nat>)
    requires Accepts(batch, ids, now, redact, valid, from) && Appends(before, valid, tenant, next, sha, after, at)
    ensures forall j :: 0 <= j < |at| ==> at[j] < |from|
    ensures Logs(before, batch, ids, now, redact, tenant, next, sha, after, Through(from, at))
  {
    ListsThrough(before, batch, ids, now, redact, valid, from, at);
    hide Lists, ToLog, Tells, Records, Completes, Ok, Increasing;
    var through := Through(from, at);
    forall j | 0 <= j < |through|
      ensures through[j] < |batch| && LogsOne(batch[through[j]], ids(through[j]), now, redact, tenant, next + j, sha, after, |before| + j)
    {
      var i := at[j];
      assert AppendsOne(valid[i], tenant, next + j, sha, after, |before| + j);
      RecordsTells(after[|before| + j], valid[i], batch[from[i]], ids(from[i]), now, redact, tenant);
    }
    assert |after| == |before| + |through| && after[..|before|] == before;
    assert Increasing(through);
    assert forall k: nat :: k in through <==> k < |batch| && ToLog(before, batch, ids, k);
  }

  lemma RowId(e: Event, tenant: string, number: int, prev: string, sha: Canonical -> string, jsonb: Json -> Json)
    ensures Row(e, tenant, number, prev, sha, jsonb).id == e.id
  {
  }

  lemma {:induction false} ExtendedHas(rows: Rows, batch: seq<Event>, tenant: string, next: int,
                                       sha: Canonical -> string, jsonb: Json -> Json)
    ensures forall id :: HasId(Extended(rows, batch, tenant, next, sha, jsonb), id)
                         <==> HasId(rows, id) || HasId(batch, id)
    decreases |batch|
  {
    if batch != [] {
      var row := Row(batch[0], tenant, next, Previous(rows, |rows|), sha, jsonb);
      var more := if HasId(rows, batch[0].id) then rows else rows + [row];
      ExtendedHas(more, batch[1..], tenant, if HasId(rows, batch[0].id) then next else next + 1, sha, jsonb);
      forall id ensures HasId(more, id) <==> HasId(rows, id) || id == batch[0].id {
        if HasId(rows, id) {
          var i :| 0 <= i < |rows| && rows[i].id == id;
          assert more[i] == rows[i];
        }
        if !HasId(rows, batch[0].id) {
          assert more[|rows|] == row;
        }
      }
      forall id ensures HasId(batch, id) <==> batch[0].id == id || HasId(batch[1..], id) {
        if k :| 0 < k < |batch| && batch[k].id == id {
          assert batch[1..][k - 1] == batch[k];
        }
      }
    }
  }

  lemma {:induction false} ExtendedByKnown(rows: Rows, batch: seq<Event>, tenant: string, next: int,
                                           sha: Canonical -> string, jsonb: Json -> Json)
    requires forall k :: 0 <= k < |batch| ==> HasId(rows, batch[k].id)
    ensures Extended(rows, batch, tenant, next, sha, jsonb) == rows
    decreases |batch|
  {
    hide HasId;
    if batch != [] {
      ExtendedByKnown(rows, batch[1..], tenant, next, sha, jsonb);
    }
  }

  /** Repeating a batch adds nothing. */
  lemma RetryAddsNothing(rows: Rows, batch: seq<Event>, tenant: string, next: int, again: int,
                         sha: Canonical -> string, jsonb: Json -> Json)
    ensures var once := Extended(rows, batch, tenant, next, sha, jsonb);
            Extended(once, batch, tenant, again, sha, jsonb) == once
  {
    forall k | 0 <= k < |batch| ensures HasId(batch, batch[k].id) {
    }
    hide HasId;
    ExtendedHas(rows, batch, tenant, next, sha, jsonb);
    ExtendedByKnown(Extended(rows, batch, tenant, next, sha, jsonb), batch, tenant, again, sha, jsonb);
  }

  // ---- The service as it runs ----

  class Service {
    var rows: Rows
    var next: int
    const tenant: string
    const sha: Canonical -> string
    const jsonb: Json -> Json
    const redact: Json -> Json

    ghost predicate Valid()
      reads this
    {
      Stored(rows, next) && Faithful(jsonb)
    }

    constructor (tenant: string, sha: Canonical -> string, jsonb: Json -> Json, redact: Json -> Json)
      requires Faithful(jsonb)
      ensures Valid() && rows == [] && this.tenant == tenant && this.sha == sha && this.jsonb == jsonb && this.redact == redact
    {
      rows, next, this.tenant, this.sha, this.jsonb, this.redact := [], 1, tenant, sha, jsonb, redact;
    }

    method Find(id: string) returns (at: Option<nat>)
      ensures at.Some? ==> at.value < |rows| && rows[at.value].id == id
      ensures at == None <==> !HasId(rows, id)
    {
      at := FindIn(rows, id);
    }

    /** The hash an event must link to: that of the event stored just before it. */
    method ExpectedPrevious(e: Event, ghost i: nat) returns (prev: string)
      requires Keyed(rows) && i < |rows| && rows[i] == e
      ensures prev == Previous(rows, i)
    {
      var at := Find(e.id);
      assert HasId(rows, e.id);
      prev := if at.value == 0 then GENESIS else rows[at.value - 1].hash;
    }

    /** Whether an event's link and its hash are right. */
    method Check(e: Event, ghost i: nat) returns (linkOk: bool, hashOk: bool)
      requires Keyed(rows) && i < |rows| && rows[i] == e
      ensures linkOk == LinkOk(rows, i) && hashOk == HashOk(rows, i, sha)
    {
      hide ComputeHash;
      var prev := ExpectedPrevious(e, i);
      linkOk, hashOk := e.prevHash == prev, ComputeHash(e, sha) == e.hash;
    }

    /** Stops judging at the first failure, in chain order. */
    method Verify(from: Option<int>, to: Option<int>) returns (res: VerifyResult)
      requires Keyed(rows)
      ensures res.from == (if from == None then HISTORY_START else from.value)
      ensures res.to == (if to == None then FAR_FUTURE else to.value)
      ensures Shallow(rows, res.from, res.to, sha, |rows|, res)
    {
      hide LinkOk, HashOk, Keyed, Shallow, Inside;
      var start := if from == None then HISTORY_START else from.value;
      var end := if to == None then FAR_FUTURE else to.value;
      res := VerifyResult(true, 0, "", start, end, "", "", []);
      assert Shallow(rows, start, end, sha, 0, res) by { NothingScanned(rows, start, end, sha, res); }
      for i := 0 to |rows|
        invariant res.from == start && res.to == end
        invariant Shallow(rows, start, end, sha, i, res)
      {
        ShallowNext(rows, start, end, sha, i, res);
        var e := rows[i];
        if Inside(e, start, end) {
          res := res.(checked := res.checked + 1);
          if res.valid {
            var linkOk, hashOk := Check(e, i);
            if !linkOk {
              res := res.(valid := false, first := e.id, reason := "prev_hash mismatch");
            } else if !hashOk {
              res := res.(valid := false, first := e.id, reason := "hash mismatch");
            } else {
              res := res.(root := e.hash);
            }
          }
        }
      }
    }

    /** Judges every event in the window. */
    method VerifyDeep(from: Option<int>, to: Option<int>) returns (res: VerifyResult)
      requires Keyed(rows)
      ensures res.from == (if from == None then HISTORY_START else from.value)
      ensures res.to == (if to == None then FAR_FUTURE else to.value)
      ensures Deep(rows, res.from, res.to, sha, |rows|, res)
      ensures res.first == (if res.broken == [] then "" else res.broken[0].id)
      ensures res.reason == (if res.broken == [] then "" else res.broken[0].reason)
    {
      hide LinkOk, HashOk, Keyed, Deep, Inside;
      var start := if from == None then HISTORY_START else from.value;
      var end := if to == None then FAR_FUTURE else to.value;
      res := VerifyResult(true, 0, "", start, end, "", "", []);
      assert Deep(rows, start, end, sha, 0, res) by { NothingScanned(rows, start, end, sha, res); }
      for i := 0 to |rows|
        invariant res.from == start && res.to == end && res.first == "" && res.reason == ""
        invariant Deep(rows, start, end, sha, i, res)
      {
        DeepNext(rows, start, end, sha, i, res);
        var e := rows[i];
        if Inside(e, start, end) {
          res := res.(checked := res.checked + 1);
          var linkOk, hashOk := Check(e, i);
          var reason := if !linkOk then "prev_hash mismatch" else "";
          if !hashOk {
            reason := "hash mismatch";
          }
          if !linkOk || !hashOk {
            res := res.(valid := false,
                        broken := res.broken + [BrokenEvent(e.id, e.number, e.time, e.action, e.actor.id, reason)]);
          } else {
            res := res.(root := e.hash);
          }
        }
      }
      DeepIgnoresFirst(rows, start, end, sha, res);
      if |res.broken| > 0 {
        res := res.(first := res.broken[0].id, reason := res.broken[0].reason);
      }
    }

    method VerifyOne(id: string) returns (r: Result<VerifyResult>)
      requires Keyed(rows)
      ensures r.Failure? <==> !HasId(rows, id)
      ensures r.Success? ==>
                exists i :: 0 <= i < |rows| && rows[i].id == id && r.value.checked == 1 && r.value.root == rows[i].hash
                            && (r.value.valid <==> Ok(rows, i, sha))
                            && r.value.first == (if Ok(rows, i, sha) then "" else id)
                            && r.value.reason == (if Ok(rows, i, sha) then "" else Reason(rows, i))
    {
      hide LinkOk, HashOk, Keyed;
      var at := Find(id);
      if at == None {
        return Failure(NotFound);
      }
      var e := rows[at.value];
      var res := VerifyResult(true, 1, e.hash, e.time, e.time, "", "", []);
      var linkOk, hashOk := Check(e, at.value);
      if !linkOk {
        res := res.(valid := false, first := e.id, reason := "prev_hash mismatch");
      } else if !hashOk {
        res := res.(valid := false, first := e.id, reason := "hash mismatch");
      }
      r := Success(res);
    }

    /** The checks on a submitted event, in the order they are made. */
    method Validate(e: Event) returns (ok: bool)
      ensures ok <==> Acceptable(e)
    {
      if e.time != NO_TIME && e.time < HISTORY_START {
        return false;
      }
      if e.time > FAR_FUTURE {
        return false;
      }
      if e.actor.id == "" || (e.actor.kind != "human" && e.actor.kind != "agent" && e.actor.kind != "system") {
        return false;
      }
      if e.action == "" || e.resource.id == "" || e.resource.kind == "" {
        return false;
      }
      ok := e.outcome == "success" || e.outcome == "failure" || e.outcome == "error";
    }

    /** Validates and completes a batch. `ids` supplies fresh ids, `now` the time. */
    method PrepareBatch(batch: seq<Event>, ids: nat -> string, now: int)
      returns (r: Result<(BatchResult, seq<Event>)>)
      ensures r.Failure? <==> tenant == "" || |batch| > MAX_BATCH
      ensures r.Success? ==>
                var (res, valid) := r.value;
                && valid == Admitted(batch, ids, now, redact)
                && res.accepted == 0 && res.ids == [] && res.rejected == |res.errors|
                && (forall i: nat :: i in res.errors <==> i < |batch| && !Acceptable(batch[i]))
                && |valid| + res.rejected == |batch|
                && exists from :: Accepts(batch, ids, now, redact, valid, from)
    {
      hide Acceptable, Defaulted, Accepts;
      ghost var from := AdmittedAccepts(batch, ids, now, redact);
      if tenant == "" {
        return Failure(InvalidInput);
      }
      if |batch| == 0 {
        return Success((BatchResult(0, 0, [], []), []));
      }
      if |batch| > MAX_BATCH {
        return Failure(InvalidInput);
      }
      var res, valid := BatchResult(0, 0, [], []), [];
      for i := 0 to |batch|
        invariant valid == Admitted(batch[..i], ids, now, redact)
        invariant res.accepted == 0 && res.ids == [] && res.rejected == |res.errors|
        invariant forall k: nat :: k in res.errors <==> k < i && !Acceptable(batch[k])
        invariant |valid| + res.rejected == i
      {
        var e := batch[i];
        assert batch[..i + 1][..i] == batch[..i] && batch[..i + 1][i] == e;
        var ok := Validate(e);
        if !ok {
          res := res.(rejected := res.rejected + 1, errors := res.errors + [i]);
          continue;
        }
        valid := valid + [Defaulted(e, ids(i), now, redact)];
      }
      assert batch[..|batch|] == batch;
      r := Success((res, valid));
    }

    /** One transaction: every event not stored yet is linked to the one before it and hashed;
        one that cannot be hashed undoes them all. */
    method AppendBatch(batch: seq<Event>) returns (r: Result<seq<Event>>)
      requires Valid() && forall e :: e in batch ==> Submittable(e)
      modifies this`rows, this`next
      ensures Valid()
      ensures r.Success? <==> Storable(old(rows), batch)
      ensures r.Success? ==> rows == Extended(old(rows), batch, tenant, old(next), sha, jsonb)
      ensures r.Success? ==> exists at :: Appends(old(rows), batch, tenant, old(next), sha, rows, at)
      ensures r.Failure? ==> rows == old(rows)
      ensures r.Success? ==>
                |r.value| == |batch| && forall k :: 0 <= k < |batch| ==> r.value[k].id == batch[k].id && HasHash(rows, r.value[k])
    {
      hide Stored, Extended, Storable, HasId, Row, Faithful, HasHash, Canonicalises, ComputeHash, Inside, Readable, Appends;
      var written, number := rows, next;
      var out: seq<Event> := [];
      assert batch[0..] == batch;
      for i := 0 to |batch|
        invariant rows == old(rows) && next == old(next) && number >= next
        invariant Stored(written, number)
        invariant Extended(written, batch[i..], tenant, number, sha, jsonb) == Extended(rows, batch, tenant, next, sha, jsonb)
        invariant Storable(rows, batch) <==> Storable(written, batch[i..])
        invariant |out| == i && forall k :: 0 <= k < i ==> out[k].id == batch[k].id && HasHash(written, out[k])
      {
        var e, rest := batch[i], batch[i..];
        assert rest[0] == e && rest[1..] == batch[i + 1..] && e in batch;
        var prev := if |written| == 0 then GENESIS else written[|written| - 1].hash;
        var row := Row(e, tenant, number, prev, sha, jsonb);
        RowId(e, tenant, number, prev, sha, jsonb);
        StorableRest(written, rest, row);
        ExtendedNext(written, rest, tenant, number, sha, jsonb);
        var at := FindIn(written, e.id);
        if at.Some? {
          out := out + [written[at.value]];
          StoredHash(written, at.value);
        } else {
          RowHash(e, tenant, number, prev, sha, jsonb);
          number := number + 1;
          if row.hash == "" {
            next := number;
            StoredLater(rows, old(next), next);
            return Failure(InvalidInput);
          }
          RowStored(written, e, tenant, number - 1, sha, jsonb);
          HashesGrow(written, row, e.metadata);
          out := out + [row.(metadata := e.metadata)];
          written := written + [row];
        }
      }
      assert batch[|batch|..] == [];
      NothingLeft(written, tenant, number, sha, jsonb);
      ghost var at := ExtendedAppends(rows, batch, tenant, next, sha, jsonb);
      rows, next := written, number;
      r := Success(out);
    }

    /** Validates, completes and appends a batch. */
    method LogBatch(batch: seq<Event>, ids: nat -> string, now: int) returns (r: Result<BatchResult>)
      requires Valid() && forall e :: e in Admitted(batch, ids, now, redact) ==> Submittable(e)
      modifies this`rows, this`next
      ensures Valid()
      ensures var valid := Admitted(batch, ids, now, redact);
              && (r.Success? <==> tenant != "" && |batch| <= MAX_BATCH && Storable(old(rows), valid))
              && (r.Failure? ==> rows == old(rows))
              && (r.Success? ==> && rows == Extended(old(rows), valid, tenant, old(next), sha, jsonb)
                                 && r.value.accepted == |valid| == |batch| - r.value.rejected
                                 && r.value.ids == Ids(valid))
      ensures r.Success? ==>
                && (exists at :: Logs(old(rows), batch, ids, now, redact, tenant, old(next), sha, rows, at))
                && (exists from :: Answers(batch, ids, r.value, from))
    {
      hide Admitted, Extended, Storable, Stored, Submittable, Acceptable, Accepts, Appends, Logs, Answers, HasId;
      var prepared := PrepareBatch(batch, ids, now);
      if prepared.Failure? {
        return Failure(prepared.error);
      }
      var (res, valid) := prepared.value;
      NothingLeft(rows, tenant, next, sha, jsonb);
      ghost var from :| Accepts(batch, ids, now, redact, valid, from);
      if |valid| == 0 {
        ghost var none := ExtendedAppends(rows, valid, tenant, next, sha, jsonb);
        AppendsLogs(rows, batch, ids, now, redact, tenant, next, sha, rows, valid, from, none);
        AcceptsAnswers(batch, ids, now, redact, valid, from, res);
        return Success(res);
      }
      var written := AppendBatch(valid);
      if written.Failure? {
        return Failure(written.error);
      }
      for i := 0 to |written.value|
        invariant res == prepared.value.0.(ids := Ids(written.value[..i]))
      {
        assert written.value[..i + 1][..i] == written.value[..i];
        res := res.(ids := res.ids + [written.value[i].id]);
      }
      assert written.value[..|written.value|] == written.value;
      SameIds(written.value, valid);
      ghost var at :| Appends(old(rows), valid, tenant, old(next), sha, rows, at);
      AppendsLogs(old(rows), batch, ids, now, redact, tenant, old(next), sha, rows, valid, from, at);
      res := res.(accepted := |written.value|);
      AcceptsAnswers(batch, ids, now, redact, valid, from, res);
      r := Success(res);
    }

    // ---- Re-anchoring ----

    /** Recomputes link and hash of every event numbered `from` or later, in order. */
    method ReanchorFrom(from: int, start: string, ghost k: nat) returns (updated: nat)
      requires Valid() && k < |rows| && rows[k].number == from
      modifies this`rows
      ensures Valid() && updated == |rows| - k
      ensures rows == Reanchored(old(rows), k, start, sha)
    {
      hide Stored, Rehashed;
      var i := 0;
      KeyedRows(rows, next);
      while i < |rows| && rows[i].number < from
        invariant 0 <= i <= k
      {
        i := i + 1;
      }
      var patched, prev := rows, start;
      ghost var goal := Reanchored(rows, k, start, sha);
      updated := 0;
      while i < |rows|
        invariant k <= i <= |rows| == |patched| && updated == i - k
        invariant forall j :: i <= j < |rows| ==> patched[j] == rows[j]
        invariant Reanchored(patched, i, prev, sha) == goal
        invariant Stored(patched, next)
      {
        var e := Rehashed(rows[i], prev, sha);
        ReanchorNext(patched, i, prev, sha);
        RehashStored(patched, i, prev, sha, next);
        patched := patched[i := e];
        prev := e.hash;
        i := i + 1;
        updated := updated + 1;
      }
      ReanchorDone(patched, i, prev, sha);
      assert patched == goal;
      rows := patched;
    }

    /** Re-anchors from the event named, and records that as a new event. */
    method ReanchorChain(id: string, reason: string, metaId: string, now: int) returns (r: Result<Event>)
      requires Valid() && metaId != "" && !HasId(rows, metaId) && HISTORY_START <= Micros(now) && now <= FAR_FUTURE
      modifies this`rows, this`next
      ensures Valid()
      ensures r.Success? <==> tenant != "" && id != "" && reason != "" && HasId(old(rows), id)
      ensures r.Failure? ==> rows == old(rows)
      ensures r.Success? ==>
                exists k :: 0 <= k < |old(rows)| && old(rows)[k].id == id && Repaired(old(rows), k, rows, sha)
      ensures r.Success? ==> rows[|rows| - 1].id == metaId && rows[|rows| - 1].action == "chain.reanchored"
      ensures r.Success? ==>
                exists k :: 0 <= k < |old(rows)| && old(rows)[k].id == id &&
                            Notes(rows[|rows| - 1], tenant, now, id, reason, old(rows)[k].number, |old(rows)| - k)
    {
      hide Stored, Ok, Repaired, Extended, Faithful, Reanchored, Appends, Notes;
      if tenant == "" || id == "" || reason == "" {
        return Failure(InvalidInput);
      }
      var at := Find(id);
      if at == None {
        return Failure(NotFound);
      }
      var broken, k := rows[at.value], at.value;
      KeyedRows(rows, next);
      var start := ExpectedPrevious(broken, k);
      var updated := ReanchorFrom(broken.number, start, k);
      ReanchorEffect(old(rows), k, sha);
      var meta := Defaulted(MetaEvent(id, reason, broken.number, updated), metaId, now, x => x);
      MetaSubmittable(id, reason, broken.number, updated, metaId, now);
      ghost var anchored := rows;
      SameIdsKept(old(rows), anchored, metaId);
      AppendOne(anchored, meta, tenant, next, sha, jsonb);
      var appended := AppendBatch([meta]);
      RepairedByOne(old(rows), k, anchored, rows, meta, tenant, old(next), sha, jsonb);
      LastRecords(anchored, meta, tenant, old(next), sha, rows);
      RecordsNotes(rows[|anchored|], meta, tenant, now, metaId, id, reason, broken.number, updated);
      r := Success(appended.value[0]);
    }

    /** Finds the first break in the whole history and re-anchors from it. */
    method ReanchorAll(reason: string, metaId: string, now: int) returns (r: Result<Event>)
      requires Valid() && metaId != "" && !HasId(rows, metaId) && HISTORY_START <= Micros(now) && now <= FAR_FUTURE
      modifies this`rows, this`next
      ensures Valid()
      ensures r.Success? <==> tenant != "" && reason != "" && !Intact(old(rows), sha)
      ensures r.Failure? ==> rows == old(rows)
      ensures r.Success? ==>
                && Intact(rows, sha)
                && exists k :: 0 <= k < |old(rows)| && FirstBreak(old(rows), k, sha) && Repaired(old(rows), k, rows, sha)
    {
      hide Stored, Ok, Repaired, Shallow, Intact, FirstBreak;
      if tenant == "" || reason == "" {
        return Failure(InvalidInput);
      }
      KeyedRows(rows, next);
      var v := Verify(None, None);
      ghost var k := FirstOf(rows, next, sha, v);
      if v.valid {
        return Failure(InvalidInput);
      }
      r := ReanchorChain(v.first, reason, metaId, now);
      RepairedIntact(old(rows), k, rows, sha);
    }
  }

  function Ids(events: seq<Event>): seq<string> {
    if events == [] then [] else Ids(events[..|events| - 1]) + [events[|events| - 1].id]
  }

  function MetaDetails(reason: string, number: int, updated: nat): (v: Json)
    ensures v.Object?
  {
    Object(map["reason" := String(reason),
               "first_broken_seq" := Number(FormatInt(number)),
               "events_reanchored" := Number(FormatInt(updated)),
               "reanchor_system_note" := String("Hashes recomputed forward from break point. See reason for root cause.")])
  }

  /** The event recording a re-anchoring. */
  function MetaEvent(id: string, reason: string, number: int, updated: nat): Event {
    Event("", "", NO_TIME, Actor("system", "system", ""), "chain.reanchored", Resource(id, "audit_chain", ""), "success",
          MetaDetails(reason, number, updated), "", "", 0)
  }

  /** What re-anchoring from `k` leaves: earlier events as they were, later ones verifying,
      no content changed, one verifying event more; intact exactly when the earlier ones verify. */
  ghost predicate Repaired(before: Rows, k: nat, after: Rows, sha: Canonical -> string) {
    && k <= |before| && |after| == |before| + 1
    && (forall i :: 0 <= i < k ==> after[i] == before[i])
    && (forall i :: 0 <= i < |before| ==> Recorded(after[i]) == Recorded(before[i]))
    && (forall i :: k <= i < |after| ==> Ok(after, i, sha))
    && (Intact(after, sha) <==> forall i :: 0 <= i < k ==> Ok(before, i, sha))
  }

  ghost predicate FirstBreak(rows: Rows, k: nat, sha: Canonical -> string) {
    k < |rows| && !Ok(rows, k, sha) && forall i :: 0 <= i < k ==> Ok(rows, i, sha)
  }

  /** An event on record that `count` events were re-anchored from the one named, and why. */
  ghost predicate Notes(row: Event, tenant: string, now: int, id: string, reason: string, number: int, count: nat) {
    && row.tenant == tenant && row.time % 1000 == 0 && row.time <= now < row.time + 1000
    && row.actor.id == "system" && row.actor.kind == "system" && row.outcome == "success"
    && row.resource.id == id && row.resource.kind == "audit_chain"
    && exists m :: Same(m, row.metadata) && m.Object?
                   && "reason" in m.fields && m.fields["reason"] == String(reason)
                   && "first_broken_seq" in m.fields && m.fields["first_broken_seq"] == Number(FormatInt(number))
                   && "events_reanchored" in m.fields && m.fields["events_reanchored"] == Number(FormatInt(count))
  }

  lemma LastRecords(before: Rows, e: Event, tenant: string, next: int, sha: Canonical -> string, after: Rows)
    requires |after| == |before| + 1 && exists at :: Appends(before, [e], tenant, next, sha, after, at)
    ensures Records(after[|before|], e, tenant)
  {
    hide Records, Lists, Ok;
    var at :| Appends(before, [e], tenant, next, sha, after, at);
    assert AppendsOne([e][at[0]], tenant, next + 0, sha, after, |before| + 0);
  }

  lemma RecordsNotes(row: Event, meta: Event, tenant: string, now: int, metaId: string, id: string, reason: string, number: int, count: nat)
    requires Records(row, meta, tenant) && meta == Defaulted(MetaEvent(id, reason, number, count), metaId, now, x => x)
    ensures Notes(row, tenant, now, id, reason, number, count)
  {
    hide FormatInt, Same;
  }

  lemma KeyedRows(rows: Rows, next: int)
    requires Stored(rows, next)
    ensures Keyed(rows) && forall i :: 0 <= i < |rows| ==> rows[i].id != ""
  {
  }

  lemma ReanchorNext(rows: Rows, i: nat, prev: string, sha: Canonical -> string)
    requires i < |rows|
    ensures var e := Rehashed(rows[i], prev, sha);
            Reanchored(rows, i, prev, sha) == Reanchored(rows[i := e], i + 1, e.hash, sha)
  {
  }

  lemma ReanchorDone(rows: Rows, i: nat, prev: string, sha: Canonical -> string)
    requires i >= |rows|
    ensures Reanchored(rows, i, prev, sha) == rows
  {
  }

  lemma RehashStored(rows: Rows, i: nat, prev: string, sha: Canonical -> string, next: int)
    requires Stored(rows, next) && i < |rows|
    ensures Stored(rows[i := Rehashed(rows[i], prev, sha)], next)
  {
    hide Readable, ComputeHash;
  }

  /** Integers are written as the grammar asks, and their exponents are in range. */
  lemma IntegerReadable(k: int)
    ensures Readable(Number(FormatInt(k))) && Representable(Number(FormatInt(k)))
  {
    var l := Literal(k < 0, FormatNat(if k < 0 then -k else k), "", None);
    assert l.whole + ("" + "") == l.whole;
    assert Grammatical(l) && Text(l) == FormatInt(k);
    assert Spells(FormatInt(k), l) && InRange(l);
  }

  lemma MetaSubmittable(id: string, reason: string, number: int, updated: nat, metaId: string, now: int)
    requires metaId != "" && HISTORY_START <= Micros(now) && now <= FAR_FUTURE
    ensures var meta := Defaulted(MetaEvent(id, reason, number, updated), metaId, now, x => x);
            Submittable(meta) && Canonicalises(meta) && meta.id == metaId && meta.action == "chain.reanchored"
  {
    hide MetaDetails;
    MetaReadable(reason, number, updated);
  }

  lemma MetaReadable(reason: string, number: int, updated: nat)
    ensures Readable(MetaDetails(reason, number, updated)) && Representable(MetaDetails(reason, number, updated))
  {
    hide FormatInt, Spells, InRange;
    IntegerReadable(number);
    IntegerReadable(updated);
    var fields := MetaDetails(reason, number, updated).fields;
    forall k | k in fields ensures Readable(fields[k]) && Representable(fields[k]) {
      assert fields[k].String? || fields[k] == Number(FormatInt(number)) || fields[k] == Number(FormatInt(updated));
    }
  }

  lemma SameIdsKept(before: Rows, after: Rows, id: string)
    requires |before| == |after| && forall i :: 0 <= i < |before| ==> Recorded(after[i]) == Recorded(before[i])
    ensures HasId(after, id) <==> HasId(before, id)
  {
    forall i | 0 <= i < |before| ensures after[i].id == before[i].id {
      assert Recorded(after[i]).id == Recorded(before[i]).id;
    }
    if HasId(before, id) {
      var i :| 0 <= i < |before| && before[i].id == id;
      assert after[i].id == id;
    }
    if HasId(after, id) {
      var i :| 0 <= i < |after| && after[i].id == id;
      assert before[i].id == id;
    }
  }

  lemma AppendOne(rows: Rows, e: Event, tenant: string, next: int, sha: Canonical -> string, jsonb: Json -> Json)
    requires !HasId(rows, e.id) && Canonicalises(e)
    ensures Storable(rows, [e])
    ensures Extended(rows, [e], tenant, next, sha, jsonb) == rows + [Row(e, tenant, next, Previous(rows, |rows|), sha, jsonb)]
  {
    hide HasId, Row;
    ExtendedNext(rows, [e], tenant, next, sha, jsonb);
    NothingLeft(rows + [Row(e, tenant, next, Previous(rows, |rows|), sha, jsonb)], tenant, next + 1, sha, jsonb);
    assert [e][1..] == [];
  }

  lemma RepairedByOne(before: Rows, k: nat, anchored: Rows, after: Rows, meta: Event, tenant: string, next: int,
                      sha: Canonical -> string, jsonb: Json -> Json)
    requires k <= |before| && anchored == Reanchored(before, k, Previous(before, k), sha)
    requires after == anchored + [Row(meta, tenant, next, Previous(anchored, |anchored|), sha, jsonb)]
    requires Canonicalises(meta) && Faithful(jsonb)
    ensures Repaired(before, k, after, sha)
  {
    hide Ok, Row, Reanchored, Canonicalises, Faithful, Recorded;
    ReanchorEffect(before, k, sha);
    RowIsOk(anchored, meta, tenant, next, sha, jsonb);
    forall i | 0 <= i < k ensures after[i] == before[i] {
      assert anchored[..k][i] == before[..k][i];
    }
    forall i | 0 <= i < |before| ensures after[i] == anchored[i] {
    }
    assert forall i :: 0 <= i < |anchored| ==> (Ok(after, i, sha) <==> Ok(anchored, i, sha));
  }

  /** Over the whole history, a scan finds exactly the first break. */
  lemma FirstOf(rows: Rows, next: int, sha: Canonical -> string, v: VerifyResult) returns (k: nat)
    requires Stored(rows, next) && Shallow(rows, HISTORY_START, FAR_FUTURE, sha, |rows|, v)
    ensures v.valid <==> Intact(rows, sha)
    ensures !v.valid ==> FirstBreak(rows, k, sha) && k < |rows| && v.first == rows[k].id && HasId(rows, v.first)
  {
    hide Ok, Legible;
    ValidIffEachVerifies(rows, HISTORY_START, FAR_FUTURE, sha, v);
    FailingExactly(rows, HISTORY_START, FAR_FUTURE, sha, |rows|);
    FailingAscends(rows, HISTORY_START, FAR_FUTURE, sha, |rows|);
    var f := Failing(rows, HISTORY_START, FAR_FUTURE, sha, |rows|);
    k := if f == [] then 0 else f[0];
    if f != [] {
      assert f[0] in f;
      forall i: nat | i < k ensures Ok(rows, i, sha) {
        assert i !in f;
      }
    }
  }

  lemma RepairedIntact(before: Rows, k: nat, after: Rows, sha: Canonical -> string)
    requires Keyed(before) && FirstBreak(before, k, sha)
    requires exists j :: 0 <= j < |before| && before[j].id == before[k].id && Repaired(before, j, after, sha)
    ensures Repaired(before, k, after, sha) && Intact(after, sha) && !Intact(before, sha)
  {
    hide Ok;
  }

  lemma SameIds(a: seq<Event>, b: seq<Event>)
    requires |a| == |b| && forall i :: 0 <= i < |a| ==> a[i].id == b[i].id
    ensures Ids(a) == Ids(b)
  {
  }

  method FindIn(rows: Rows, id: string) returns (at: Option<nat>)
    ensures at.Some? ==> at.value < |rows| && rows[at.value].id == id
    ensures at == None <==> !HasId(rows, id)
  {
    for i := 0 to |rows|
      invariant !HasId(rows[..i], id)
    {
      assert rows[..i + 1] == rows[..i] + [rows[i]];
      if rows[i].id == id {
        return Some(i);
      }
    }
    assert rows[..|rows|] == rows;
    at := None;
  }

  lemma ExtendedNext(rows: Rows, batch: seq<Event>, tenant: string, next: int, sha: Canonical -> string, jsonb: Json -> Json)
    requires batch != []
    ensures Extended(rows, batch, tenant, next, sha, jsonb) ==
            if HasId(rows, batch[0].id) then Extended(rows, batch[1..], tenant, next, sha, jsonb)
            else Extended(rows + [Row(batch[0], tenant, next, Previous(rows, |rows|), sha, jsonb)],
                          batch[1..], tenant, next + 1, sha, jsonb)
  {
  }

  lemma NothingLeft(rows: Rows, tenant: string, next: int, sha: Canonical -> string, jsonb: Json -> Json)
    ensures Extended(rows, [], tenant, next, sha, jsonb) == rows && Storable(rows, [])
  {
  }

  lemma StoredHash(rows: Rows, i: nat)
    requires i < |rows|
    ensures HasHash(rows, rows[i])
  {
  }

  lemma HashesGrow(rows: Rows, row: Event, metadata: Json)
    ensures forall e :: HasHash(rows, e) ==> HasHash(rows + [row], e)
    ensures HasHash(rows + [row], row.(metadata := metadata))
  {
    var grown := rows + [row];
    assert grown[|rows|] == row;
    forall e | HasHash(rows, e) ensures HasHash(grown, e) {
      var i :| 0 <= i < |rows| && rows[i].id == e.id && rows[i].hash == e.hash;
      assert grown[i] == rows[i];
    }
  }

  lemma StoredLater(rows: Rows, next: int, later: int)
    requires Stored(rows, next) && next <= later
    ensures Stored(rows, later)
  {
  }

  lemma RowHash(e: Event, tenant: string, number: int, prev: string, sha: Canonical -> string, jsonb: Json -> Json)
    requires Readable(e.metadata)
    ensures Row(e, tenant, number, prev, sha, jsonb).hash == "" <==> !Canonicalises(e)
  {
    hide ComputeHash;
    HashText(e.(tenant := tenant, time := Micros(e.time), number := number, prevHash := prev), sha);
  }

  lemma RowStored(rows: Rows, e: Event, tenant: string, next: int, sha: Canonical -> string, jsonb: Json -> Json)
    requires Stored(rows, next) && !HasId(rows, e.id) && Submittable(e) && Canonicalises(e) && Faithful(jsonb)
    ensures Stored(rows + [Row(e, tenant, next, Previous(rows, |rows|), sha, jsonb)], next + 1)
  {
    hide Stored, Row, Readable, Representable;
    RowIsStored(rows, e, tenant, next, sha, jsonb);
  }

  /** The hash reported for an event is the one stored under its id. */
  predicate HasHash(rows: Rows, e: Event) {
    exists i :: 0 <= i < |rows| && rows[i].id == e.id && rows[i].hash == e.hash
  }

  /** What a scan that stops at the first failure says of the first `n` events. */
  ghost predicate Shallow(rows: Rows, from: int, to: int, sha: Canonical -> string, n: nat, res: VerifyResult)
    requires n <= |rows|
  {
    var f := Failing(rows, from, to, sha, n);
    && (res.valid <==> f == [])
    && res.checked == InWindow(rows, from, to, n)
    && res.first == (if f == [] then "" else rows[f[0]].id)
    && res.reason == (if f == [] then "" else Reason(rows, f[0]))
    && res.root == LastGood(rows, from, to, sha, if f == [] then n else f[0])
  }

  /** What a scan of everything says of the first `n` events. */
  ghost predicate Deep(rows: Rows, from: int, to: int, sha: Canonical -> string, n: nat, res: VerifyResult)
    requires n <= |rows|
  {
    var f := Failing(rows, from, to, sha, n);
    && (res.valid <==> f == [])
    && res.checked == InWindow(rows, from, to, n)
    && |res.broken| == |f| && (forall k :: 0 <= k < |f| ==> res.broken[k] == Reported(rows, f[k], sha))
    && res.root == LastGood(rows, from, to, sha, n)
  }

  lemma NothingScanned(rows: Rows, from: int, to: int, sha: Canonical -> string, res: VerifyResult)
    requires res == VerifyResult(true, 0, "", from, to, "", "", [])
    ensures Shallow(rows, from, to, sha, 0, res) && Deep(rows, from, to, sha, 0, res)
  {
  }

  lemma ShallowNext(rows: Rows, from: int, to: int, sha: Canonical -> string, n: nat, res: VerifyResult)
    requires n < |rows| && Shallow(rows, from, to, sha, n, res)
    ensures var c := res.(checked := res.checked + 1);
            Shallow(rows, from, to, sha, n + 1,
                    if !Inside(rows[n], from, to) then res
                    else if !res.valid then c
                    else if !LinkOk(rows, n) then c.(valid := false, first := rows[n].id, reason := "prev_hash mismatch")
                    else if !HashOk(rows, n, sha) then c.(valid := false, first := rows[n].id, reason := "hash mismatch")
                    else c.(root := rows[n].hash))
  {
    hide LinkOk, HashOk, Inside, InWindow, Failing;
    CountNext(rows, from, to, n);
    FirstNext(rows, from, to, sha, n);
  }

  lemma FirstNext(rows: Rows, from: int, to: int, sha: Canonical -> string, n: nat)
    requires n < |rows|
    ensures var f, g := Failing(rows, from, to, sha, n), Failing(rows, from, to, sha, n + 1);
            if f != [] then g != [] && g[0] == f[0]
            else g == if Inside(rows[n], from, to) && !Ok(rows, n, sha) then [n] else []
  {
    hide Ok, Inside;
  }

  lemma CountNext(rows: Rows, from: int, to: int, n: nat)
    requires n < |rows|
    ensures InWindow(rows, from, to, n + 1) == InWindow(rows, from, to, n) + if Inside(rows[n], from, to) then 1 else 0
  {
  }

  lemma DeepNext(rows: Rows, from: int, to: int, sha: Canonical -> string, n: nat, res: VerifyResult)
    requires n < |rows| && Deep(rows, from, to, sha, n, res)
    ensures var c := res.(checked := res.checked + 1);
            var e := rows[n];
            Deep(rows, from, to, sha, n + 1,
                 if !Inside(e, from, to) then res
                 else if LinkOk(rows, n) && HashOk(rows, n, sha) then c.(root := e.hash)
                 else c.(valid := false,
                         broken := res.broken + [BrokenEvent(e.id, e.number, e.time, e.action, e.actor.id,
                                                             if !HashOk(rows, n, sha) then "hash mismatch" else "prev_hash mismatch")]))
  {
    hide LinkOk, HashOk, Inside;
  }

  lemma DeepIgnoresFirst(rows: Rows, from: int, to: int, sha: Canonical -> string, res: VerifyResult)
    requires Deep(rows, from, to, sha, |rows|, res)
    ensures forall id, reason :: Deep(rows, from, to, sha, |rows|, res.(first := id, reason := reason))
  {
  }

  /** The two scans agree on validity, count and first failure; on its reason, unless it fails both ways. */
  lemma ScansAgree(rows: Rows, from: int, to: int, sha: Canonical -> string, one: VerifyResult, all: VerifyResult)
    requires Shallow(rows, from, to, sha, |rows|, one) && Deep(rows, from, to, sha, |rows|, all)
    ensures one.valid == all.valid && one.checked == all.checked && (one.valid <==> all.broken == [])
    ensures !one.valid ==> one.first == all.broken[0].id
    ensures !one.valid ==>
              var i := Failing(rows, from, to, sha, |rows|)[0];
              one.reason == all.broken[0].reason <==> LinkOk(rows, i) || HashOk(rows, i, sha)
  {
    hide LinkOk, HashOk;
    FailingExactly(rows, from, to, sha, |rows|);
    var f := Failing(rows, from, to, sha, |rows|);
    if f != [] {
      assert f[0] in f;
      ReasonsAgree(rows, f[0], sha);
    }
  }

  /** Whatever an event says, a chain of it alone with a false link and a false hash is
      reported for its link by one scan and for its hash by the other. */
  lemma ReasonsDiffer(e: Event, from: int, to: int, sha: Canonical -> string, one: VerifyResult, all: VerifyResult)
    returns (rows: Rows)
    requires Inside(e, from, to)
    ensures |rows| == 1 && Recorded(rows[0]) == Recorded(e)
    ensures Shallow(rows, from, to, sha, 1, one) && Deep(rows, from, to, sha, 1, all) ==>
              one.reason == "prev_hash mismatch" && all.broken[0].reason == "hash mismatch"
  {
    hide ComputeHash;
    var linked := e.(prevHash := GENESIS + "!");
    var x := linked.(hash := ComputeHash(linked, sha) + "!");
    HashIgnoresDigest(linked, x.hash, sha);
    rows := [x];
    assert !LinkOk(rows, 0) && !HashOk(rows, 0, sha);
    assert Failing(rows, from, to, sha, 0) == [] && Failing(rows, from, to, sha, 1) == [0];
  }

  /** `at` lists the events of the window that fail, in chain order. */
  ghost predicate FailsAt(rows: Rows, from: int, to: int, sha: Canonical -> string, at: seq<nat>) {
    Increasing(at) && forall i: nat :: i in at <==>
      i < |rows| && from <= rows[i].time <= to && !(rows[i].prevHash == Previous(rows, i) && rows[i].hash == ComputeHash(rows[i], sha))
  }

  /** The hash of the latest event of the window before `n` that verifies; nothing if there is none. */
  ghost predicate RootBefore(rows: Rows, from: int, to: int, sha: Canonical -> string, n: nat, root: string)
    requires n <= |rows|
  {
    || (root == "" && forall i :: 0 <= i < n && Inside(rows[i], from, to) ==> !Ok(rows, i, sha))
    || exists i :: 0 <= i < n && Inside(rows[i], from, to) && Ok(rows, i, sha) && root == rows[i].hash
                   && forall j :: i < j < n && Inside(rows[j], from, to) ==> !Ok(rows, j, sha)
  }

  lemma {:induction false} LastGoodIs(rows: Rows, from: int, to: int, sha: Canonical -> string, n: nat)
    requires n <= |rows|
    ensures RootBefore(rows, from, to, sha, n, LastGood(rows, from, to, sha, n))
    decreases n
  {
    hide Ok, Inside;
    if n > 0 {
      LastGoodIs(rows, from, to, sha, n - 1);
    }
  }

  function Within(rows: Rows, from: int, to: int, n: nat): set<int>
    requires n <= |rows|
  {
    set i | 0 <= i < n && from <= rows[i].time <= to
  }

  lemma {:induction false} InWindowIsCount(rows: Rows, from: int, to: int, n: nat)
    requires n <= |rows|
    ensures InWindow(rows, from, to, n) == |Within(rows, from, to, n)|
    decreases n
  {
    if n == 0 {
      assert Within(rows, from, to, n) == {};
    } else {
      InWindowIsCount(rows, from, to, n - 1);
      assert Within(rows, from, to, n) == Within(rows, from, to, n - 1) + if Inside(rows[n - 1], from, to) then {n - 1} else {};
    }
  }

  lemma FailingFailsAt(rows: Rows, from: int, to: int, sha: Canonical -> string)
    ensures FailsAt(rows, from, to, sha, Failing(rows, from, to, sha, |rows|))
  {
    hide ComputeHash;
    FailingExactly(rows, from, to, sha, |rows|);
    FailingAscends(rows, from, to, sha, |rows|);
  }

  /** What the scan that stops judging at the first failure reports. */
  lemma ShallowSays(rows: Rows, from: int, to: int, sha: Canonical -> string, res: VerifyResult) returns (at: seq<nat>)
    requires Shallow(rows, from, to, sha, |rows|, res)
    ensures FailsAt(rows, from, to, sha, at) && (res.valid <==> at == [])
    ensures res.checked == |Within(rows, from, to, |rows|)|
    ensures at == [] ==> res.first == res.reason == "" && RootBefore(rows, from, to, sha, |rows|, res.root)
    ensures at != [] ==>
              && at[0] < |rows| && res.first == rows[at[0]].id && RootBefore(rows, from, to, sha, at[0], res.root)
              && res.reason == if rows[at[0]].prevHash != Previous(rows, at[0]) then "prev_hash mismatch" else "hash mismatch"
  {
    hide ComputeHash, RootBefore, Inside;
    at := Failing(rows, from, to, sha, |rows|);
    FailingFailsAt(rows, from, to, sha);
    InWindowIsCount(rows, from, to, |rows|);
    LastGoodIs(rows, from, to, sha, if at == [] then |rows| else at[0]);
  }

  /** What the scan that judges every event reports. */
  lemma DeepSays(rows: Rows, from: int, to: int, sha: Canonical -> string, res: VerifyResult) returns (at: seq<nat>)
    requires Deep(rows, from, to, sha, |rows|, res)
    ensures FailsAt(rows, from, to, sha, at) && (res.valid <==> at == []) && |res.broken| == |at|
    ensures res.checked == |Within(rows, from, to, |rows|)|
    ensures RootBefore(rows, from, to, sha, |rows|, res.root)
    ensures forall k :: 0 <= k < |at| ==>
              at[k] < |rows| &&
              var b, e := res.broken[k], rows[at[k]];
              && b.id == e.id && b.number == e.number && b.time == e.time && b.action == e.action && b.actor == e.actor.id
              && b.reason == if e.hash != ComputeHash(e, sha) then "hash mismatch" else "prev_hash mismatch"
  {
    hide ComputeHash, RootBefore, Inside;
    at := Failing(rows, from, to, sha, |rows|);
    FailingFailsAt(rows, from, to, sha);
    InWindowIsCount(rows, from, to, |rows|);
    LastGoodIs(rows, from, to, sha, |rows|);
  }

  /** A window is valid exactly when every event in it verifies on its own. */
  lemma ValidIffEachVerifies(rows: Rows, from: int, to: int, sha: Canonical -> string, res: VerifyResult)
    requires Shallow(rows, from, to, sha, |rows|, res)
    ensures res.valid <==> forall i :: 0 <= i < |rows| && Inside(rows[i], from, to) ==> Ok(rows, i, sha)
  {
    hide Ok;
    FailingExactly(rows, from, to, sha, |rows|);
    var f := Failing(rows, from, to, sha, |rows|);
    if f != [] {
      assert f[0] in f;
    }
    forall i | 0 <= i < |rows| && Inside(rows[i], from, to) && !Ok(rows, i, sha) ensures f != [] {
      assert i in f;
    }
  }
}

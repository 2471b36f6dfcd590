/** An append running beside a re-anchoring. The two take different advisory locks,
    so either may read before the other has written. Each statement sees what is
    committed when it starts. */
module AuditRace {
  import opened Wrappers
  import opened CanonicalJson
  import opened AuditHash
  import opened AuditChain
  import opened AuditService

  /** The append reads the chain's head and inserts its rows; the re-anchoring reads
      the rows from its start on and patches their hashes, and an event recording it is
      appended afterwards. */
  datatype Turn = ReadHead | Insert | ReadRows | Patch | Record

  datatype Race = Race(rows: Rows, head: Option<string>, patch: Option<Rows>)

  /** New events as rows, the first linked to `prev`. */
  function LinkedTo(prev: string, batch: seq<Event>, tenant: string, next: int, sha: Canonical -> string, jsonb: Json -> Json): Rows
    decreases |batch|
  {
    if batch == [] then []
    else
      var row := Row(batch[0], tenant, next, prev, sha, jsonb);
      [row] + LinkedTo(row.hash, batch[1..], tenant, next + 1, sha, jsonb)
  }

  /** What the transactions were given. */
  datatype Job = Job(k: nat, start: string, batch: seq<Event>, tenant: string, next: int,
                     record: Event, noted: int, sha: Canonical -> string, jsonb: Json -> Json)

  predicate Possible(r: Race, t: Turn) {
    (t.Insert? ==> r.head.Some?) && (t.Patch? ==> r.patch.Some? && |r.patch.value| <= |r.rows|)
  }

  function Take(r: Race, t: Turn, job: Job): Race
    requires Possible(r, t)
  {
    match t
    case ReadHead => r.(head := Some(Previous(r.rows, |r.rows|)))
    case Insert => r.(rows := r.rows + LinkedTo(r.head.value, job.batch, job.tenant, job.next, job.sha, job.jsonb))
    case ReadRows => r.(patch := Some(Reanchored(r.rows, job.k, job.start, job.sha)))
    case Patch => r.(rows := r.patch.value + r.rows[|r.patch.value|..])
    case Record =>
      r.(rows := r.rows + LinkedTo(Previous(r.rows, |r.rows|), [job.record], job.tenant, job.noted, job.sha, job.jsonb))
  }

  predicate Runs(r: Race, turns: seq<Turn>, job: Job, r': Race)
    decreases turns
  {
    if turns == [] then r == r'
    else Possible(r, turns[0]) && Runs(Take(r, turns[0], job), turns[1..], job, r')
  }

  /** The orders in which the four turns may fall. */
  predicate Schedule(turns: seq<Turn>) {
    || turns == [ReadHead, Insert, ReadRows, Patch]
    || turns == [ReadRows, Patch, ReadHead, Insert]
    || Overlapping(turns)
  }

  /** Each transaction reads before the other has written. */
  predicate Overlapping(turns: seq<Turn>) {
    || turns == [ReadHead, ReadRows, Insert, Patch]
    || turns == [ReadHead, ReadRows, Patch, Insert]
    || turns == [ReadRows, ReadHead, Insert, Patch]
    || turns == [ReadRows, ReadHead, Patch, Insert]
  }

  /** Those are all the orders of the four turns in which each reads before it writes. */
  lemma SchedulesAreAll(turns: seq<Turn>)
    ensures Schedule(turns) <==>
            && |turns| == 4
            && (exists i, j :: 0 <= i < j < 4 && turns[i] == ReadHead && turns[j] == Insert)
            && (exists i, j :: 0 <= i < j < 4 && turns[i] == ReadRows && turns[j] == Patch)
  {
    if Schedule(turns) {
      var h, n := if turns[0] == ReadHead then 0 else if turns[1] == ReadHead then 1 else 2,
                  if turns[1] == Insert then 1 else if turns[2] == Insert then 2 else 3;
      assert turns[h] == ReadHead && turns[n] == Insert;
      var q, p := if turns[0] == ReadRows then 0 else if turns[1] == ReadRows then 1 else 2,
                  if turns[1] == Patch then 1 else if turns[2] == Patch then 2 else 3;
      assert turns[q] == ReadRows && turns[p] == Patch;
    }
    if |turns| == 4
      && (exists i, j :: 0 <= i < j < 4 && turns[i] == ReadHead && turns[j] == Insert)
      && (exists i, j :: 0 <= i < j < 4 && turns[i] == ReadRows && turns[j] == Patch) {
      assert turns == [turns[0], turns[1], turns[2], turns[3]];
    }
  }

  // ---- Rows linked to a head ----

  lemma {:induction false} LinkedVerifies(rows: Rows, prev: string, batch: seq<Event>, tenant: string, next: int,
                                          sha: Canonical -> string, jsonb: Json -> Json)
    requires Faithful(jsonb) && forall e :: e in batch ==> Canonicalises(e)
    ensures var out := rows + LinkedTo(prev, batch, tenant, next, sha, jsonb);
            && (batch != [] ==> |rows| < |out| && (Ok(out, |rows|, sha) <==> prev == Previous(rows, |rows|)))
            && (forall i :: |rows| < i < |out| ==> Ok(out, i, sha))
            && (forall i :: 0 <= i < |rows| ==> (Ok(out, i, sha) <==> Ok(rows, i, sha)))
    decreases |batch|
  {
    hide Canonicalises, Faithful, Row, ComputeHash;
    if batch == [] {
      assert rows + [] == rows;
    } else {
      var row := Row(batch[0], tenant, next, prev, sha, jsonb);
      RowHashes(batch[0], tenant, next, prev, sha, jsonb);
      var more := rows + [row];
      LinkedVerifies(more, row.hash, batch[1..], tenant, next + 1, sha, jsonb);
      assert more + LinkedTo(row.hash, batch[1..], tenant, next + 1, sha, jsonb)
          == rows + LinkedTo(prev, batch, tenant, next, sha, jsonb);
      assert more[|rows|] == row;
      assert forall i :: 0 <= i < |rows| ==> (Ok(more, i, sha) <==> Ok(rows, i, sha));
    }
  }

  lemma RowHashes(e: Event, tenant: string, number: int, prev: string, sha: Canonical -> string, jsonb: Json -> Json)
    requires Faithful(jsonb) && Canonicalises(e)
    ensures var row := Row(e, tenant, number, prev, sha, jsonb);
            row.prevHash == prev && row.hash == ComputeHash(row, sha)
  {
    hide ComputeHash, Readable, Representable, Same;
    var linked := e.(tenant := tenant, time := Micros(e.time), number := number, prevHash := prev);
    var hashed := linked.(hash := ComputeHash(linked, sha));
    HashIgnoresDigest(linked, hashed.hash, sha);
    SpellingKeepsHash(hashed, jsonb(e.metadata), sha);
  }

  lemma OneThenOthers(rows: Rows, row: Event, more: Rows)
    ensures rows + [row] + more == rows + ([row] + more)
  {
  }

  /** Alone, an append of new events does just that to the head it finds. */
  lemma {:induction false} AloneExtends(rows: Rows, batch: seq<Event>, tenant: string, next: int,
                                        sha: Canonical -> string, jsonb: Json -> Json)
    requires forall i, j :: 0 <= i < j < |batch| ==> batch[i].id != batch[j].id
    requires forall e :: e in batch ==> !HasId(rows, e.id)
    ensures Extended(rows, batch, tenant, next, sha, jsonb)
         == rows + LinkedTo(Previous(rows, |rows|), batch, tenant, next, sha, jsonb)
    decreases |batch|
  {
    hide Row, HasId, Extended;
    if batch == [] {
      NothingLeft(rows, tenant, next, sha, jsonb);
      assert rows + [] == rows;
    } else {
      ExtendedNext(rows, batch, tenant, next, sha, jsonb);
      assert batch[0] in batch;
      var row := Row(batch[0], tenant, next, Previous(rows, |rows|), sha, jsonb);
      RowId(batch[0], tenant, next, Previous(rows, |rows|), sha, jsonb);
      var more, rest := rows + [row], batch[1..];
      HasIdMore(rows, row);
      assert more[|rows|] == row;
      forall e | e in rest ensures !HasId(more, e.id) {
        var i :| 0 <= i < |rest| && rest[i] == e;
        assert batch[i + 1] == e;
      }
      AloneExtends(more, rest, tenant, next + 1, sha, jsonb);
      OneThenOthers(rows, row, LinkedTo(row.hash, rest, tenant, next + 1, sha, jsonb));
    }
  }

  // ---- The outcome of each order ----

  ghost predicate Fair(rows: Rows, job: Job) {
    && job.k < |rows| && job.start == Previous(rows, job.k)
    && Faithful(job.jsonb) && forall e :: e in job.batch ==> Canonicalises(e)
  }

  function Mended(rows: Rows, job: Job): Rows {
    Reanchored(rows, job.k, job.start, job.sha)
  }

  function Appended(rows: Rows, head: string, job: Job): Rows {
    rows + LinkedTo(head, job.batch, job.tenant, job.next, job.sha, job.jsonb)
  }

  function Outcome(rows: Rows, turns: seq<Turn>, job: Job): Rows {
    if turns == [ReadHead, Insert, ReadRows, Patch] then Mended(Appended(rows, Root(rows), job), job)
    else Appended(Mended(rows, job), if Overlapping(turns) then Root(rows) else Root(Mended(rows, job)), job)
  }

  lemma MendedLength(rows: Rows, job: Job)
    requires job.k < |rows| && job.start == Previous(rows, job.k)
    ensures |Mended(rows, job)| == |rows|
  {
    ReanchorEffect(rows, job.k, job.sha);
  }

  lemma FourTurns(r: Race, turns: seq<Turn>, job: Job, r': Race)
    requires |turns| == 4 && Runs(r, turns, job, r')
    ensures Possible(r, turns[0])
    ensures var r1 := Take(r, turns[0], job);
            Possible(r1, turns[1]) &&
            var r2 := Take(r1, turns[1], job);
            Possible(r2, turns[2]) &&
            var r3 := Take(r2, turns[2], job);
            Possible(r3, turns[3]) && r' == Take(r3, turns[3], job)
  {
    hide Take, Possible;
    var a, b, c, d := turns[0], turns[1], turns[2], turns[3];
    assert turns[1..] == [b, c, d] && [b, c, d][1..] == [c, d] && [c, d][1..] == [d] && [d][1..] == [];
    var r1 := Take(r, a, job);
    assert Runs(r1, [b, c, d], job, r');
    var r2 := Take(r1, b, job);
    assert Runs(r2, [c, d], job, r');
    var r3 := Take(r2, c, job);
    assert Runs(r3, [d], job, r');
    assert Runs(Take(r3, d, job), [], job, r');
  }

  /** Any run of the four turns ends in the outcome of its order. */
  lemma RaceOutcome(rows: Rows, turns: seq<Turn>, job: Job, r': Race)
    requires Fair(rows, job) && Schedule(turns) && Runs(Race(rows, None, None), turns, job, r')
    ensures r'.rows == Outcome(rows, turns, job)
  {
    hide Take, Outcome, Fair, Runs;
    FourTurns(Race(rows, None, None), turns, job, r');
    if turns == [ReadHead, Insert, ReadRows, Patch] {
      AppendFirst(rows, job, r');
    } else if turns == [ReadRows, Patch, ReadHead, Insert] {
      ReanchorFirst(rows, job, r');
    } else {
      BothRead(rows, turns, job, r');
    }
  }

  lemma AppendFirst(rows: Rows, job: Job, r': Race)
    requires Fair(rows, job) && Runs(Race(rows, None, None), [ReadHead, Insert, ReadRows, Patch], job, r')
    ensures r'.rows == Outcome(rows, [ReadHead, Insert, ReadRows, Patch], job)
  {
    hide Canonicalises, Faithful, Runs;
    FourTurns(Race(rows, None, None), [ReadHead, Insert, ReadRows, Patch], job, r');
    var all := Appended(rows, Root(rows), job);
    MendedLength(all, job);
    AfterRows(all, Mended(all, job), []);
  }

  lemma ReanchorFirst(rows: Rows, job: Job, r': Race)
    requires Fair(rows, job) && Runs(Race(rows, None, None), [ReadRows, Patch, ReadHead, Insert], job, r')
    ensures r'.rows == Outcome(rows, [ReadRows, Patch, ReadHead, Insert], job)
  {
    hide Canonicalises, Faithful, Runs;
    FourTurns(Race(rows, None, None), [ReadRows, Patch, ReadHead, Insert], job, r');
    MendedLength(rows, job);
    AfterRows(rows, Mended(rows, job), []);
  }

  lemma BothRead(rows: Rows, turns: seq<Turn>, job: Job, r': Race)
    requires Fair(rows, job) && Overlapping(turns) && Runs(Race(rows, None, None), turns, job, r')
    ensures r'.rows == Outcome(rows, turns, job)
  {
    hide Canonicalises, Faithful, Runs;
    FourTurns(Race(rows, None, None), turns, job, r');
    MendedLength(rows, job);
    AfterRows(rows, Mended(rows, job), LinkedTo(Root(rows), job.batch, job.tenant, job.next, job.sha, job.jsonb));
  }

  /** Patching the rows that were read leaves those inserted since. */
  lemma AfterRows(rows: Rows, fixed: Rows, more: Rows)
    requires |fixed| == |rows|
    ensures fixed + (rows + more)[|fixed|..] == fixed + more && fixed + rows[|fixed|..] == fixed
  {
    assert (rows + more)[|fixed|..] == more;
  }

  /** Every order of the turns can be run. */
  lemma RaceRuns(rows: Rows, turns: seq<Turn>, job: Job) returns (r': Race)
    requires Fair(rows, job) && Schedule(turns)
    ensures Runs(Race(rows, None, None), turns, job, r')
  {
    hide Reanchored, LinkedTo, Canonicalises, Faithful;
    MendedLength(rows, job);
    MendedLength(Appended(rows, Root(rows), job), job);
    var a, b, c, d := turns[0], turns[1], turns[2], turns[3];
    assert turns[1..] == [b, c, d] && [b, c, d][1..] == [c, d] && [c, d][1..] == [d] && [d][1..] == [];
    var r0 := Race(rows, None, None);
    var r1 := Take(r0, a, job);
    var r2 := Take(r1, b, job);
    var r3 := Take(r2, c, job);
    r' := Take(r3, d, job);
    assert Runs(r', [], job, r') && Runs(r3, [d], job, r') && Runs(r2, [c, d], job, r') && Runs(r1, [b, c, d], job, r');
  }

  /** The chain is intact afterwards exactly when the events before the start verify, and the
      append linked to a hash that is still the head's: it appended nothing, or the transactions
      did not overlap, or re-anchoring left the last hash as it was. */
  lemma RaceIntactIff(rows: Rows, turns: seq<Turn>, job: Job, r': Race)
    requires Fair(rows, job) && Schedule(turns) && Runs(Race(rows, None, None), turns, job, r')
    ensures Intact(r'.rows, job.sha) <==>
            && (forall i :: 0 <= i < job.k ==> Ok(rows, i, job.sha))
            && (job.batch == [] || !Overlapping(turns) || Root(Mended(rows, job)) == Root(rows))
  {
    hide Ok, Runs, Faithful, Canonicalises;
    RaceOutcome(rows, turns, job, r');
    ReanchorEffect(rows, job.k, job.sha);
    var fixed := Mended(rows, job);
    if turns == [ReadHead, Insert, ReadRows, Patch] {
      var all := Appended(rows, Root(rows), job);
      assert Previous(all, job.k) == job.start;
      LinkedVerifies(rows, Root(rows), job.batch, job.tenant, job.next, job.sha, job.jsonb);
      ReanchorRepairs(all, job.k, job.sha);
    } else {
      var head := if Overlapping(turns) then Root(rows) else Root(fixed);
      ReanchorRepairs(rows, job.k, job.sha);
      LinkedVerifies(fixed, head, job.batch, job.tenant, job.next, job.sha, job.jsonb);
      AppendedIntact(fixed, head, job);
    }
  }

  lemma AppendedIntact(rows: Rows, head: string, job: Job)
    requires rows != [] && Faithful(job.jsonb) && forall e :: e in job.batch ==> Canonicalises(e)
    ensures Intact(Appended(rows, head, job), job.sha) <==>
            Intact(rows, job.sha) && (job.batch == [] || head == Root(rows))
  {
    hide Ok, Faithful, Canonicalises;
    LinkedVerifies(rows, head, job.batch, job.tenant, job.next, job.sha, job.jsonb);
    var out := Appended(rows, head, job);
    if job.batch == [] {
      assert out == rows;
    } else {
      assert Intact(out, job.sha) ==> Ok(out, |rows|, job.sha);
      forall i | 0 <= i < |rows| ensures Ok(out, i, job.sha) <==> Ok(rows, i, job.sha) {
      }
      if Intact(rows, job.sha) && head == Root(rows) {
        forall i | 0 <= i < |out| ensures Ok(out, i, job.sha) {
          assert i < |rows| || i == |rows| || |rows| < i;
        }
      }
    }
  }

  // ---- When the head's hash moves ----

  lemma RelinkedHash(a: Event, b: Event, sha: Canonical -> string)
    requires Injective(sha) && Canonicalises(a) && Recorded(a) == Recorded(b)
    ensures ComputeHash(a, sha) == ComputeHash(b, sha) <==> a.prevHash == b.prevHash
  {
    hide ComputeHash, Readable, Representable, Same, Rewrite;
    RewriteKeepsValue(a.metadata);
    assert Recorded(a).id == Recorded(b).id && Recorded(a).metadata == Recorded(b).metadata;
    SameHashIffSameContent(a, b, sha);
    SameFormIffSameValue(a.metadata, a.metadata);
  }

  /** Re-anchoring leaves the last hash as it was exactly when it leaves that of `j`, if every
      event after `j` verifies: a hash that moves moves every later one. */
  lemma {:induction false} RootMovesIff(rows: Rows, k: nat, j: nat, n: nat, sha: Canonical -> string)
    requires Injective(sha) && AllCanonicalise(rows) && k <= j <= n < |rows|
    requires forall i :: j < i < |rows| ==> Ok(rows, i, sha)
    ensures var out := Reanchored(rows, k, Previous(rows, k), sha);
            |out| == |rows| && (out[n].hash == rows[n].hash <==> out[j].hash == rows[j].hash)
    decreases n
  {
    hide ComputeHash, Canonicalises, Injective;
    ReanchorEffect(rows, k, sha);
    var out := Reanchored(rows, k, Previous(rows, k), sha);
    if j < n {
      RootMovesIff(rows, k, j, n - 1, sha);
      assert Ok(out, n, sha) && Ok(rows, n, sha) && Canonicalises(rows[n]);
      RelinkedHash(rows[n], out[n], sha);
    }
  }

  /** The stored hash of `k` is that of its content behind its predecessor: at most its link is false. */
  predicate HashOfRightLink(rows: Rows, k: nat, sha: Canonical -> string)
    requires k < |rows|
  {
    rows[k].hash == ComputeHash(rows[k].(prevHash := Previous(rows, k)), sha)
  }

  lemma StartHash(rows: Rows, k: nat, sha: Canonical -> string)
    requires k < |rows|
    ensures var out := Reanchored(rows, k, Previous(rows, k), sha);
            |out| == |rows| && (out[k].hash == rows[k].hash <==> HashOfRightLink(rows, k, sha))
  {
    hide ComputeHash;
    ReanchorEffect(rows, k, sha);
    var out := Reanchored(rows, k, Previous(rows, k), sha);
    assert Ok(out, k, sha);
    assert k > 0 ==> out[k - 1] == out[..k][k - 1] == rows[..k][k - 1] == rows[k - 1];
    var linked := rows[k].(prevHash := Previous(rows, k));
    assert Recorded(out[k]) == Recorded(rows[k]);
    assert out[k] == linked.(hash := out[k].hash);
    HashIgnoresDigest(linked, out[k].hash, sha);
  }

  /** Re-anchoring from an event after which every event verifies, beside an append that
      read before it wrote: the chain is broken afterwards unless only the link of that
      event was false. */
  lemma OverlapIntactIff(rows: Rows, turns: seq<Turn>, job: Job, r': Race)
    requires Fair(rows, job) && Overlapping(turns) && Runs(Race(rows, None, None), turns, job, r')
    requires job.batch != [] && Injective(job.sha) && AllCanonicalise(rows)
    requires forall i :: job.k < i < |rows| ==> Ok(rows, i, job.sha)
    ensures Intact(r'.rows, job.sha) <==>
            (forall i :: 0 <= i < job.k ==> Ok(rows, i, job.sha)) && HashOfRightLink(rows, job.k, job.sha)
    ensures LinkOk(rows, job.k) != HashOk(rows, job.k, job.sha) ==> !Intact(r'.rows, job.sha)
  {
    hide Ok, Runs, Faithful, Canonicalises, ComputeHash, Intact, Injective;
    RaceIntactIff(rows, turns, job, r');
    MendedLength(rows, job);
    RootMovesIff(rows, job.k, job.k, |rows| - 1, job.sha);
    StartHash(rows, job.k, job.sha);
    LinkOrHashFalse(rows, job.k, job.sha);
  }

  lemma LinkOrHashFalse(rows: Rows, k: nat, sha: Canonical -> string)
    requires Injective(sha) && AllCanonicalise(rows) && k < |rows|
    ensures LinkOk(rows, k) != HashOk(rows, k, sha) ==> !HashOfRightLink(rows, k, sha)
  {
    hide ComputeHash, Canonicalises, Injective;
    var linked := rows[k].(prevHash := Previous(rows, k));
    assert Canonicalises(rows[k]);
    RelinkedHash(rows[k], linked, sha);
    assert LinkOk(rows, k) ==> linked == rows[k];
  }

  /** Whatever event it holds, a chain of one event with a false hash is broken after any
      overlapping run, though re-anchoring alone would have repaired it. */
  lemma OverlapBreaks(e: Event, turns: seq<Turn>, job: Job) returns (rows: Rows, r': Race)
    requires job.k == 0 && job.start == GENESIS && job.batch != [] && Overlapping(turns)
    requires Faithful(job.jsonb) && forall x :: x in job.batch ==> Canonicalises(x)
    ensures |rows| == 1 && Recorded(rows[0]) == Recorded(e) && LinkOk(rows, 0)
    ensures Fair(rows, job) && Runs(Race(rows, None, None), turns, job, r')
    ensures !Intact(r'.rows, job.sha) && Intact(Mended(rows, job), job.sha)
  {
    hide ComputeHash, Runs, Faithful, Canonicalises, Intact, Reanchored;
    var linked := e.(prevHash := GENESIS);
    var x := linked.(hash := ComputeHash(linked, job.sha) + "!");
    HashIgnoresDigest(linked, x.hash, job.sha);
    rows := [x];
    assert LinkOk(rows, 0) && !HashOk(rows, 0, job.sha);
    r' := RaceRuns(rows, turns, job);
    RaceIntactIff(rows, turns, job, r');
    ReanchorRepairs(rows, 0, job.sha);
    MendedLength(rows, job);
    StartHash(rows, 0, job.sha);
  }

  // ---- With the event that records the re-anchoring ----

  /** What the append of the recording event is given. */
  function Note(job: Job): Job {
    job.(batch := [job.record], next := job.noted)
  }

  /** The orders of all five turns: the recording event is appended after the patch, in one
      turn, since its transaction and the other append take one lock. */
  predicate Whole(turns: seq<Turn>) {
    || turns == [ReadRows, Patch, Record, ReadHead, Insert]
    || (|turns| == 5 && Schedule(turns[..4]) && turns[4] == Record)
  }

  lemma {:induction false} RunsSplit(r: Race, a: seq<Turn>, b: seq<Turn>, job: Job, r': Race) returns (mid: Race)
    requires Runs(r, a + b, job, r')
    ensures Runs(r, a, job, mid) && Runs(mid, b, job, r')
    decreases a
  {
    hide Take, Possible;
    if a == [] {
      assert a + b == b;
      mid := r;
    } else {
      assert (a + b)[1..] == a[1..] + b;
      mid := RunsSplit(Take(r, a[0], job), a[1..], b, job, r');
    }
  }

  lemma RecordTurn(r: Race, job: Job, r': Race)
    requires Runs(r, [Record], job, r')
    ensures r' == r.(rows := Appended(r.rows, Previous(r.rows, |r.rows|), Note(job)))
  {
    hide LinkedTo, Previous;
    assert [Record][1..] == [];
  }

  /** The recording event changes no verdict: the chain is intact after all five turns exactly
      when it is after the four, in the same order. */
  lemma RecordedIntactIff(rows: Rows, turns: seq<Turn>, job: Job, r': Race)
    requires Fair(rows, job) && Canonicalises(job.record)
    requires Whole(turns) && Runs(Race(rows, None, None), turns, job, r')
    ensures Intact(r'.rows, job.sha) <==>
            && (forall i :: 0 <= i < job.k ==> Ok(rows, i, job.sha))
            && (job.batch == [] || !Overlapping(turns[..4]) || Root(Mended(rows, job)) == Root(rows))
  {
    hide Ok, Runs, Faithful, Canonicalises, Intact;
    var r := Race(rows, None, None);
    if turns == [ReadRows, Patch, Record, ReadHead, Insert] {
      assert turns == [ReadRows, Patch] + ([Record] + [ReadHead, Insert]);
      assert turns[..4] == [ReadRows, Patch, Record, ReadHead];
      RecordedBetween(rows, job, r');
    } else {
      assert turns == turns[..4] + [Record];
      var mid := RunsSplit(r, turns[..4], [Record], job, r');
      RaceIntactIff(rows, turns[..4], job, mid);
      RaceOutcome(rows, turns[..4], job, mid);
      OutcomeLength(rows, turns[..4], job);
      RecordTurn(mid, job, r');
      AppendedIntact(mid.rows, Root(mid.rows), Note(job));
    }
  }

  lemma OutcomeLength(rows: Rows, turns: seq<Turn>, job: Job)
    requires Fair(rows, job)
    ensures Outcome(rows, turns, job) != []
  {
    hide Canonicalises, Faithful, Reanchored, LinkedTo;
    MendedLength(rows, job);
    MendedLength(Appended(rows, Root(rows), job), job);
  }

  lemma RecordedBetween(rows: Rows, job: Job, r': Race)
    requires Fair(rows, job) && Canonicalises(job.record)
    requires Runs(Race(rows, None, None), [ReadRows, Patch, Record, ReadHead, Insert], job, r')
    ensures Intact(r'.rows, job.sha) <==> forall i :: 0 <= i < job.k ==> Ok(rows, i, job.sha)
  {
    hide Ok, Runs, Faithful, Canonicalises, Intact;
    var r := Race(rows, None, None);
    assert [ReadRows, Patch, Record, ReadHead, Insert] == [ReadRows, Patch] + ([Record] + [ReadHead, Insert]);
    var patched := RunsSplit(r, [ReadRows, Patch], [Record] + [ReadHead, Insert], job, r');
    var recorded := RunsSplit(patched, [Record], [ReadHead, Insert], job, r');
    TwoTurns(r, ReadRows, Patch, job, patched);
    MendedLength(rows, job);
    AfterRows(rows, Mended(rows, job), []);
    ReanchorRepairs(rows, job.k, job.sha);
    RecordTurn(patched, job, recorded);
    AppendedIntact(patched.rows, Root(patched.rows), Note(job));
    TwoTurns(recorded, ReadHead, Insert, job, r');
    AppendedIntact(recorded.rows, Root(recorded.rows), job);
  }

  lemma TwoTurns(r: Race, a: Turn, b: Turn, job: Job, r': Race)
    requires Runs(r, [a, b], job, r')
    ensures Possible(r, a) && Possible(Take(r, a, job), b) && r' == Take(Take(r, a, job), b, job)
  {
    hide Take, Possible;
    assert [a, b][1..] == [b] && [b][1..] == [];
    assert Runs(Take(r, a, job), [b], job, r');
  }
}

/** A tenant's hash chain: what verification checks, what tampering it locates,
    what its root hash determines, and what re-anchoring repairs. */
module AuditChain {
  import opened Wrappers
  import opened Decimal
  import opened CanonicalNumber
  import opened CanonicalJson
  import opened AuditHash

  /** Events in order of sequence number. */
  type Rows = seq<Event>

  function Previous(rows: Rows, i: nat): string
    requires i <= |rows|
  {
    if i == 0 then GENESIS else rows[i - 1].hash
  }

  predicate LinkOk(rows: Rows, i: nat)
    requires i < |rows|
  {
    rows[i].prevHash == Previous(rows, i)
  }

  predicate HashOk(rows: Rows, i: nat, sha: Canonical -> string)
    requires i < |rows|
  {
    ComputeHash(rows[i], sha) == rows[i].hash
  }

  predicate Ok(rows: Rows, i: nat, sha: Canonical -> string)
    requires i < |rows|
  {
    LinkOk(rows, i) && HashOk(rows, i, sha)
  }

  predicate Intact(rows: Rows, sha: Canonical -> string) {
    forall i :: 0 <= i < |rows| ==> Ok(rows, i, sha)
  }

  ghost predicate Legible(rows: Rows) {
    forall i :: 0 <= i < |rows| ==> Readable(rows[i].metadata)
  }

  ghost predicate AllCanonicalise(rows: Rows) {
    forall i :: 0 <= i < |rows| ==> Canonicalises(rows[i])
  }

  function Root(rows: Rows): string {
    if rows == [] then "" else rows[|rows| - 1].hash
  }

  ghost predicate SameHistory(a: Rows, b: Rows) {
    |a| == |b| && forall i :: 0 <= i < |a| ==> SameContent(a[i], b[i])
  }

  // ---- Tampering is located ----

  /** Altering an event under its stored hashes breaks that event and no other, if it alters its content at all. */
  lemma AlteredEventBreaks(rows: Rows, k: nat, x: Event, sha: Canonical -> string, i: nat)
    requires Injective(sha) && Intact(rows, sha) && k < |rows| && i < |rows|
    requires Canonicalises(rows[k]) && Readable(x.metadata)
    requires x.prevHash == rows[k].prevHash && x.hash == rows[k].hash
    ensures Ok(rows[k := x], i, sha) <==> i != k || (Canonicalises(x) && SameContent(rows[k], x))
  {
    hide ComputeHash, SameContent, Canonicalises, Readable, Injective;
    assert Ok(rows, i, sha) && Ok(rows, k, sha);
    HashBinds(rows[k], x, sha);
  }

  /** Altering an event and recomputing its hash breaks its successor and no other, if it alters its content at all. */
  lemma RehashedEventBreaksSuccessor(rows: Rows, k: nat, x: Event, sha: Canonical -> string, i: nat)
    requires Injective(sha) && Intact(rows, sha) && k < |rows| && i < |rows|
    requires Canonicalises(rows[k]) && Readable(x.metadata)
    requires x.prevHash == rows[k].prevHash && x.hash == ComputeHash(x, sha)
    ensures Ok(rows[k := x], i, sha) <==> i != k + 1 || (Canonicalises(x) && SameContent(rows[k], x))
  {
    hide ComputeHash, SameContent, Canonicalises, Readable, Injective;
    assert Ok(rows, i, sha) && Ok(rows, k, sha);
    HashBinds(rows[k], x, sha);
  }

  // ---- The root determines the history ----

  /** Equal hashes at `i` and `j` mean equal histories up to there. */
  lemma {:induction false} HashDeterminesPast(a: Rows, i: nat, b: Rows, j: nat, sha: Canonical -> string)
    requires Injective(sha) && Intact(a, sha) && Intact(b, sha) && AllCanonicalise(a) && Legible(b)
    requires i < |a| && j < |b| && a[i].hash == b[j].hash
    ensures i == j && forall k :: 0 <= k <= i ==> SameContent(a[k], b[k])
    decreases i
  {
    hide ComputeHash, Same, Readable, Representable, Injective;
    assert Ok(a, i, sha) && Ok(b, j, sha);
    HashBinds(a[i], b[j], sha);
    assert a[i].prevHash == b[j].prevHash;
    if i > 0 {
      assert Ok(a, i - 1, sha);
      HashText(a[i - 1], sha);
    }
    if j > 0 {
      assert Ok(b, j - 1, sha);
      HashText(b[j - 1], sha);
    }
    if i > 0 && j > 0 {
      HashDeterminesPast(a, i - 1, b, j - 1, sha);
    }
  }

  lemma RootDeterminesHistory(a: Rows, b: Rows, sha: Canonical -> string)
    requires Injective(sha) && Intact(a, sha) && Intact(b, sha) && AllCanonicalise(a) && Legible(b)
    requires a != [] && Root(a) == Root(b)
    ensures SameHistory(a, b)
  {
    hide ComputeHash, SameContent, Readable, Representable, Injective, Canonicalises;
    var n := |a| - 1;
    assert Ok(a, n, sha) && Canonicalises(a[n]);
    CanonicalIsReadable(a[n]);
    HashText(a[n], sha);
    HashDeterminesPast(a, n, b, |b| - 1, sha);
  }

  lemma CanonicalIsReadable(e: Event)
    requires Canonicalises(e)
    ensures Readable(e.metadata)
  {
  }

  /** A number no digest is computed for. */
  lemma Unhashable(v: Json)
    requires v == Number("1e200000")
    ensures Readable(v) && Rewrite(v) == None
  {
    hide NumberText, Normal;
    var l := Literal(false, "1", "", Some(Exponent('e', "", "200000")));
    BigExponent();
    assert Text(l) == v.text;
    assert Spells(v.text, l);
    NumberOfText(l);
  }

  lemma BigExponent()
    ensures DigitsValue("200000") == 200000
  {
    assert "200000"[..5] == "20000" && "20000"[..4] == "2000" && "2000"[..3] == "200" && "200"[..2] == "20"
           && "20"[..1] == "2" && "2"[..0] == "";
    assert DigitsValue("20") == 20 && DigitsValue("2000") == 2000;
  }

  lemma OtherThanEmpty(sha: Canonical -> string) returns (b: Rows)
    ensures Intact(b, sha) && Legible(b) && Root(b) == "" && b != []
  {
    hide Rewrite, Readable;
    var v := Number("1e200000");
    Unhashable(v);
    b := [Event("e", "t", 0, Actor("a", "system", ""), "x", Resource("r", "k", ""), "success", v, GENESIS, "", 1)];
  }

  /** A different history under the same root, for a chain the root does not determine. */
  lemma OtherHistory(a: Rows, sha: Canonical -> string) returns (b: Rows)
    requires Intact(a, sha) && Legible(a) && (a == [] || !AllCanonicalise(a))
    ensures Intact(b, sha) && Legible(b) && Root(b) == Root(a) && !SameHistory(a, b)
  {
    hide Intact, Legible, Canonicalises, SameContent;
    if a == [] {
      b := OtherThanEmpty(sha);
    } else {
      var k :| 0 <= k < |a| && !Canonicalises(a[k]);
      b := a[k := a[k].(action := a[k].action + "!")];
      AlteredUnhashed(a, k, sha);
    }
  }

  lemma AlteredUnhashed(a: Rows, k: nat, sha: Canonical -> string)
    requires Intact(a, sha) && Legible(a) && k < |a| && !Canonicalises(a[k])
    ensures var b := a[k := a[k].(action := a[k].action + "!")];
            Intact(b, sha) && Legible(b) && Root(b) == Root(a) && !SameContent(a[k], b[k])
  {
    hide Readable, Canonicalises, Same, ComputeHash;
    assert Ok(a, k, sha);
    HashText(a[k], sha);
    var x := a[k].(action := a[k].action + "!");
    UnhashedStays(a[k], x, sha);
    var b := a[k := x];
    forall i | 0 <= i < |b| ensures Ok(b, i, sha) && Readable(b[i].metadata) {
      assert Ok(a, i, sha);
    }
    assert x.action != a[k].action;
  }

  lemma UnhashedStays(e: Event, x: Event, sha: Canonical -> string)
    requires Readable(e.metadata) && !Canonicalises(e) && x.metadata == e.metadata
    ensures ComputeHash(x, sha) == ""
  {
    HashText(x, sha);
  }

  /** Exactly the nonempty chains all of whose events canonicalise are determined by their root. */
  lemma RootDeterminesIff(a: Rows, sha: Canonical -> string)
    requires Injective(sha) && Intact(a, sha) && Legible(a)
    ensures (forall b :: Intact(b, sha) && Legible(b) && Root(b) == Root(a) ==> SameHistory(a, b))
            <==> a != [] && AllCanonicalise(a)
  {
    hide Intact, Legible, SameHistory, AllCanonicalise, Root, Injective;
    if a != [] && AllCanonicalise(a) {
      forall b | Intact(b, sha) && Legible(b) && Root(b) == Root(a) ensures SameHistory(a, b) {
        RootDeterminesHistory(a, b, sha);
      }
    } else {
      var b := OtherHistory(a, sha);
    }
  }

  // ---- Appending ----

  lemma AppendKeepsOk(rows: Rows, e: Event, sha: Canonical -> string)
    requires e.prevHash == Previous(rows, |rows|) && e.hash == ComputeHash(e, sha)
    ensures Ok(rows + [e], |rows|, sha)
    ensures forall i :: 0 <= i < |rows| ==> (Ok(rows + [e], i, sha) <==> Ok(rows, i, sha))
  {
    hide ComputeHash;
    assert (rows + [e])[|rows|] == e;
  }

  // ---- Re-anchoring ----

  function Rehashed(e: Event, prev: string, sha: Canonical -> string): Event {
    var linked := e.(prevHash := prev);
    linked.(hash := ComputeHash(linked, sha))
  }

  /** The chain with every link and hash from `k` on recomputed, in order. */
  function Reanchored(rows: Rows, k: nat, prev: string, sha: Canonical -> string): Rows
    decreases |rows| - k
  {
    if k >= |rows| then rows
    else
      var e := Rehashed(rows[k], prev, sha);
      Reanchored(rows[k := e], k + 1, e.hash, sha)
  }

  /** Everything in an event but its link and its hash. */
  function Recorded(e: Event): Event {
    e.(prevHash := "", hash := "")
  }

  lemma {:induction false} ReanchorEffect(rows: Rows, k: nat, sha: Canonical -> string)
    requires k <= |rows|
    ensures var out := Reanchored(rows, k, Previous(rows, k), sha);
            && |out| == |rows| && out[..k] == rows[..k]
            && (forall i :: 0 <= i < |rows| ==> Recorded(out[i]) == Recorded(rows[i]))
            && (forall i :: k <= i < |rows| ==> Ok(out, i, sha))
            && (forall i :: 0 <= i < k ==> (Ok(out, i, sha) <==> Ok(rows, i, sha)))
    decreases |rows| - k
  {
    hide ComputeHash;
    if k < |rows| {
      var e := Rehashed(rows[k], Previous(rows, k), sha);
      var next := rows[k := e];
      RehashIsOk(rows[k], Previous(rows, k), sha);
      ReanchorEffect(next, k + 1, sha);
      var out := Reanchored(next, k + 1, e.hash, sha);
      assert out[..k] == out[..k + 1][..k] == rows[..k];
      assert Ok(next, k, sha);
      forall i | 0 <= i < k ensures Ok(next, i, sha) <==> Ok(rows, i, sha) {
      }
    } else {
      assert Reanchored(rows, k, Previous(rows, k), sha) == rows;
    }
  }

  lemma RehashIsOk(e: Event, prev: string, sha: Canonical -> string)
    ensures var r := Rehashed(e, prev, sha);
            r.prevHash == prev && r.hash == ComputeHash(r, sha) && Recorded(r) == Recorded(e)
  {
  }

  /** Re-anchoring from `k` yields an intact chain exactly when the events before `k` verify. */
  lemma ReanchorRepairs(rows: Rows, k: nat, sha: Canonical -> string)
    requires k <= |rows|
    ensures Intact(Reanchored(rows, k, Previous(rows, k), sha), sha) <==> forall i :: 0 <= i < k ==> Ok(rows, i, sha)
  {
    hide Ok;
    ReanchorEffect(rows, k, sha);
  }
}

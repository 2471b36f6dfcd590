/** Audit events and the digest that binds their content. SHA-256 of the canonical
    text is an injective function `sha` of what that text says. */
module AuditHash {
  import opened CanonicalJson

  datatype Actor = Actor(id: string, kind: string, email: string)

  datatype Resource = Resource(id: string, kind: string, name: string)

  /** `time` is in nanoseconds since 1970. */
  datatype Event = Event(
    id: string, tenant: string, time: int, actor: Actor, action: string, resource: Resource, outcome: string,
    metadata: Json, prevHash: string, hash: string, number: int)

  /** What the hashed text says: every field but the digest, times in microseconds, numbers in canonical spelling. */
  datatype Canonical = Canonical(
    id: string, tenant: string, micros: int, actor: Actor, action: string, resource: Resource, outcome: string,
    metadata: Json, prevHash: string, number: int)

  const GENESIS := "genesis"
  const PREFIX := "sha256:v2:"

  function CanonicalOf(e: Event, metadata: Json): Canonical {
    Canonical(e.id, e.tenant, e.time / 1000, e.actor, e.action, e.resource, e.outcome, metadata, e.prevHash, e.number)
  }

  /** Empty when the metadata has no canonical form. */
  function ComputeHash(e: Event, sha: Canonical -> string): string {
    var m := Rewrite(e.metadata);
    if m.None? then "" else PREFIX + sha(CanonicalOf(e, m.value))
  }

  ghost predicate Injective(sha: Canonical -> string) {
    forall x, y :: sha(x) == sha(y) ==> x == y
  }

  ghost predicate Canonicalises(e: Event) {
    Readable(e.metadata) && Representable(e.metadata)
  }

  /** The same content: equal fields, times equal to the microsecond, metadata equal as values. */
  ghost predicate SameContent(a: Event, b: Event) {
    && a.id == b.id && a.tenant == b.tenant && a.time / 1000 == b.time / 1000 && a.actor == b.actor
    && a.action == b.action && a.resource == b.resource && a.outcome == b.outcome
    && a.prevHash == b.prevHash && a.number == b.number && Same(a.metadata, b.metadata)
  }

  lemma HashText(e: Event, sha: Canonical -> string)
    requires Readable(e.metadata)
    ensures ComputeHash(e, sha) != GENESIS
    ensures ComputeHash(e, sha) != "" <==> Canonicalises(e)
    ensures Canonicalises(e) ==> Rewrite(e.metadata).Some?
                                 && ComputeHash(e, sha) == PREFIX + sha(CanonicalOf(e, Rewrite(e.metadata).value))
  {
    RewriteKeepsValue(e.metadata);
    var m := Rewrite(e.metadata);
    if m.Some? {
      assert ComputeHash(e, sha)[0] == 's';
    }
  }

  lemma PrefixInjective(x: string, y: string)
    requires PREFIX + x == PREFIX + y
    ensures x == y
  {
    assert x == (PREFIX + x)[|PREFIX|..];
    assert y == (PREFIX + y)[|PREFIX|..];
  }

  /** Two events that canonicalise have one hash exactly when they have the same content. */
  lemma SameHashIffSameContent(a: Event, b: Event, sha: Canonical -> string)
    requires Injective(sha) && Canonicalises(a) && Canonicalises(b)
    ensures ComputeHash(a, sha) == ComputeHash(b, sha) <==> SameContent(a, b)
  {
    hide Rewrite, Same, Readable, Representable, ComputeHash;
    HashText(a, sha);
    HashText(b, sha);
    RewriteKeepsValue(a.metadata);
    RewriteKeepsValue(b.metadata);
    SameFormIffSameValue(a.metadata, b.metadata);
    var x, y := CanonicalOf(a, Rewrite(a.metadata).value), CanonicalOf(b, Rewrite(b.metadata).value);
    if ComputeHash(a, sha) == ComputeHash(b, sha) {
      PrefixInjective(sha(x), sha(y));
      assert x == y;
    }
  }

  /** Respelling the numbers of an event's metadata, as its storage does, keeps its hash. */
  lemma SpellingKeepsHash(e: Event, metadata: Json, sha: Canonical -> string)
    requires Canonicalises(e) && Readable(metadata) && Representable(metadata) && Same(e.metadata, metadata)
    ensures ComputeHash(e.(metadata := metadata), sha) == ComputeHash(e, sha)
  {
    RewriteKeepsValue(e.metadata);
    RewriteKeepsValue(metadata);
    SameFormIffSameValue(e.metadata, metadata);
  }

  /** An event's hash is that of an event that canonicalises only if it canonicalises too, to the same content. */
  lemma HashBinds(e: Event, x: Event, sha: Canonical -> string)
    requires Injective(sha) && Canonicalises(e) && Readable(x.metadata)
    ensures ComputeHash(x, sha) == ComputeHash(e, sha) <==> Canonicalises(x) && SameContent(e, x)
  {
    hide ComputeHash, SameContent;
    HashText(e, sha);
    HashText(x, sha);
    if Canonicalises(x) {
      SameHashIffSameContent(e, x, sha);
    }
  }
}

/** The canonical form of a JSON value: every number in canonical spelling, at any depth. */
module CanonicalJson {
  import opened Wrappers
  import opened Decimal
  import opened CanonicalNumber

  datatype Json =
    | Null
    | Bool(truth: bool)
    | Number(text: string)
    | String(chars: string)
    | Array(items: seq<Json>)
    | Object(fields: map<string, Json>)

  /** The value with all its numbers rewritten; None when one is refused. */
  function Rewrite(v: Json): Option<Json>
    decreases v
  {
    match v
    case Number(text) =>
      var n := NumberText(text);
      if n.None? then None else Some(Number(n.value))
    case Array(items) =>
      if exists i :: 0 <= i < |items| && Rewrite(items[i]).None? then None
      else Some(Array(seq(|items|, i requires 0 <= i < |items| && Rewrite(items[i]).Some? => Rewrite(items[i]).value)))
    case Object(fields) =>
      if exists k :: k in fields && Rewrite(fields[k]).None? then None
      else Some(Object(map k | k in fields :: Rewrite(fields[k]).value))
    case _ => Some(v)
  }

  /** The rewriting as it runs, over slices and maps. */
  method Numbers(v: Json) returns (r: Option<Json>)
    ensures r == Rewrite(v)
    decreases v
  {
    hide NumberText;
    match v {
      case Number(text) =>
        var n := NumberText(text);
        r := if n.None? then None else Some(Number(n.value));
      case Array(items) =>
        var x := items;
        for i := 0 to |items|
          invariant |x| == |items|
          invariant forall j :: 0 <= j < i ==> Rewrite(items[j]) == Some(x[j])
        {
          var n := Numbers(items[i]);
          if n.None? {
            return None;
          }
          x := x[i := n.value];
        }
        assert Rewrite(v).Some? && Rewrite(v).value.items == x;
        r := Some(Array(x));
      case Object(fields) =>
        var x, todo := fields, fields.Keys;
        while todo != {}
          invariant todo <= fields.Keys && x.Keys == fields.Keys
          invariant forall k :: k in fields && k !in todo ==> Rewrite(fields[k]) == Some(x[k])
          decreases todo
        {
          var k :| k in todo;
          var n := Numbers(fields[k]);
          if n.None? {
            return None;
          }
          x := x[k := n.value];
          todo := todo - {k};
        }
        assert Rewrite(v).Some? && Rewrite(v).value.fields == x;
        r := Some(Object(x));
      case _ =>
        r := Some(v);
    }
  }

  // ---- What the canonical form means ----

  ghost predicate Spells(text: string, l: Literal) {
    Grammatical(l) && Text(l) == text
  }

  ghost predicate SameNumber(s: string, t: string) {
    exists l, m :: Spells(s, l) && Spells(t, m) && Value(l) == Value(m)
  }

  /** Every number is spelled as the grammar asks. */
  ghost predicate Readable(v: Json)
    decreases v
  {
    match v
    case Number(text) => exists l :: Spells(text, l)
    case Array(items) => forall i :: 0 <= i < |items| ==> Readable(items[i])
    case Object(fields) => forall k :: k in fields ==> Readable(fields[k])
    case _ => true
  }

  /** Every number's written exponent is in range. */
  ghost predicate Representable(v: Json)
    decreases v
  {
    match v
    case Number(text) => exists l :: Spells(text, l) && InRange(l)
    case Array(items) => forall i :: 0 <= i < |items| ==> Representable(items[i])
    case Object(fields) => forall k :: k in fields ==> Representable(fields[k])
    case _ => true
  }

  /** The same value, whatever the spelling of its numbers. */
  ghost predicate Same(a: Json, b: Json)
    decreases a
  {
    match a
    case Number(s) => b.Number? && SameNumber(s, b.text)
    case Array(items) => b.Array? && |b.items| == |items| && forall i :: 0 <= i < |items| ==> Same(items[i], b.items[i])
    case Object(fields) => b.Object? && b.fields.Keys == fields.Keys && forall k :: k in fields ==> Same(fields[k], b.fields[k])
    case _ => a == b
  }

  lemma NumberRewritten(text: string)
    requires exists l :: Spells(text, l)
    ensures NumberText(text).Some? <==> exists l :: Spells(text, l) && InRange(l)
    ensures NumberText(text).Some? ==> SameNumber(text, NumberText(text).value)
  {
    hide NumberText, Grammatical, Text, Value, Normal;
    var l :| Spells(text, l);
    NumberOfText(l);
    NormalValue(l);
    forall m | Spells(text, m) ensures m == l {
      TextUnique(l, m);
    }
    if InRange(l) {
      assert Spells(NumberText(text).value, Normal(l));
    }
  }

  lemma NumberSame(s: string, t: string)
    requires (exists l :: Spells(s, l)) && (exists m :: Spells(t, m))
    requires NumberText(s).Some? && NumberText(t).Some?
    ensures NumberText(s) == NumberText(t) <==> SameNumber(s, t)
  {
    hide NumberText, Grammatical, Text, Value;
    var l :| Spells(s, l);
    var m :| Spells(t, m);
    SameTextIffSameNumber(l, m);
    forall l', m' | Spells(s, l') && Spells(t, m') ensures l' == l && m' == m {
      TextUnique(l, l');
      TextUnique(m, m');
    }
  }

  lemma NumberAgain(text: string)
    requires exists l :: Spells(text, l)
    requires NumberText(text).Some?
    ensures var r := NumberText(text).value;
            NumberText(r) == if exists m :: Spells(r, m) && InRange(m) then Some(r) else None
  {
    hide NumberText, Grammatical, Text, Value, Normal;
    var l :| Spells(text, l);
    NumberOfText(l);
    NormalValue(l);
    NormalInRange(l);
    IdempotentIffInRange(l);
    var r := NumberText(text).value;
    assert Spells(r, Normal(l));
    forall m | Spells(r, m) ensures m == Normal(l) {
      TextUnique(m, Normal(l));
    }
  }

  /** A value is rewritten exactly when its exponents are in range, and into the same value. */
  lemma {:induction false} RewriteKeepsValue(v: Json)
    requires Readable(v)
    ensures Rewrite(v).Some? <==> Representable(v)
    ensures Rewrite(v).Some? ==> Readable(Rewrite(v).value) && Same(v, Rewrite(v).value)
    decreases v
  {
    hide NumberText, SameNumber, Spells, InRange;
    match v
    case Number(text) =>
      NumberRewritten(text);
      if NumberText(text).Some? {
        SameIsRead(text, NumberText(text).value);
      }
    case Array(items) =>
      forall i | 0 <= i < |items|
        ensures Rewrite(items[i]).Some? <==> Representable(items[i])
        ensures Rewrite(items[i]).Some? ==> Readable(Rewrite(items[i]).value) && Same(items[i], Rewrite(items[i]).value)
      {
        RewriteKeepsValue(items[i]);
      }
    case Object(fields) =>
      forall k | k in fields
        ensures Rewrite(fields[k]).Some? <==> Representable(fields[k])
        ensures Rewrite(fields[k]).Some? ==> Readable(Rewrite(fields[k]).value) && Same(fields[k], Rewrite(fields[k]).value)
      {
        RewriteKeepsValue(fields[k]);
      }
    case _ =>
  }

  lemma SameIsRead(s: string, t: string)
    requires SameNumber(s, t)
    ensures exists m :: Spells(t, m)
  {
  }

  /** Two accepted values have one canonical form exactly when they are the same value. */
  lemma {:induction false} SameFormIffSameValue(a: Json, b: Json)
    requires Readable(a) && Readable(b) && Rewrite(a).Some? && Rewrite(b).Some?
    ensures Rewrite(a) == Rewrite(b) <==> Same(a, b)
    decreases a
  {
    hide NumberText, SameNumber, Spells;
    match (a, b)
    case (Number(s), Number(t)) =>
      NumberSame(s, t);
    case (Array(xs), Array(ys)) =>
      var p, q := Rewrite(a).value.items, Rewrite(b).value.items;
      if |xs| == |ys| {
        forall i | 0 <= i < |xs| ensures p[i] == q[i] <==> Same(xs[i], ys[i]) {
          SameFormIffSameValue(xs[i], ys[i]);
        }
        assert p == q <==> forall i :: 0 <= i < |xs| ==> p[i] == q[i];
      }
    case (Object(f), Object(g)) =>
      var p, q := Rewrite(a).value.fields, Rewrite(b).value.fields;
      assert p.Keys == f.Keys && q.Keys == g.Keys;
      if f.Keys == g.Keys {
        forall k | k in f ensures p[k] == q[k] <==> Same(f[k], g[k]) {
          SameFormIffSameValue(f[k], g[k]);
        }
        assert p == q <==> forall k :: k in f ==> p[k] == q[k];
      }
    case _ =>
  }

  /** The canonical form is its own canonical form, exactly when its exponents are in range. */
  lemma {:induction false} RewriteIdempotent(v: Json)
    requires Readable(v) && Rewrite(v).Some?
    ensures var r := Rewrite(v).value;
            Rewrite(r) == if Representable(r) then Some(r) else None
    decreases v
  {
    hide NumberText, Spells, InRange;
    var r := Rewrite(v).value;
    match v
    case Number(text) =>
      NumberAgain(text);
    case Array(items) =>
      forall i | 0 <= i < |items|
        ensures Rewrite(r.items[i]) == if Representable(r.items[i]) then Some(r.items[i]) else None
      {
        RewriteIdempotent(items[i]);
      }
      if Representable(r) {
        assert Rewrite(r).value.items == r.items;
      }
    case Object(fields) =>
      forall k | k in fields
        ensures Rewrite(r.fields[k]) == if Representable(r.fields[k]) then Some(r.fields[k]) else None
      {
        RewriteIdempotent(fields[k]);
      }
      if Representable(r) {
        assert Rewrite(r).value.fields == r.fields;
      }
    case _ =>
  }
}

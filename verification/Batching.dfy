/** Splitting a list of spans into requests no larger than the request limit. */
module Batching {

  /** Encoded size of a request body: the twelve bytes around the array,
      the items, and one separator between neighbours. */
  function Size<T>(items: seq<T>, bytes: T -> nat): nat {
    12 + Total(items, bytes) + (if |items| == 0 then 0 else |items| - 1)
  }

  function Total<T>(items: seq<T>, bytes: T -> nat): nat {
    if items == [] then 0 else Total(items[..|items| - 1], bytes) + bytes(items[|items| - 1])
  }

  /** A request that may be sent: within the limit, or one item that cannot be split. */
  predicate Fits<T>(batch: seq<T>, limit: nat, bytes: T -> nat) {
    Size(batch, bytes) <= limit || |batch| == 1
  }

  function Concat<T>(batches: seq<seq<T>>): seq<T> {
    if batches == [] then [] else batches[0] + Concat(batches[1..])
  }

  /** The greedy split with `batch` already open. */
  function Greedy<T>(batch: seq<T>, items: seq<T>, limit: nat, bytes: T -> nat): seq<seq<T>>
    decreases items
  {
    if items == [] then
      if batch == [] then [] else [batch]
    else if batch != [] && Size(batch + [items[0]], bytes) > limit then
      [batch] + Greedy([items[0]], items[1..], limit, bytes)
    else
      Greedy(batch + [items[0]], items[1..], limit, bytes)
  }

  function Split<T>(items: seq<T>, limit: nat, bytes: T -> nat): seq<seq<T>> {
    Greedy([], items, limit, bytes)
  }

  // ---- Nothing is lost, reordered or sent empty, and every request fits ----

  lemma {:induction false} GreedySound<T>(batch: seq<T>, items: seq<T>, limit: nat, bytes: T -> nat)
    requires batch != [] ==> Fits(batch, limit, bytes)
    ensures Concat(Greedy(batch, items, limit, bytes)) == batch + items
    ensures forall b :: b in Greedy(batch, items, limit, bytes) ==> b != [] && Fits(b, limit, bytes)
    decreases items
  {
    if items == [] {
      if batch != [] {
        assert [batch][1..] == [];
      }
    } else if batch != [] && Size(batch + [items[0]], bytes) > limit {
      GreedySound([items[0]], items[1..], limit, bytes);
      var rest := Greedy([items[0]], items[1..], limit, bytes);
      assert ([batch] + rest)[1..] == rest;
      assert [items[0]] + items[1..] == items;
    } else {
      GreedySound(batch + [items[0]], items[1..], limit, bytes);
      assert batch + [items[0]] + items[1..] == batch + items;
    }
  }

  lemma SplitSound<T>(items: seq<T>, limit: nat, bytes: T -> nat)
    ensures Concat(Split(items, limit, bytes)) == items
    ensures forall b :: b in Split(items, limit, bytes) ==> b != [] && Fits(b, limit, bytes)
  {
    GreedySound([], items, limit, bytes);
    assert [] + items == items;
  }

  // ---- No contiguous split that fits uses fewer requests ----

  lemma {:induction false} TotalConcat<T>(a: seq<T>, b: seq<T>, bytes: T -> nat)
    ensures Total(a + b, bytes) == Total(a, bytes) + Total(b, bytes)
  {
    if b == [] {
      assert a + b == a;
    } else {
      assert (a + b)[..|a + b| - 1] == a + b[..|b| - 1];
      TotalConcat(a, b[..|b| - 1], bytes);
    }
  }

  /** An open batch that is a suffix of another costs no more, and at most one request less. */
  lemma {:induction false} SuffixNoWorse<T>(
    b: seq<T>, dropped: seq<T>, items: seq<T>, limit: nat, bytes: T -> nat)
    ensures |Greedy(b, items, limit, bytes)| <= |Greedy(dropped + b, items, limit, bytes)|
    ensures |Greedy(dropped + b, items, limit, bytes)| <= |Greedy(b, items, limit, bytes)| + 1
    decreases items
  {
    var c := dropped + b;
    if items != [] {
      var x := items[0];
      TotalConcat(dropped, b + [x], bytes);
      assert c + [x] == dropped + (b + [x]);
      if c != [] && Size(c + [x], bytes) > limit {
        if b != [] && Size(b + [x], bytes) > limit {
        } else {
          SuffixNoWorse([x], b, items[1..], limit, bytes);
        }
      } else {
        SuffixNoWorse(b + [x], dropped, items[1..], limit, bytes);
      }
    }
  }

  /** A prefix that fits on its own is absorbed into the open batch whole. */
  lemma {:induction false} GreedyAbsorbs<T>(
    batch: seq<T>, more: seq<T>, rest: seq<T>, limit: nat, bytes: T -> nat)
    requires Fits(batch + more, limit, bytes)
    ensures Greedy(batch, more + rest, limit, bytes) == Greedy(batch + more, rest, limit, bytes)
    decreases more
  {
    if more == [] {
      assert more + rest == rest && batch + more == batch;
    } else {
      var x := more[0];
      assert (more + rest)[0] == x && (more + rest)[1..] == more[1..] + rest;
      assert batch + [x] + more[1..] == batch + more;
      if batch != [] {
        TotalConcat(batch + [x], more[1..], bytes);
      }
      GreedyAbsorbs(batch + [x], more[1..], rest, limit, bytes);
    }
  }

  lemma {:induction false} SplitOptimal<T>(items: seq<T>, other: seq<seq<T>>, limit: nat, bytes: T -> nat)
    requires Concat(other) == items
    requires forall b :: b in other ==> Fits(b, limit, bytes)
    ensures |Split(items, limit, bytes)| <= |other|
    decreases other
  {
    if other != [] {
      var rest := Concat(other[1..]);
      SplitOptimal(rest, other[1..], limit, bytes);
      assert other[0] in other;
      assert [] + other[0] == other[0] == other[0] + [];
      GreedyAbsorbs([], other[0], rest, limit, bytes);
      SuffixNoWorse([], other[0], rest, limit, bytes);
    }
  }

  /** Each request of the split is refused for its size exactly when it is one
      item that exceeds the limit alone. */
  lemma OnlyLoneItemsAreTooLarge<T>(items: seq<T>, limit: nat, bytes: T -> nat, b: seq<T>)
    requires b in Split(items, limit, bytes)
    ensures Size(b, bytes) > limit <==> |b| == 1 && 12 + bytes(b[0]) > limit
  {
    SplitSound(items, limit, bytes);
    if |b| == 1 {
      assert b[..|b| - 1] == [];
      assert Total(b, bytes) == Total(b[..|b| - 1], bytes) + bytes(b[0]);
    }
  }
}

/** The critical path of an execution's span graph: Kahn's sort, the longest-path
    recurrence along it, and the walk back from the heaviest end. Durations are
    exact numbers. */
module CriticalPath {
  import opened Wrappers

  datatype Node = Node(id: string, duration: real)

  datatype Edge = Edge(source: string, target: string, kind: string)

  // ---- Graphs, walks and weights ----

  function Links(edges: seq<Edge>): seq<Edge> {
    if edges == [] then []
    else
      var e := edges[|edges| - 1];
      Links(edges[..|edges| - 1]) + if e.kind == "parent_child" then [e] else []
  }

  function Targets(links: seq<Edge>, id: string): seq<string> {
    if links == [] then []
    else
      var e := links[|links| - 1];
      Targets(links[..|links| - 1], id) + if e.source == id then [e.target] else []
  }

  function Sources(links: seq<Edge>, id: string): seq<string> {
    if links == [] then []
    else
      var e := links[|links| - 1];
      Sources(links[..|links| - 1], id) + if e.target == id then [e.source] else []
  }

  /** The number of links into `id` from outside `done`. */
  function Open(links: seq<Edge>, id: string, done: set<string>): nat {
    if links == [] then 0
    else
      var e := links[|links| - 1];
      Open(links[..|links| - 1], id, done) + if e.target == id && e.source !in done then 1 else 0
  }

  function Positive(x: real): real {
    if x > 0.0 then x else 0.0
  }

  /** A node's duration; a repeated id takes the last one. */
  function Weight(nodes: seq<Node>, id: string): (w: real)
    ensures w >= 0.0
  {
    if nodes == [] then 0.0
    else
      var n := nodes[|nodes| - 1];
      if n.id == id then Positive(n.duration) else Weight(nodes[..|nodes| - 1], id)
  }

  predicate HasNode(nodes: seq<Node>, id: string) {
    exists n :: n in nodes && n.id == id
  }

  predicate Linked(links: seq<Edge>, a: string, b: string) {
    exists e :: e in links && e.source == a && e.target == b
  }

  /** Consecutive vertices are linked. */
  predicate Walk(links: seq<Edge>, w: seq<string>) {
    forall i :: 0 < i < |w| ==> Linked(links, w[i - 1], w[i])
  }

  function Sum(nodes: seq<Node>, w: seq<string>): real {
    if w == [] then 0.0 else Sum(nodes, w[..|w| - 1]) + Weight(nodes, w[|w| - 1])
  }

  predicate Path(nodes: seq<Node>, links: seq<Edge>, w: seq<string>) {
    w != [] && Walk(links, w) && forall id :: id in w ==> HasNode(nodes, id)
  }

  /** No path through the nodes is heavier. */
  ghost predicate Longest(nodes: seq<Node>, links: seq<Edge>, w: seq<string>) {
    Path(nodes, links, w) && forall v :: Path(nodes, links, v) ==> Sum(nodes, v) <= Sum(nodes, w)
  }

  ghost predicate Acyclic(links: seq<Edge>) {
    forall w :: Walk(links, w) && |w| > 1 ==> w[0] != w[|w| - 1]
  }

  ghost predicate WellFormed(nodes: seq<Node>, links: seq<Edge>) {
    && Acyclic(links)
    && (forall n :: n in nodes ==> n.id != "")
    && (forall i, j :: 0 <= i < j < |nodes| ==> nodes[i].id != nodes[j].id)
    && (forall e :: e in links ==> HasNode(nodes, e.source) && HasNode(nodes, e.target))
  }

  function SetOf(s: seq<string>): set<string> {
    set x | x in s
  }

  predicate Distinct(s: seq<string>) {
    forall i, j :: 0 <= i < j < |s| ==> s[i] != s[j]
  }

  function Get<T>(m: map<string, T>, key: string, missing: T): T {
    if key in m then m[key] else missing
  }

  // ---- Cycles ----

  lemma {:induction false} Pigeonhole(s: seq<string>, within: set<string>) returns (i: nat, j: nat)
    requires |s| > |within| && forall x :: x in s ==> x in within
    ensures i < j < |s| && s[i] == s[j]
    decreases |s|
  {
    j := |s| - 1;
    var x, front := s[j], s[..j];
    if x in front {
      i :| 0 <= i < j && front[i] == x;
    } else {
      forall y | y in front ensures y in within - {x} {
      }
      i, j := Pigeonhole(front, within - {x});
    }
  }

  /** Every member has a link from another. */
  ghost predicate Stuck(links: seq<Edge>, ids: set<string>) {
    forall x :: x in ids ==> exists p :: p in ids && Linked(links, p, x)
  }

  lemma WalkFrom(links: seq<Edge>, p: string, w: seq<string>)
    requires Walk(links, w) && (w != [] ==> Linked(links, p, w[0]))
    ensures Walk(links, [p] + w)
  {
    hide Linked;
    var longer := [p] + w;
    forall i | 0 < i < |longer| ensures Linked(links, longer[i - 1], longer[i]) {
      if i > 1 {
        assert longer[i - 1] == w[i - 2] && longer[i] == w[i - 1];
        assert Linked(links, w[i - 1 - 1], w[i - 1]);
      }
    }
  }

  lemma {:induction false} WalkBack(links: seq<Edge>, ids: set<string>, start: string, n: nat) returns (w: seq<string>)
    requires start in ids && Stuck(links, ids)
    ensures |w| == n + 1 && Walk(links, w) && forall x :: x in w ==> x in ids
    decreases n
  {
    hide Linked;
    w := [start];
    if n > 0 {
      w := WalkBack(links, ids, start, n - 1);
      assert w[0] in ids;
      var p :| p in ids && Linked(links, p, w[0]);
      WalkFrom(links, p, w);
      w := [p] + w;
    }
  }

  /** Every walk that stays among stuck vertices long enough closes a cycle. */
  lemma StuckIsCyclic(links: seq<Edge>, ids: set<string>, start: string)
    requires start in ids && Stuck(links, ids)
    ensures !Acyclic(links)
  {
    hide Linked, Stuck;
    var w := WalkBack(links, ids, start, |ids|);
    var i, j := Pigeonhole(w, ids);
    var cycle := w[i..j + 1];
    forall k | 0 < k < |cycle| ensures Linked(links, cycle[k - 1], cycle[k]) {
      assert cycle[k] == w[i + k] && cycle[k - 1] == w[i + k - 1];
    }
    assert Walk(links, cycle) && |cycle| > 1 && cycle[0] == cycle[|cycle| - 1];
  }

  // ---- Kahn's sort ----

  /** Every link into a listed vertex comes from one listed earlier. */
  predicate Topological(links: seq<Edge>, order: seq<string>) {
    forall i, e :: 0 <= i < |order| && e in links && e.target == order[i] ==> e.source in order[..i]
  }

  lemma {:induction false} OpenFrom(links: seq<Edge>, id: string, done: set<string>)
    ensures Open(links, id, done) == 0 <==> forall e :: e in links && e.target == id ==> e.source in done
  {
    if links != [] {
      var front, e := links[..|links| - 1], links[|links| - 1];
      assert links == front + [e];
      OpenFrom(front, id, done);
    }
  }

  lemma {:induction false} OpenSplit(links: seq<Edge>, id: string, done: set<string>, popped: string)
    requires popped !in done
    ensures Open(links, id, done) == Open(links, id, done + {popped}) + multiset(Targets(links, popped))[id]
  {
    if links != [] {
      OpenSplit(links[..|links| - 1], id, done, popped);
    }
  }

  lemma {:induction false} TargetsLinked(links: seq<Edge>, id: string)
    ensures forall c :: c in Targets(links, id) ==> exists e :: e in links && e.source == id && e.target == c
  {
    if links != [] {
      var front := links[..|links| - 1];
      assert links == front + [links[|links| - 1]];
      TargetsLinked(front, id);
    }
  }

  lemma {:induction false} SourcesLinked(links: seq<Edge>, id: string)
    ensures forall p :: p in Sources(links, id) <==> Linked(links, p, id)
  {
    if links != [] {
      var front, e := links[..|links| - 1], links[|links| - 1];
      assert links == front + [e];
      SourcesLinked(front, id);
      forall p ensures Linked(links, p, id) <==> Linked(front, p, id) || (e.source == p && e.target == id) {
      }
    }
  }

  /** What the child lists and the counts of incoming links must say. */
  ghost predicate Indexed(links: seq<Edge>, children: map<string, seq<string>>, incoming: map<string, int>, keys: seq<string>) {
    && (forall id :: Get(children, id, []) == Targets(links, id))
    && Distinct(keys) && (forall id :: id in keys <==> id in incoming)
    && (forall id :: id in incoming ==> incoming[id] == Open(links, id, {}))
    && (forall e :: e in links ==> e.target in incoming)
  }

  lemma IndexedMore(links: seq<Edge>, e: Edge, children: map<string, seq<string>>, incoming: map<string, int>, keys: seq<string>)
    requires Indexed(links, children, incoming, keys)
    ensures Indexed(links + [e],
                    children[e.source := Get(children, e.source, []) + [e.target]],
                    incoming[e.target := Get(incoming, e.target, 0) + 1],
                    if e.target in incoming then keys else keys + [e.target])
  {
    var all, counts := links + [e], incoming[e.target := Get(incoming, e.target, 0) + 1];
    assert all[..|links|] == links && all[|links|] == e;
    OpenFrom(links, e.target, {});
    assert Open(links, e.target, {}) == Get(incoming, e.target, 0);
    forall id | id in counts ensures counts[id] == Open(all, id, {}) {
      assert Open(all, id, {}) == Open(links, id, {}) + if e.target == id then 1 else 0;
    }
    var more := children[e.source := Get(children, e.source, []) + [e.target]];
    forall id ensures Get(more, id, []) == Targets(all, id) {
      assert Targets(all, id) == Targets(links, id) + if e.source == id then [e.target] else [];
    }
  }

  method IndexNodes(nodes: seq<Node>) returns (incoming: map<string, int>, keys: seq<string>)
    ensures Indexed([], map[], incoming, keys)
    ensures forall id :: id in keys <==> HasNode(nodes, id)
  {
    incoming, keys := map[], [];
    for i := 0 to |nodes|
      invariant Distinct(keys) && (forall id :: id in keys <==> id in incoming)
      invariant forall id :: id in incoming ==> incoming[id] == 0
      invariant forall id :: id in keys <==> HasNode(nodes[..i], id)
    {
      assert nodes[..i + 1] == nodes[..i] + [nodes[i]];
      if nodes[i].id !in incoming {
        keys := keys + [nodes[i].id];
      }
      incoming := incoming[nodes[i].id := 0];
    }
    assert nodes[..|nodes|] == nodes;
  }

  /** `keys` is the insertion order of `incoming`. */
  method IndexLinks(nodes: seq<Node>, links: seq<Edge>)
    returns (children: map<string, seq<string>>, incoming: map<string, int>, keys: seq<string>)
    ensures Indexed(links, children, incoming, keys)
    ensures forall n :: n in nodes ==> n.id in keys
    ensures forall id :: id in keys ==> HasNode(nodes, id) || exists e :: e in links && e.target == id
  {
    hide Indexed;
    children := map[];
    incoming, keys := IndexNodes(nodes);
    for i := 0 to |links|
      invariant Indexed(links[..i], children, incoming, keys)
      invariant forall n :: n in nodes ==> n.id in keys
      invariant forall id :: id in keys ==> HasNode(nodes, id) || exists e :: e in links[..i] && e.target == id
    {
      var e := links[i];
      assert links[..i + 1] == links[..i] + [e];
      IndexedMore(links[..i], e, children, incoming, keys);
      children := children[e.source := Get(children, e.source, []) + [e.target]];
      if e.target !in incoming {
        keys := keys + [e.target];
      }
      incoming := incoming[e.target := Get(incoming, e.target, 0) + 1];
    }
    assert links[..|links|] == links;
  }

  /** The counts of a sort in progress: a vertex is out or queued once no link into it is open. */
  ghost predicate Sorting(links: seq<Edge>, incoming: map<string, int>, order: seq<string>, queue: seq<string>) {
    && Distinct(order + queue)
    && Topological(links, order)
    && (forall id :: id in order || id in queue <==> id in incoming && incoming[id] == 0)
  }

  ghost predicate Counts(links: seq<Edge>, incoming: map<string, int>, done: set<string>, todo: seq<string>) {
    && (forall e :: e in links ==> e.target in incoming)
    && (forall id :: id in incoming ==> incoming[id] == Open(links, id, done) + multiset(todo)[id])
  }

  lemma PopCounts(links: seq<Edge>, incoming: map<string, int>, done: set<string>, id: string)
    requires Counts(links, incoming, done, []) && id !in done
    ensures Counts(links, incoming, done + {id}, Targets(links, id))
  {
    forall c | c in incoming
      ensures incoming[c] == Open(links, c, done + {id}) + multiset(Targets(links, id))[c]
    {
      OpenSplit(links, c, done, id);
    }
  }

  lemma PopSorts(links: seq<Edge>, incoming: map<string, int>, order: seq<string>, queue: seq<string>)
    requires Sorting(links, incoming, order, queue) && queue != []
    requires Counts(links, incoming, SetOf(order), [])
    ensures Sorting(links, incoming, order + [queue[0]], queue[1..]) && queue[0] !in order
  {
    var id, all := queue[0], order + queue;
    var longer := order + [id];
    assert all == longer + queue[1..] && all[|order|] == id;
    assert queue == [id] + queue[1..];
    forall i | 0 <= i < |order| ensures order[i] != id {
      assert all[i] == order[i];
    }
    assert id in queue;
    OpenFrom(links, id, SetOf(order));
    forall i, e | 0 <= i < |longer| && e in links && e.target == longer[i] ensures e.source in longer[..i] {
      assert longer[..i] == order[..i];
    }
    forall x ensures x in longer || x in queue[1..] <==> x in incoming && incoming[x] == 0 {
      assert x in longer || x in queue[1..] <==> x in order || x in queue;
    }
  }

  lemma CountDownCounts(links: seq<Edge>, incoming: map<string, int>, done: set<string>, todo: seq<string>)
    requires todo != [] && todo[0] in incoming && Counts(links, incoming, done, todo)
    ensures incoming[todo[0]] >= 1
    ensures Counts(links, incoming[todo[0] := incoming[todo[0]] - 1], done, todo[1..])
  {
    var c := todo[0];
    assert todo == [c] + todo[1..];
    var next := incoming[c := incoming[c] - 1];
    forall id | id in next ensures next[id] == Open(links, id, done) + multiset(todo[1..])[id] {
      assert multiset(todo)[id] == multiset(todo[1..])[id] + if id == c then 1 else 0;
    }
  }

  lemma CountDownSorts(links: seq<Edge>, incoming: map<string, int>, order: seq<string>, queue: seq<string>, c: string)
    requires Sorting(links, incoming, order, queue) && c in incoming && incoming[c] >= 1
    ensures var next := incoming[c] - 1;
            Sorting(links, incoming[c := next], order, if next == 0 then queue + [c] else queue)
  {
    hide Topological;
    var next := incoming[c := incoming[c] - 1];
    assert c !in order && c !in queue;
    if next[c] == 0 {
      assert order + (queue + [c]) == order + queue + [c];
      forall i | 0 <= i < |order + queue| ensures (order + queue)[i] != c {
        assert (order + queue)[i] in order + queue;
      }
      forall id ensures id in order || id in queue + [c] <==> id in next && next[id] == 0 {
      }
    } else {
      forall id ensures id in order || id in queue <==> id in next && next[id] == 0 {
      }
    }
  }

  /** Takes one off the count of each child, queueing those that reach zero. */
  method Release(links: seq<Edge>, id: string, cs: seq<string>, counts: map<string, int>,
                 ghost order: seq<string>, waiting: seq<string>)
    returns (incoming: map<string, int>, queue: seq<string>)
    requires cs == Targets(links, id)
    requires Counts(links, counts, SetOf(order), cs) && Sorting(links, counts, order, waiting)
    ensures incoming.Keys == counts.Keys
    ensures Counts(links, incoming, SetOf(order), []) && Sorting(links, incoming, order, queue)
  {
    hide Sorting, Open, Targets;
    TargetsLinked(links, id);
    incoming, queue := counts, waiting;
    assert cs[0..] == cs;
    for k := 0 to |cs|
      invariant incoming.Keys == counts.Keys
      invariant Counts(links, incoming, SetOf(order), cs[k..]) && Sorting(links, incoming, order, queue)
    {
      assert cs[k] in cs;
      assert cs[k..][0] == cs[k] && cs[k..][1..] == cs[k + 1..];
      CountDownCounts(links, incoming, SetOf(order), cs[k..]);
      CountDownSorts(links, incoming, order, queue, cs[k]);
      var next := Get(incoming, cs[k], 0) - 1;
      incoming := incoming[cs[k] := next];
      if next == 0 {
        queue := queue + [cs[k]];
      }
    }
    assert cs[|cs|..] == [];
  }

  /** Kahn's loop. Whatever the links, it ends; what it leaves out still waits for a link. */
  method KahnSort(links: seq<Edge>, children: map<string, seq<string>>, counts: map<string, int>, keys: seq<string>)
    returns (order: seq<string>)
    requires Indexed(links, children, counts, keys)
    ensures Distinct(order) && Topological(links, order) && forall id :: id in order ==> id in keys
    ensures forall id :: id in keys && id !in order ==> exists e :: e in links && e.target == id && e.source !in order
  {
    hide Topological, Open, Targets;
    var incoming := counts;
    order := [];
    var queue := [];
    for i := 0 to |keys|
      invariant Distinct(queue)
      invariant forall id :: id in queue <==> id in keys[..i] && incoming[id] == 0
    {
      assert keys[..i + 1] == keys[..i] + [keys[i]];
      if incoming[keys[i]] == 0 {
        queue := queue + [keys[i]];
      }
    }
    StartSorts(links, children, incoming, keys, queue);
    while queue != []
      invariant incoming.Keys == counts.Keys
      invariant Counts(links, incoming, SetOf(order), []) && Sorting(links, incoming, order, queue)
      decreases counts.Keys - SetOf(order)
    {
      ghost var done := SetOf(order);
      var id := queue[0];
      assert id in queue;
      PopSorts(links, incoming, order, queue);
      PopCounts(links, incoming, SetOf(order), id);
      queue := queue[1..];
      order := order + [id];
      assert SetOf(order) == done + {id};
      incoming, queue := Release(links, id, Get(children, id, []), incoming, order, queue);
    }
    assert order + [] == order;
    forall id | id in keys && id !in order
      ensures exists e :: e in links && e.target == id && e.source !in order
    {
      OpenFrom(links, id, SetOf(order));
    }
  }

  lemma StartSorts(links: seq<Edge>, children: map<string, seq<string>>, incoming: map<string, int>, keys: seq<string>, queue: seq<string>)
    requires Indexed(links, children, incoming, keys)
    requires Distinct(queue) && forall id :: id in queue <==> id in keys && incoming[id] == 0
    ensures Counts(links, incoming, SetOf([]), []) && Sorting(links, incoming, [], queue)
  {
    assert [] + queue == queue && SetOf([]) == {};
  }

  /** An acyclic graph leaves nothing out. */
  lemma AllEmitted(links: seq<Edge>, keys: seq<string>, order: seq<string>)
    requires Acyclic(links) && forall e :: e in links ==> e.source in keys
    requires forall id :: id in keys && id !in order ==> exists e :: e in links && e.target == id && e.source !in order
    ensures forall id :: id in keys ==> id in order
  {
    hide Acyclic;
    var left := set id | id in keys && id !in order;
    forall x | x in left ensures exists p :: p in left && Linked(links, p, x) {
      var e :| e in links && e.target == x && e.source !in order;
      assert e.source in left && Linked(links, e.source, x);
    }
    assert Stuck(links, left);
    hide Linked, Stuck;
    forall id | id in keys ensures id in order {
      if id in left {
        StuckIsCyclic(links, left, id);
      }
    }
  }

  // ---- The heaviest path ending at each vertex ----

  function Index(order: seq<string>, x: string): nat {
    if order == [] || order[0] == x then 0 else 1 + Index(order[1..], x)
  }

  lemma {:induction false} IndexAt(order: seq<string>, i: nat)
    requires Distinct(order) && i < |order|
    ensures Index(order, order[i]) == i
    decreases i
  {
    if i > 0 {
      IndexAt(order[1..], i - 1);
    }
  }

  /** The order is a topological sort of exactly the nodes. */
  predicate Covers(nodes: seq<Node>, links: seq<Edge>, order: seq<string>) {
    && Distinct(order) && Topological(links, order)
    && (forall id :: id in order ==> HasNode(nodes, id))
    && (forall n :: n in nodes ==> n.id in order)
    && (forall e :: e in links ==> e.source in order && e.target in order)
  }

  /** `x` is scored: no parent offers more, and the score is that of the recorded parent plus its own weight. */
  ghost predicate Scored(nodes: seq<Node>, links: seq<Edge>, order: seq<string>,
                   best: map<string, real>, prev: map<string, Option<string>>, x: string) {
    && x in best && x in prev
    && best[x] >= Weight(nodes, x)
    && (forall p :: Linked(links, p, x) ==> p in best && best[p] + Weight(nodes, x) <= best[x])
    && match prev[x]
       case None => best[x] == Weight(nodes, x)
       case Some(p) => && p in best && Linked(links, p, x) && best[x] == best[p] + Weight(nodes, x)
                       && Index(order, p) < Index(order, x)
  }

  predicate Unscored(nodes: seq<Node>, best: map<string, real>, prev: map<string, Option<string>>, x: string) {
    x in best && x in prev && best[x] == Weight(nodes, x) && prev[x] == None
  }

  predicate Heaviest(ps: seq<string>, best: map<string, real>, p: Option<string>, sum: real) {
    && sum >= 0.0
    && (forall q :: q in ps ==> Get(best, q, 0.0) <= sum)
    && match p
       case None => sum == 0.0
       case Some(q) => sum > 0.0 && q in ps && q in best && best[q] == sum
  }

  method HeaviestParent(ps: seq<string>, best: map<string, real>) returns (p: Option<string>, sum: real)
    ensures Heaviest(ps, best, p, sum)
  {
    p, sum := None, 0.0;
    for i := 0 to |ps|
      invariant Heaviest(ps[..i], best, p, sum)
    {
      assert ps[..i + 1] == ps[..i] + [ps[i]];
      var s := Get(best, ps[i], 0.0);
      if s > sum {
        p, sum := Some(ps[i]), s;
      }
    }
    assert ps[..|ps|] == ps;
  }

  // ---- Scores on any graph ----

  /** The best positive score among `ps`, or zero. */
  function Offer(ps: seq<string>, scores: map<string, real>): (o: real)
    ensures o >= 0.0
  {
    if ps == [] then 0.0
    else
      var o, s := Offer(ps[..|ps| - 1], scores), Get(scores, ps[|ps| - 1], 0.0);
      if s > o then s else o
  }

  function Alone(nodes: seq<Node>): map<string, real> {
    map id | id in (set n | n in nodes :: n.id) :: Weight(nodes, id)
  }

  /** The scores once the vertices of `order` have had their turns, whatever the graph. */
  function Scores(nodes: seq<Node>, links: seq<Edge>, order: seq<string>): map<string, real> {
    if order == [] then Alone(nodes)
    else
      var n := |order| - 1;
      var before, x := Scores(nodes, links, order[..n]), order[n];
      var o := Offer(Sources(links, x), before);
      if o > 0.0 then before[x := o + Weight(nodes, x)] else before
  }

  /** What was decided at the turn of the `i`th vertex: no parent had a positive score and it
      keeps its own duration, or a best parent is recorded and its score at that turn added. */
  ghost predicate Decided(nodes: seq<Node>, links: seq<Edge>, order: seq<string>, i: nat,
                          best: map<string, real>, prev: map<string, Option<string>>)
    requires i < |order|
  {
    var x, before := order[i], Scores(nodes, links, order[..i]);
    match Get(prev, x, None)
    case None =>
      && (forall p :: Linked(links, p, x) ==> Get(before, p, 0.0) <= 0.0)
      && Get(best, x, 0.0) == Weight(nodes, x)
    case Some(p) =>
      && Linked(links, p, x) && p in before && before[p] > 0.0
      && (forall q :: Linked(links, q, x) ==> Get(before, q, 0.0) <= before[p])
      && x in best && best[x] == before[p] + Weight(nodes, x)
  }

  lemma {:induction false} OfferIs(ps: seq<string>, scores: map<string, real>)
    ensures forall p :: p in ps ==> Get(scores, p, 0.0) <= Offer(ps, scores)
    ensures Offer(ps, scores) > 0.0 ==> exists p :: p in ps && Get(scores, p, 0.0) == Offer(ps, scores)
  {
    if ps != [] {
      OfferIs(ps[..|ps| - 1], scores);
    }
  }

  lemma HeaviestIsOffer(ps: seq<string>, best: map<string, real>, p: Option<string>, sum: real)
    requires Heaviest(ps, best, p, sum)
    ensures sum == Offer(ps, best) && (p.Some? <==> sum > 0.0)
  {
    OfferIs(ps, best);
  }

  lemma AloneUnscored(nodes: seq<Node>, best: map<string, real>, prev: map<string, Option<string>>)
    requires forall id :: id in best <==> HasNode(nodes, id)
    requires forall id :: id in best ==> Unscored(nodes, best, prev, id)
    ensures best == Alone(nodes)
  {
    hide Weight;
    forall id ensures HasNode(nodes, id) <==> id in Alone(nodes) {
    }
  }

  lemma ScoresNext(nodes: seq<Node>, links: seq<Edge>, order: seq<string>, i: nat, p: Option<string>, sum: real)
    requires i < |order| && Heaviest(Sources(links, order[i]), Scores(nodes, links, order[..i]), p, sum)
    ensures var before, x := Scores(nodes, links, order[..i]), order[i];
            Scores(nodes, links, order[..i + 1]) == if p.Some? then before[x := sum + Weight(nodes, x)] else before
  {
    hide Heaviest, Weight, Offer;
    HeaviestIsOffer(Sources(links, order[i]), Scores(nodes, links, order[..i]), p, sum);
    assert order[..i + 1][..i] == order[..i];
  }

  lemma DecidedNow(nodes: seq<Node>, links: seq<Edge>, order: seq<string>, i: nat, p: Option<string>, sum: real,
                   best: map<string, real>, prev: map<string, Option<string>>)
    requires i < |order| && best == Scores(nodes, links, order[..i])
    requires Heaviest(Sources(links, order[i]), best, p, sum)
    requires Get(prev, order[i], None) == None && Get(best, order[i], 0.0) == Weight(nodes, order[i])
    ensures var x := order[i];
            if p == None then Decided(nodes, links, order, i, best, prev)
            else Decided(nodes, links, order, i, best[x := sum + Weight(nodes, x)], prev[x := p])
  {
    hide Weight, Linked, Scores;
    SourcesLinked(links, order[i]);
  }

  lemma DecidedStays(nodes: seq<Node>, links: seq<Edge>, order: seq<string>, i: nat, x: string, score: real, p: Option<string>,
                     best: map<string, real>, prev: map<string, Option<string>>)
    requires i < |order| && Decided(nodes, links, order, i, best, prev) && x != order[i]
    ensures Decided(nodes, links, order, i, best[x := score], prev[x := p])
  {
    hide Weight, Linked, Scores;
  }

  // ---- When a vertex keeps its own duration ----

  /** `x` was given a parent's score in the course of `order`. */
  ghost predicate Raised(nodes: seq<Node>, links: seq<Edge>, order: seq<string>, x: string)
    decreases |order|, 0
  {
    order != [] &&
    var front := order[..|order| - 1];
    || Raised(nodes, links, front, x)
    || (x == order[|order| - 1] && exists p :: Feeds(nodes, links, front, p, x))
  }

  ghost predicate Feeds(nodes: seq<Node>, links: seq<Edge>, order: seq<string>, p: string, x: string)
    decreases |order|, 1
  {
    Linked(links, p, x) && (Weight(nodes, p) > 0.0 || Raised(nodes, links, order, p))
  }

  lemma {:induction false} RaisedScores(nodes: seq<Node>, links: seq<Edge>, order: seq<string>, x: string)
    ensures var score := Get(Scores(nodes, links, order), x, 0.0);
            score >= Weight(nodes, x) && (score == Weight(nodes, x) <==> !Raised(nodes, links, order, x))
    decreases |order|
  {
    hide Weight, Linked, Offer;
    if order == [] {
      AloneScore(nodes, x);
    } else {
      var n := |order| - 1;
      var front, last, before := order[..n], order[n], Scores(nodes, links, order[..n]);
      RaisedScores(nodes, links, front, x);
      if x == last {
        SourcesLinked(links, x);
        OfferIs(Sources(links, x), before);
        forall p | Linked(links, p, x) ensures Get(before, p, 0.0) > 0.0 <==> Feeds(nodes, links, front, p, x) {
          RaisedScores(nodes, links, front, p);
        }
        if Offer(Sources(links, x), before) > 0.0 {
          var p :| p in Sources(links, x) && Get(before, p, 0.0) == Offer(Sources(links, x), before);
          assert Feeds(nodes, links, front, p, x);
        } else {
          forall p ensures !Feeds(nodes, links, front, p, x) {
            assert Linked(links, p, x) ==> p in Sources(links, x);
          }
        }
      }
    }
  }

  lemma {:induction false} AloneScore(nodes: seq<Node>, x: string)
    ensures Get(Alone(nodes), x, 0.0) == Weight(nodes, x)
  {
    if !HasNode(nodes, x) {
      NoNodeNoWeight(nodes, x);
    }
  }

  lemma {:induction false} NoNodeNoWeight(nodes: seq<Node>, x: string)
    requires !HasNode(nodes, x)
    ensures Weight(nodes, x) == 0.0
  {
    if nodes != [] {
      var n := |nodes| - 1;
      assert nodes[n] in nodes;
      forall m | m in nodes[..n] ensures m in nodes {
      }
      NoNodeNoWeight(nodes[..n], x);
    }
  }

  /** `a` occurs in `b`, in order. */
  predicate Subsequence(a: seq<string>, b: seq<string>) {
    || a == []
    || (b != [] && (Subsequence(a, b[..|b| - 1])
                    || (a[|a| - 1] == b[|b| - 1] && Subsequence(a[..|a| - 1], b[..|b| - 1]))))
  }

  /** A walk to `x` from a vertex of positive duration, along which the rest have their turns in order. */
  predicate Ripples(nodes: seq<Node>, links: seq<Edge>, order: seq<string>, w: seq<string>, x: string) {
    |w| > 1 && w[|w| - 1] == x && Walk(links, w) && Weight(nodes, w[0]) > 0.0 && Subsequence(w[1..], order)
  }

  lemma SubsequenceMore(a: seq<string>, b: seq<string>, x: string)
    requires Subsequence(a, b)
    ensures Subsequence(a, b + [x]) && Subsequence(a + [x], b + [x])
  {
    assert (b + [x])[..|b|] == b && (a + [x])[..|a|] == a;
  }

  lemma WalkOn(links: seq<Edge>, w: seq<string>, x: string)
    requires w != [] && Walk(links, w) && Linked(links, w[|w| - 1], x)
    ensures Walk(links, w + [x])
  {
    hide Linked;
    forall i | 0 < i < |w + [x]| ensures Linked(links, (w + [x])[i - 1], (w + [x])[i]) {
      assert i < |w| ==> Linked(links, w[i - 1], w[i]);
    }
  }

  lemma {:induction false} RaisedRipples(nodes: seq<Node>, links: seq<Edge>, order: seq<string>, x: string) returns (w: seq<string>)
    requires Raised(nodes, links, order, x)
    ensures Ripples(nodes, links, order, w, x)
    decreases |order|
  {
    hide Weight, Linked, Walk, Subsequence;
    var n := |order| - 1;
    var front := order[..n];
    assert order == front + [order[n]];
    if Raised(nodes, links, front, x) {
      w := RaisedRipples(nodes, links, front, x);
      SubsequenceMore(w[1..], front, order[n]);
    } else {
      var p :| Feeds(nodes, links, front, p, x);
      if Raised(nodes, links, front, p) {
        var v := RaisedRipples(nodes, links, front, p);
        w := v + [x];
        WalkOn(links, v, x);
        SubsequenceMore(v[1..], front, x);
        assert w[1..] == v[1..] + [x];
      } else {
        w := [p] + [x];
        assert Walk(links, [p]) by { OneWalk(links, p); }
        WalkOn(links, [p], x);
        assert Subsequence([], front) by { EmptySubsequence(front); }
        SubsequenceMore([], front, x);
        assert w[1..] == [] + [x];
      }
    }
  }

  lemma OneWalk(links: seq<Edge>, p: string)
    ensures Walk(links, [p])
  {
  }

  lemma EmptySubsequence(b: seq<string>)
    ensures Subsequence([], b)
  {
  }

  lemma {:induction false} RipplesRaise(nodes: seq<Node>, links: seq<Edge>, order: seq<string>, w: seq<string>, x: string)
    requires Ripples(nodes, links, order, w, x)
    ensures Raised(nodes, links, order, x)
    decreases |order|
  {
    hide Weight, Linked;
    var n, k := |order| - 1, |w| - 1;
    var front, rest := order[..n], w[1..];
    if Subsequence(rest, front) {
      RipplesRaise(nodes, links, front, w, x);
    } else {
      var v := w[..k];
      assert rest[..|rest| - 1] == v[1..] && rest[|rest| - 1] == x;
      assert Linked(links, w[k - 1], w[k]);
      forall i | 0 < i < |v| ensures Linked(links, v[i - 1], v[i]) {
        assert Linked(links, w[i - 1], w[i]);
      }
      if k > 1 {
        RipplesRaise(nodes, links, front, v, w[k - 1]);
      }
      assert Feeds(nodes, links, front, w[k - 1], x);
    }
  }

  /** On any graph and for any order, a vertex keeps its own duration exactly when no walk
      leads to it from a vertex of positive duration along vertices that have their turns in order. */
  lemma KeepsOwnDuration(nodes: seq<Node>, links: seq<Edge>, order: seq<string>, x: string)
    ensures Get(Scores(nodes, links, order), x, 0.0) == Weight(nodes, x)
            <==> !exists w :: Ripples(nodes, links, order, w, x)
  {
    hide Weight, Linked, Scores, Raised, Ripples;
    RaisedScores(nodes, links, order, x);
    if Raised(nodes, links, order, x) {
      var w := RaisedRipples(nodes, links, order, x);
    }
    forall w | Ripples(nodes, links, order, w, x) ensures Raised(nodes, links, order, x) {
      RipplesRaise(nodes, links, order, w, x);
    }
  }

  /** Where all durations are positive, no vertex that Kahn's loop leaves out keeps its own. */
  lemma LeftOutIsRaised(nodes: seq<Node>, links: seq<Edge>, sorted: seq<string>, order: seq<string>, x: string)
    requires forall n :: n in nodes ==> Weight(nodes, n.id) > 0.0
    requires forall e :: e in links ==> HasNode(nodes, e.source)
    requires x !in sorted && x in order && exists e :: e in links && e.target == x && e.source !in sorted
    ensures Get(Scores(nodes, links, order), x, 0.0) > Weight(nodes, x)
  {
    hide Weight, Scores;
    var e :| e in links && e.target == x && e.source !in sorted;
    assert Linked(links, e.source, x);
    RaisedScores(nodes, links, order, x);
    RaisedOnce(nodes, links, order, e.source, x);
  }

  lemma {:induction false} RaisedOnce(nodes: seq<Node>, links: seq<Edge>, order: seq<string>, p: string, x: string)
    requires x in order && Linked(links, p, x) && Weight(nodes, p) > 0.0
    ensures Raised(nodes, links, order, x)
    decreases |order|
  {
    hide Weight, Linked;
    var n := |order| - 1;
    if x == order[n] {
      assert Feeds(nodes, links, order[..n], p, x);
    } else {
      assert order == order[..n] + [order[n]];
      RaisedOnce(nodes, links, order[..n], p, x);
    }
  }

  /** Progress of the recurrence along the order. */
  ghost predicate Scoring(nodes: seq<Node>, links: seq<Edge>, order: seq<string>,
                          best: map<string, real>, prev: map<string, Option<string>>, i: nat) {
    && i <= |order|
    && (forall x :: x in best ==> x in order)
    && (forall j :: 0 <= j < i ==> Scored(nodes, links, order, best, prev, order[j]))
    && (forall j :: i <= j < |order| ==> Unscored(nodes, best, prev, order[j]))
  }

  lemma ScoreKept(nodes: seq<Node>, links: seq<Edge>, order: seq<string>,
                  best: map<string, real>, prev: map<string, Option<string>>, x: string,
                  best': map<string, real>, prev': map<string, Option<string>>)
    requires Scored(nodes, links, order, best, prev, x)
    requires x in prev' && prev'[x] == prev[x] && x in best' && best'[x] == best[x]
    requires forall p :: Linked(links, p, x) ==> p in best' && (p in best ==> best'[p] == best[p])
    ensures Scored(nodes, links, order, best', prev', x)
  {
  }

  lemma Parents(nodes: seq<Node>, links: seq<Edge>, order: seq<string>, i: nat, p: string)
    requires Covers(nodes, links, order) && i < |order| && Linked(links, p, order[i])
    ensures p in order[..i] && Index(order, p) < Index(order, order[i]) && p != order[i]
  {
    var j :| 0 <= j < i && order[j] == p;
    IndexAt(order, i);
    IndexAt(order, j);
  }

  lemma ScoreNext(nodes: seq<Node>, links: seq<Edge>, order: seq<string>,
                  best: map<string, real>, prev: map<string, Option<string>>, i: nat, p: Option<string>, sum: real)
    requires Covers(nodes, links, order) && Scoring(nodes, links, order, best, prev, i) && i < |order|
    requires Heaviest(Sources(links, order[i]), best, p, sum)
    ensures var x := order[i];
            if p == None then Scoring(nodes, links, order, best, prev, i + 1)
            else Scoring(nodes, links, order, best[x := sum + Weight(nodes, x)], prev[x := p], i + 1)
  {
    hide Scored, Linked, Index, Covers, Heaviest;
    var x := order[i];
    var best' := if p == None then best else best[x := sum + Weight(nodes, x)];
    var prev' := if p == None then prev else prev[x := p];
    CoversDistinct(nodes, links, order);
    forall j | 0 <= j < i ensures Scored(nodes, links, order, best', prev', order[j]) {
      assert order[j] != x;
      assert Unscored(nodes, best, prev, x);
      forall q | Linked(links, q, order[j]) ensures q in best' && (q in best ==> best'[q] == best[q]) {
        Parents(nodes, links, order, j, q);
        assert q in order[..j];
        assert Scored(nodes, links, order, best, prev, order[j]);
        ScoredParent(nodes, links, order, best, prev, order[j], q);
      }
      assert Scored(nodes, links, order, best, prev, order[j]);
      ScoredKnown(nodes, links, order, best, prev, order[j]);
      ScoreKept(nodes, links, order, best, prev, order[j], best', prev');
    }
    ScoreNew(nodes, links, order, best, prev, i, p, sum);
    forall j | i + 1 <= j < |order| ensures Unscored(nodes, best', prev', order[j]) {
      assert order[j] != x;
    }
  }

  lemma CoversDistinct(nodes: seq<Node>, links: seq<Edge>, order: seq<string>)
    requires Covers(nodes, links, order)
    ensures Distinct(order)
  {
  }

  lemma ScoredKnown(nodes: seq<Node>, links: seq<Edge>, order: seq<string>,
                    best: map<string, real>, prev: map<string, Option<string>>, x: string)
    requires Scored(nodes, links, order, best, prev, x)
    ensures x in best && x in prev
  {
  }

  lemma ScoredParent(nodes: seq<Node>, links: seq<Edge>, order: seq<string>,
                     best: map<string, real>, prev: map<string, Option<string>>, x: string, p: string)
    requires Scored(nodes, links, order, best, prev, x) && Linked(links, p, x)
    ensures p in best
  {
  }

  lemma ScoreNew(nodes: seq<Node>, links: seq<Edge>, order: seq<string>,
                 best: map<string, real>, prev: map<string, Option<string>>, i: nat, p: Option<string>, sum: real)
    requires Covers(nodes, links, order) && Scoring(nodes, links, order, best, prev, i) && i < |order|
    requires Heaviest(Sources(links, order[i]), best, p, sum)
    ensures var x := order[i];
            if p == None then Scored(nodes, links, order, best, prev, x)
            else Scored(nodes, links, order, best[x := sum + Weight(nodes, x)], prev[x := p], x)
  {
    hide Covers, Index, Scored, Linked, Weight;
    var x := order[i];
    assert Unscored(nodes, best, prev, x);
    forall q | Linked(links, q, x)
      ensures q in best && q != x && best[q] <= sum && Index(order, q) < Index(order, x)
    {
      ParentOffer(nodes, links, order, best, prev, i, p, sum, q);
    }
    if p.Some? {
      HeaviestIsParent(links, x, best, p.value, sum);
    }
    ScoreOf(nodes, links, order, best, prev, x, p, sum);
  }

  lemma ScoreOf(nodes: seq<Node>, links: seq<Edge>, order: seq<string>,
                best: map<string, real>, prev: map<string, Option<string>>, x: string, p: Option<string>, sum: real)
    requires Unscored(nodes, best, prev, x)
    requires forall q :: Linked(links, q, x) ==> q in best && q != x && best[q] <= sum && Index(order, q) < Index(order, x)
    requires if p == None then sum == 0.0
             else sum >= 0.0 && Linked(links, p.value, x) && best[p.value] == sum
    ensures if p == None then Scored(nodes, links, order, best, prev, x)
            else Scored(nodes, links, order, best[x := sum + Weight(nodes, x)], prev[x := p], x)
  {
    hide Linked, Index;
  }

  lemma ParentOffer(nodes: seq<Node>, links: seq<Edge>, order: seq<string>,
                    best: map<string, real>, prev: map<string, Option<string>>, i: nat, p: Option<string>, sum: real, q: string)
    requires Covers(nodes, links, order) && Scoring(nodes, links, order, best, prev, i) && i < |order|
    requires Heaviest(Sources(links, order[i]), best, p, sum) && Linked(links, q, order[i])
    ensures q in best && q != order[i] && best[q] <= sum && Index(order, q) < Index(order, order[i])
  {
    hide Covers, Index, Linked, Unscored;
    SourcesLinked(links, order[i]);
    assert q in Sources(links, order[i]);
    Parents(nodes, links, order, i, q);
    var j :| 0 <= j < i && order[j] == q;
    assert Scored(nodes, links, order, best, prev, order[j]);
  }

  // ---- The recurrence as it runs ----

  method Durations(nodes: seq<Node>) returns (duration: map<string, real>)
    ensures forall id :: Get(duration, id, 0.0) == Weight(nodes, id)
    ensures forall id :: id in duration <==> HasNode(nodes, id)
  {
    duration := map[];
    for i := 0 to |nodes|
      invariant forall id :: Get(duration, id, 0.0) == Weight(nodes[..i], id)
      invariant forall id :: id in duration <==> HasNode(nodes[..i], id)
    {
      var n := nodes[i];
      assert nodes[..i + 1] == nodes[..i] + [n] && nodes[..i + 1][..i] == nodes[..i];
      duration := duration[n.id := Positive(n.duration)];
    }
    assert nodes[..|nodes|] == nodes;
  }

  method ParentLists(links: seq<Edge>) returns (parents: map<string, seq<string>>)
    ensures forall id :: Get(parents, id, []) == Sources(links, id)
  {
    parents := map[];
    for i := 0 to |links|
      invariant forall id :: Get(parents, id, []) == Sources(links[..i], id)
    {
      var e := links[i];
      assert links[..i + 1] == links[..i] + [e] && links[..i + 1][..i] == links[..i];
      parents := parents[e.target := Get(parents, e.target, []) + [e.source]];
    }
    assert links[..|links|] == links;
  }

  /** Every recorded parent is one. */
  ghost predicate Traceable(links: seq<Edge>, best: map<string, real>, prev: map<string, Option<string>>, keys: seq<string>) {
    && best.Keys == prev.Keys && Distinct(keys) && (forall x :: x in keys <==> x in best)
    && (forall x :: x in best ==> best[x] >= 0.0)
    && (forall x :: x in prev && prev[x].Some? ==> Linked(links, prev[x].value, x))
  }

  /** Each node alone. `keys` is the insertion order of `best`. */
  method ScoreAlone(nodes: seq<Node>, links: seq<Edge>, duration: map<string, real>)
    returns (best: map<string, real>, prev: map<string, Option<string>>, keys: seq<string>)
    requires forall id :: Get(duration, id, 0.0) == Weight(nodes, id)
    ensures Traceable(links, best, prev, keys)
    ensures forall id :: id in best <==> HasNode(nodes, id)
    ensures forall id :: id in best ==> Unscored(nodes, best, prev, id)
  {
    best, prev, keys := map[], map[], [];
    for i := 0 to |nodes|
      invariant Traceable(links, best, prev, keys)
      invariant forall id :: id in best <==> HasNode(nodes[..i], id)
      invariant forall id :: id in best ==> Unscored(nodes, best, prev, id)
    {
      var id := nodes[i].id;
      assert nodes[..i + 1] == nodes[..i] + [nodes[i]];
      if id !in best {
        keys := keys + [id];
      }
      best := best[id := Get(duration, id, 0.0)];
      prev := prev[id := None];
    }
    assert nodes[..|nodes|] == nodes;
  }

  lemma TraceMore(links: seq<Edge>, best: map<string, real>, prev: map<string, Option<string>>, keys: seq<string>,
                  x: string, p: string, score: real)
    requires Traceable(links, best, prev, keys) && Linked(links, p, x) && score >= 0.0
    ensures Traceable(links, best[x := score], prev[x := Some(p)], if x in best then keys else keys + [x])
  {
  }

  method ScoreAlong(nodes: seq<Node>, links: seq<Edge>, order: seq<string>)
    returns (best: map<string, real>, prev: map<string, Option<string>>, keys: seq<string>)
    ensures Traceable(links, best, prev, keys)
    ensures forall n :: n in nodes ==> n.id in best
    ensures best == Scores(nodes, links, order)
    ensures Distinct(order) ==> forall i :: 0 <= i < |order| ==> Decided(nodes, links, order, i, best, prev)
    ensures Covers(nodes, links, order) ==> Scoring(nodes, links, order, best, prev, |order|)
  {
    hide Traceable, Covers, Scoring, Heaviest, Linked, Unscored, Weight, Scores, Deciding;
    var duration := Durations(nodes);
    best, prev, keys := ScoreAlone(nodes, links, duration);
    var parents := ParentLists(links);
    SameKeys(links, best, prev, keys);
    NoneDecided(nodes, links, order, best, prev);
    assert Covers(nodes, links, order) ==> Scoring(nodes, links, order, best, prev, 0) by {
      if Covers(nodes, links, order) {
        ScoringStarts(nodes, links, order, best, prev);
      }
    }
    for i := 0 to |order|
      invariant Traceable(links, best, prev, keys)
      invariant forall n :: n in nodes ==> n.id in best
      invariant best == Scores(nodes, links, order[..i])
      invariant Distinct(order) ==> Deciding(nodes, links, order, i, best, prev)
      invariant Covers(nodes, links, order) ==> Scoring(nodes, links, order, best, prev, i)
    {
      var x := order[i];
      var own := Get(duration, x, 0.0);
      var p, sum := HeaviestParent(Get(parents, x, []), best);
      ScoresNext(nodes, links, order, i, p, sum);
      if Distinct(order) {
        DecidingNext(nodes, links, order, i, p, sum, best, prev);
      }
      if Covers(nodes, links, order) {
        ScoreNext(nodes, links, order, best, prev, i, p, sum);
      }
      if p != None {
        HeaviestIsParent(links, x, best, p.value, sum);
        KeysAreBest(links, best, prev, keys);
        TraceMore(links, best, prev, keys, x, p.value, sum + own);
        if x !in best {
          keys := keys + [x];
        }
        best := best[x := sum + own];
        prev := prev[x := p];
      }
    }
    assert order[..|order|] == order;
    AllDecided(nodes, links, order, best, prev);
  }

  /** The first `i` are decided; the others still stand alone. */
  ghost predicate Deciding(nodes: seq<Node>, links: seq<Edge>, order: seq<string>, i: nat,
                           best: map<string, real>, prev: map<string, Option<string>>) {
    && i <= |order|
    && (forall j :: 0 <= j < i ==> Decided(nodes, links, order, j, best, prev))
    && (forall j :: i <= j < |order| ==>
          Get(prev, order[j], None) == None && Get(best, order[j], 0.0) == Weight(nodes, order[j]))
  }

  lemma NoneDecided(nodes: seq<Node>, links: seq<Edge>, order: seq<string>,
                    best: map<string, real>, prev: map<string, Option<string>>)
    requires best.Keys == prev.Keys
    requires forall id :: id in best <==> HasNode(nodes, id)
    requires forall id :: id in best ==> Unscored(nodes, best, prev, id)
    ensures best == Scores(nodes, links, order[..0]) && Deciding(nodes, links, order, 0, best, prev)
  {
    hide Weight;
    AloneUnscored(nodes, best, prev);
    assert order[..0] == [];
    forall j | 0 <= j < |order|
      ensures Get(prev, order[j], None) == None && Get(best, order[j], 0.0) == Weight(nodes, order[j])
    {
      AloneScore(nodes, order[j]);
    }
  }

  lemma DecidingNext(nodes: seq<Node>, links: seq<Edge>, order: seq<string>, i: nat, p: Option<string>, sum: real,
                     best: map<string, real>, prev: map<string, Option<string>>)
    requires i < |order| && best == Scores(nodes, links, order[..i]) && Distinct(order)
    requires Deciding(nodes, links, order, i, best, prev) && Heaviest(Sources(links, order[i]), best, p, sum)
    ensures var x := order[i];
            if p == None then Deciding(nodes, links, order, i + 1, best, prev)
            else Deciding(nodes, links, order, i + 1, best[x := sum + Weight(nodes, x)], prev[x := p])
  {
    hide Weight, Decided, Heaviest, Scores;
    var x := order[i];
    var best' := if p == None then best else best[x := sum + Weight(nodes, x)];
    var prev' := if p == None then prev else prev[x := p];
    DecidedNow(nodes, links, order, i, p, sum, best, prev);
    forall j | 0 <= j < i + 1 ensures Decided(nodes, links, order, j, best', prev') {
      if j < i {
        assert order[j] != x;
        DecidedStays(nodes, links, order, j, x, sum + Weight(nodes, x), p, best, prev);
      }
    }
    forall j | i + 1 <= j < |order|
      ensures Get(prev', order[j], None) == None && Get(best', order[j], 0.0) == Weight(nodes, order[j])
    {
      assert order[j] != x;
    }
  }

  lemma AllDecided(nodes: seq<Node>, links: seq<Edge>, order: seq<string>,
                   best: map<string, real>, prev: map<string, Option<string>>)
    ensures Deciding(nodes, links, order, |order|, best, prev) ==>
              forall i :: 0 <= i < |order| ==> Decided(nodes, links, order, i, best, prev)
  {
  }

  lemma SameKeys(links: seq<Edge>, best: map<string, real>, prev: map<string, Option<string>>, keys: seq<string>)
    requires Traceable(links, best, prev, keys)
    ensures best.Keys == prev.Keys
  {
  }

  lemma KeysAreBest(links: seq<Edge>, best: map<string, real>, prev: map<string, Option<string>>, keys: seq<string>)
    requires Traceable(links, best, prev, keys)
    ensures forall x :: x in keys <==> x in best
  {
  }

  lemma HeaviestIsParent(links: seq<Edge>, x: string, best: map<string, real>, p: string, sum: real)
    requires Heaviest(Sources(links, x), best, Some(p), sum)
    ensures Linked(links, p, x) && sum >= 0.0
  {
    hide Linked;
    SourcesLinked(links, x);
  }

  lemma ScoringStarts(nodes: seq<Node>, links: seq<Edge>, order: seq<string>,
                      best: map<string, real>, prev: map<string, Option<string>>)
    requires Covers(nodes, links, order)
    requires forall id :: id in best <==> HasNode(nodes, id)
    requires forall id :: id in best ==> Unscored(nodes, best, prev, id)
    ensures Scoring(nodes, links, order, best, prev, 0)
  {
    hide Unscored;
    forall x | x in best ensures x in order {
      assert HasNode(nodes, x);
    }
  }

  // ---- The tail, and the way back ----

  method Tail(keys: seq<string>, best: map<string, real>) returns (tail: Option<string>)
    requires forall k :: k in keys ==> k in best && best[k] >= 0.0
    ensures tail == None <==> keys == []
    ensures tail.Some? ==> tail.value in keys && forall k :: k in keys ==> best[k] <= best[tail.value]
  {
    tail := None;
    var max := -1.0;
    for i := 0 to |keys|
      invariant tail == None <==> i == 0
      invariant tail.None? ==> max == -1.0
      invariant tail.Some? ==> tail.value in keys[..i] && best[tail.value] == max
      invariant forall k :: k in keys[..i] ==> best[k] <= max
    {
      assert keys[..i + 1] == keys[..i] + [keys[i]];
      assert keys[i] in keys;
      if best[keys[i]] > max {
        max := best[keys[i]];
        tail := Some(keys[i]);
      }
    }
    assert keys[..|keys|] == keys;
  }

  function Ends(links: seq<Edge>): set<string> {
    (set e | e in links :: e.source) + (set e | e in links :: e.target)
  }

  /** The heaviest score still to be collected on the way back. */
  function Pending(best: map<string, real>, cur: Option<string>): real {
    if cur.Some? then Get(best, cur.value, 0.0) else 0.0
  }

  /** The walk back from `tail`: what is on it comes after `cur`, which leads into it. */
  ghost predicate Tracing(nodes: seq<Node>, order: seq<string>, best: map<string, real>, top: real,
                          walk: seq<string>, cur: Option<string>) {
    && (cur.Some? ==> cur.value in best && cur.value in order && cur.value != "")
    && (cur.Some? ==> forall x :: x in walk ==> Index(order, cur.value) < Index(order, x))
    && (forall x :: x in walk ==> x in order)
    && Sum(nodes, walk) + Pending(best, cur) == top
  }

  lemma {:induction false} SumFrom(nodes: seq<Node>, x: string, w: seq<string>)
    ensures Sum(nodes, [x] + w) == Weight(nodes, x) + Sum(nodes, w)
  {
    hide Weight;
    if w == [] {
      assert [x] + w == [x] && [x][..0] == [];
    } else {
      var n := |w| - 1;
      assert ([x] + w)[..n + 1] == [x] + w[..n];
      SumFrom(nodes, x, w[..n]);
    }
  }

  lemma TraceOn(nodes: seq<Node>, links: seq<Edge>, order: seq<string>, best: map<string, real>,
                prev: map<string, Option<string>>, top: real, walk: seq<string>, cur: string)
    requires Tracing(nodes, order, best, top, walk, Some(cur)) && Scoring(nodes, links, order, best, prev, |order|)
    requires "" !in order
    ensures cur !in walk && cur in prev
    ensures Tracing(nodes, order, best, top, [cur] + walk, prev[cur])
  {
    hide Index, Weight, Linked;
    var i :| 0 <= i < |order| && order[i] == cur;
    assert Scored(nodes, links, order, best, prev, order[i]);
    SumFrom(nodes, cur, walk);
  }

  /** Follows recorded parents from the tail, as far as a vertex already seen. */
  method TraceBack(nodes: seq<Node>, links: seq<Edge>, ghost order: seq<string>, ghost keys: seq<string>,
                   best: map<string, real>, prev: map<string, Option<string>>, tail: Option<string>)
    returns (path: set<string>, ghost walk: seq<string>)
    requires Traceable(links, best, prev, keys)
    ensures Walk(links, walk) && path == SetOf(walk)
    ensures if tail.Some? && tail.value != "" then tail.value in path else path == {}
    ensures tail.Some? && tail.value != "" ==> walk != [] && walk[|walk| - 1] == tail.value
    ensures tail.Some? && tail.value in best && tail.value in order && "" !in order
            && Scoring(nodes, links, order, best, prev, |order|) ==>
              Sum(nodes, walk) == best[tail.value] && forall x :: x in walk ==> x in order
  {
    hide Linked, Index, Weight, Scoring, Tracing, Sum;
    path, walk := {}, [];
    var cur := tail;
    ghost var sound := tail.Some? && tail.value in best && tail.value in order && "" !in order
                       && Scoring(nodes, links, order, best, prev, |order|);
    ghost var all := Ends(links) + if tail.Some? then {tail.value} else {};
    ghost var top := if sound then best[tail.value] else 0.0;
    if sound {
      TraceStart(nodes, order, best, tail.value);
    }
    while cur.Some? && cur.value != ""
      invariant path == SetOf(walk) && path <= all && Walk(links, walk)
      invariant cur.Some? ==> cur.value in all && (walk != [] ==> Linked(links, cur.value, walk[0]))
      invariant if walk == [] then cur == tail
                else tail.Some? && tail.value != "" && walk[|walk| - 1] == tail.value && tail.value in path
      invariant sound ==> Tracing(nodes, order, best, top, walk, cur)
      decreases all - path
    {
      var id := cur.value;
      if sound {
        TraceOn(nodes, links, order, best, prev, top, walk, id);
      }
      if id in path {
        return;
      }
      WalkFrom(links, id, walk);
      path := path + {id};
      walk := [id] + walk;
      cur := Get(prev, id, None);
      if cur.Some? {
        LinkedEnds(links, cur.value, id);
      }
    }
    if sound {
      TraceEnd(nodes, order, best, top, walk, cur);
    }
  }

  lemma TraceStart(nodes: seq<Node>, order: seq<string>, best: map<string, real>, tail: string)
    requires tail in best && tail in order && "" !in order
    ensures Tracing(nodes, order, best, best[tail], [], Some(tail))
  {
  }

  lemma TraceEnd(nodes: seq<Node>, order: seq<string>, best: map<string, real>, top: real, walk: seq<string>, cur: Option<string>)
    requires Tracing(nodes, order, best, top, walk, cur) && !(cur.Some? && cur.value != "")
    ensures Sum(nodes, walk) == top && forall x :: x in walk ==> x in order
  {
  }

  lemma LinkedEnds(links: seq<Edge>, p: string, x: string)
    requires Linked(links, p, x)
    ensures p in Ends(links)
  {
    var e :| e in links && e.source == p && e.target == x;
    assert e.source in Ends(links);
  }

  // ---- The critical path ----

  /** No path outweighs the score of the vertex it ends in. */
  lemma {:induction false} PathBound(nodes: seq<Node>, links: seq<Edge>, order: seq<string>, best: map<string, real>,
                                     prev: map<string, Option<string>>, w: seq<string>)
    requires Covers(nodes, links, order) && Scoring(nodes, links, order, best, prev, |order|)
    requires Path(nodes, links, w)
    ensures w[|w| - 1] in best && Sum(nodes, w) <= best[w[|w| - 1]]
    decreases |w|
  {
    hide Index, Weight, Linked;
    var n := |w| - 1;
    var x, front := w[n], w[..n];
    assert x in w && HasNode(nodes, x);
    var i :| 0 <= i < |order| && order[i] == x;
    assert Scored(nodes, links, order, best, prev, order[i]);
    if n > 0 {
      assert Path(nodes, links, front) by {
        forall k | 0 < k < |front| ensures Linked(links, front[k - 1], front[k]) {
          assert Linked(links, w[k - 1], w[k]);
        }
      }
      PathBound(nodes, links, order, best, prev, front);
      assert Linked(links, w[n - 1], w[n]);
    } else {
      assert front == [];
    }
  }

  /** What Kahn's loop can leave: topological, without repeats, and closed under what it leaves out. */
  ghost predicate Sorted(links: seq<Edge>, nodes: seq<Node>, sorted: seq<string>) {
    && Distinct(sorted) && Topological(links, sorted)
    && (forall id :: id in sorted ==> HasNode(nodes, id) || exists e :: e in links && e.target == id)
    && forall n :: n in nodes && n.id !in sorted ==> exists e :: e in links && e.target == n.id && e.source !in sorted
  }

  /** The nodes left out are appended in their own order. */
  function Completed(nodes: seq<Node>, sorted: seq<string>): seq<string> {
    if nodes == [] then sorted
    else
      var front, id := Completed(nodes[..|nodes| - 1], sorted), nodes[|nodes| - 1].id;
      front + if id in front then [] else [id]
  }

  lemma CompletedNext(nodes: seq<Node>, i: nat, sorted: seq<string>)
    requires i < |nodes|
    ensures var front := Completed(nodes[..i], sorted);
            Completed(nodes[..i + 1], sorted) == if nodes[i].id in front then front else front + [nodes[i].id]
  {
    assert nodes[..i + 1][..i] == nodes[..i] && nodes[..i + 1][i] == nodes[i];
  }

  lemma NothingCompleted(nodes: seq<Node>, sorted: seq<string>)
    ensures Completed(nodes[..0], sorted) == sorted
  {
  }

  /** Every node is in the completed order, once, and nothing is added if all were sorted. */
  lemma {:induction false} AllCompleted(nodes: seq<Node>, sorted: seq<string>)
    requires Distinct(sorted)
    ensures Distinct(Completed(nodes, sorted)) && forall n :: n in nodes ==> n.id in Completed(nodes, sorted)
    ensures (forall n :: n in nodes ==> n.id in sorted) ==> Completed(nodes, sorted) == sorted
    decreases nodes
  {
    if nodes != [] {
      AllCompleted(nodes[..|nodes| - 1], sorted);
    }
  }

  lemma SortedCovers(nodes: seq<Node>, links: seq<Edge>, keys: seq<string>, sorted: seq<string>)
    requires WellFormed(nodes, links) && Distinct(sorted) && Topological(links, sorted)
    requires forall n :: n in nodes ==> n.id in keys
    requires forall id :: id in sorted ==> id in keys
    requires forall id :: id in keys ==> HasNode(nodes, id) || exists e :: e in links && e.target == id
    requires forall id :: id in keys && id !in sorted ==> exists e :: e in links && e.target == id && e.source !in sorted
    ensures Covers(nodes, links, sorted) && forall n :: n in nodes ==> n.id in sorted
  {
    hide Acyclic, Topological;
    forall e | e in links ensures e.source in keys && e.target in keys {
      assert HasNode(nodes, e.source) && HasNode(nodes, e.target);
    }
    AllEmitted(links, keys, sorted);
  }

  method TopologicalOrder(nodes: seq<Node>, links: seq<Edge>) returns (order: seq<string>)
    ensures Distinct(order) && forall n :: n in nodes ==> n.id in order
    ensures exists sorted :: Sorted(links, nodes, sorted) && order == Completed(nodes, sorted)
    ensures WellFormed(nodes, links) ==> Covers(nodes, links, order)
  {
    hide Indexed, Topological, WellFormed, Covers;
    var children, incoming, keys := IndexLinks(nodes, links);
    var sorted := KahnSort(links, children, incoming, keys);
    assert Sorted(links, nodes, sorted);
    if WellFormed(nodes, links) {
      SortedCovers(nodes, links, keys, sorted);
    }
    hide Sorted, Completed, Distinct;
    AllCompleted(nodes, sorted);
    order := sorted;
    assert order == Completed(nodes[..0], sorted) by {
      NothingCompleted(nodes, sorted);
    }
    for i := 0 to |nodes|
      invariant order == Completed(nodes[..i], sorted)
    {
      CompletedNext(nodes, i, sorted);
      if nodes[i].id !in order {
        order := order + [nodes[i].id];
      }
    }
    assert nodes[..|nodes|] == nodes;
  }

  /** Two nodes linked both ways, of duration one each: neither is sorted, and neither keeps its own duration. */
  lemma TwoCycle(nodes: seq<Node>, links: seq<Edge>, sorted: seq<string>)
    requires nodes == [Node("a", 1.0), Node("b", 1.0)]
    requires links == [Edge("a", "b", "parent_child"), Edge("b", "a", "parent_child")]
    requires Sorted(links, nodes, sorted)
    ensures sorted == [] && Completed(nodes, sorted) == ["a", "b"]
    ensures Scores(nodes, links, ["a", "b"]) == map["a" := 2.0, "b" := 3.0]
  {
    TwoCycleUnsorted(links, sorted);
    TwoCycleScores(nodes, links);
    forall id ensures id !in sorted {
      assert HasNode(nodes, id) ==> id == "a" || id == "b";
    }
    NoMembers(sorted);
    assert nodes[..1] == [nodes[0]] && [nodes[0]][..0] == [];
    assert Completed([nodes[0]], []) == ["a"];
  }

  lemma NoMembers(s: seq<string>)
    ensures s == [] || s[0] in s
  {
  }

  lemma Earlier(links: seq<Edge>, sorted: seq<string>, e: Edge, i: nat) returns (j: nat)
    requires Topological(links, sorted) && e in links && i < |sorted| && sorted[i] == e.target
    ensures j < i && sorted[j] == e.source
  {
    j :| 0 <= j < i && sorted[..i][j] == e.source;
  }

  lemma TwoCycleUnsorted(links: seq<Edge>, sorted: seq<string>)
    requires links == [Edge("a", "b", "parent_child"), Edge("b", "a", "parent_child")]
    requires Distinct(sorted) && Topological(links, sorted)
    ensures "a" !in sorted && "b" !in sorted
  {
    hide Topological;
    var ab, ba := links[0], links[1];
    if i: nat :| i < |sorted| && sorted[i] == "a" {
      var j := Earlier(links, sorted, ba, i);
      var k := Earlier(links, sorted, ab, j);
    }
    if i: nat :| i < |sorted| && sorted[i] == "b" {
      var j := Earlier(links, sorted, ab, i);
      var k := Earlier(links, sorted, ba, j);
    }
  }

  lemma TwoCycleScores(nodes: seq<Node>, links: seq<Edge>)
    requires nodes == [Node("a", 1.0), Node("b", 1.0)]
    requires links == [Edge("a", "b", "parent_child"), Edge("b", "a", "parent_child")]
    ensures Scores(nodes, links, ["a", "b"]) == map["a" := 2.0, "b" := 3.0]
  {
    hide Scores, Offer, Alone;
    TwoCycleLinks(links);
    TwoCycleWeights(nodes);
    assert Scores(nodes, links, []) == Alone(nodes) by { NoTurns(nodes, links); }
    OneTurn(nodes, links, [], "a", ["b"]);
    assert [] + ["a"] == ["a"];
    OneTurn(nodes, links, ["a"], "b", ["a"]);
    assert ["a"] + ["b"] == ["a", "b"];
  }

  lemma NoTurns(nodes: seq<Node>, links: seq<Edge>)
    ensures Scores(nodes, links, []) == Alone(nodes)
  {
  }

  /** The turn of a vertex with one parent. */
  lemma OneTurn(nodes: seq<Node>, links: seq<Edge>, order: seq<string>, x: string, ps: seq<string>)
    requires |ps| == 1 && Sources(links, x) == ps && Get(Scores(nodes, links, order), ps[0], 0.0) > 0.0
    ensures Scores(nodes, links, order + [x]) ==
            Scores(nodes, links, order)[x := Get(Scores(nodes, links, order), ps[0], 0.0) + Weight(nodes, x)]
  {
    hide Weight;
    var all, before := order + [x], Scores(nodes, links, order);
    assert all[..|order|] == order && all[|order|] == x;
    assert ps[..0] == [];
    assert Offer(ps, before) == Get(before, ps[0], 0.0);
    assert Scores(nodes, links, all) == before[x := Offer(Sources(links, x), before) + Weight(nodes, x)];
  }

  lemma TwoCycleLinks(links: seq<Edge>)
    requires links == [Edge("a", "b", "parent_child"), Edge("b", "a", "parent_child")]
    ensures Sources(links, "a") == ["b"] && Sources(links, "b") == ["a"]
  {
    assert links[..1] == [links[0]] && [links[0]][..0] == [];
    assert Sources([links[0]], "a") == [] && Sources([links[0]], "b") == ["a"];
  }

  lemma TwoCycleWeights(nodes: seq<Node>)
    requires nodes == [Node("a", 1.0), Node("b", 1.0)]
    ensures Weight(nodes, "a") == 1.0 && Weight(nodes, "b") == 1.0 && Alone(nodes) == map["a" := 1.0, "b" := 1.0]
  {
    assert nodes[..1] == [nodes[0]];
    assert Weight([nodes[0]], "a") == 1.0;
    assert nodes[0] in nodes && nodes[1] in nodes;
  }

  // ---- What the result means on the edges given ----

  /** One vertex is the other's parent: causal edges do not count. */
  predicate Joined(edges: seq<Edge>, a: string, b: string) {
    exists e :: e in edges && e.kind == "parent_child" && e.source == a && e.target == b
  }

  predicate Descent(edges: seq<Edge>, w: seq<string>) {
    forall i :: 0 < i < |w| ==> Joined(edges, w[i - 1], w[i])
  }

  /** A chain of nodes, each the parent of the next. */
  predicate Chain(nodes: seq<Node>, edges: seq<Edge>, w: seq<string>) {
    w != [] && Descent(edges, w) && forall id :: id in w ==> exists n :: n in nodes && n.id == id
  }

  ghost predicate Critical(nodes: seq<Node>, edges: seq<Edge>, w: seq<string>) {
    Chain(nodes, edges, w) && forall v :: Chain(nodes, edges, v) ==> Sum(nodes, v) <= Sum(nodes, w)
  }

  /** Nodes have ids, each its own; parent edges join nodes and do not go round. */
  ghost predicate Hierarchy(nodes: seq<Node>, edges: seq<Edge>) {
    && (forall n :: n in nodes ==> n.id != "")
    && (forall i, j :: 0 <= i < j < |nodes| ==> nodes[i].id != nodes[j].id)
    && (forall e :: e in edges && e.kind == "parent_child" ==> HasNode(nodes, e.source) && HasNode(nodes, e.target))
    && (forall w :: Descent(edges, w) && |w| > 1 ==> w[0] != w[|w| - 1])
  }

  /** The edges the computation looks at are exactly the parent edges. */
  lemma {:induction false} LinksAreParents(edges: seq<Edge>)
    ensures forall e :: e in Links(edges) <==> e in edges && e.kind == "parent_child"
    decreases edges
  {
    if edges != [] {
      var n := |edges| - 1;
      LinksAreParents(edges[..n]);
      assert edges == edges[..n] + [edges[n]];
    }
  }

  lemma LinkedIffJoined(edges: seq<Edge>)
    ensures forall a, b :: Linked(Links(edges), a, b) <==> Joined(edges, a, b)
    ensures forall w :: Walk(Links(edges), w) <==> Descent(edges, w)
  {
    hide Links;
    LinksAreParents(edges);
    forall a, b ensures Linked(Links(edges), a, b) <==> Joined(edges, a, b) {
    }
  }

  lemma SameMeaning(nodes: seq<Node>, edges: seq<Edge>)
    ensures forall w :: Walk(Links(edges), w) <==> Descent(edges, w)
    ensures WellFormed(nodes, Links(edges)) <==> Hierarchy(nodes, edges)
    ensures forall w :: Longest(nodes, Links(edges), w) <==> Critical(nodes, edges, w)
  {
    hide Links, Walk, Descent, Sum;
    LinksAreParents(edges);
    LinkedIffJoined(edges);
    forall w ensures Path(nodes, Links(edges), w) <==> Chain(nodes, edges, w) {
    }
  }

  /** In a node list without repeated ids, a node weighs its duration, and nothing if that is
      negative; what is not a node weighs nothing. */
  lemma {:induction false} WeightOfNode(nodes: seq<Node>, id: string)
    requires forall i, j :: 0 <= i < j < |nodes| ==> nodes[i].id != nodes[j].id
    ensures forall n :: n in nodes && n.id == id ==> Weight(nodes, id) == if n.duration < 0.0 then 0.0 else n.duration
    ensures !HasNode(nodes, id) ==> Weight(nodes, id) == 0.0
    decreases nodes
  {
    if nodes != [] {
      var n := |nodes| - 1;
      WeightOfNode(nodes[..n], id);
      assert nodes == nodes[..n] + [nodes[n]];
    }
  }

  /** On any input the loops end and the result is the vertex set of a directed walk along
      parent edges; on a hierarchy, of a chain of nodes no other chain outweighs. */
  method ComputeCriticalPath(nodes: seq<Node>, edges: seq<Edge>) returns (path: set<string>)
    ensures nodes == [] ==> path == {}
    ensures exists w :: Descent(edges, w) && path == SetOf(w)
    ensures nodes != [] && Hierarchy(nodes, edges) ==> exists w :: Critical(nodes, edges, w) && path == SetOf(w)
  {
    hide Links, Covers, Scoring, Walk, Descent, WellFormed, Hierarchy, Longest, Critical;
    var links := Links(edges);
    ghost var walk := [];
    SameMeaning(nodes, edges);
    if |nodes| == 0 {
      EmptyWalk(links);
      assert Descent(edges, []);
      return {};
    }
    var order := TopologicalOrder(nodes, links);
    var best, prev, keys := ScoreAlong(nodes, links, order);
    assert nodes[0].id in best;
    var tail := Tail(keys, best);
    path, walk := TraceBack(nodes, links, order, keys, best, prev, tail);
    assert Descent(edges, walk);
    if WellFormed(nodes, links) {
      TailIsLongest(nodes, links, order, best, prev, keys, tail.value, walk);
      assert Critical(nodes, edges, walk);
    }
  }

  lemma EmptyWalk(links: seq<Edge>)
    ensures Walk(links, []) && SetOf([]) == {}
  {
  }

  lemma TailIsLongest(nodes: seq<Node>, links: seq<Edge>, order: seq<string>, best: map<string, real>,
                      prev: map<string, Option<string>>, keys: seq<string>, tail: string, walk: seq<string>)
    requires WellFormed(nodes, links) && Covers(nodes, links, order)
    requires Scoring(nodes, links, order, best, prev, |order|)
    requires forall k :: k in keys <==> k in best
    requires tail in best && forall k :: k in keys ==> best[k] <= best[tail]
    requires Walk(links, walk) && (tail != "" ==> walk != [])
    requires tail in order && "" !in order ==> Sum(nodes, walk) == best[tail] && forall x :: x in walk ==> x in order
    ensures Longest(nodes, links, walk)
  {
    hide Walk, Acyclic, Scored, Unscored, Topological, Sum;
    forall x | x in order ensures x != "" {
      assert HasNode(nodes, x);
    }
    assert tail in order;
    forall v | Path(nodes, links, v) ensures Sum(nodes, v) <= Sum(nodes, walk) {
      PathBound(nodes, links, order, best, prev, v);
    }
  }
}

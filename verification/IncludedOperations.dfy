/** Which supplied labor operations are included in others, and the check that no operation includes
itself on the way. */
module IncludedOperations {
  import opened Options

  /** A labor row as far as inclusion goes; the empty text stands for a field that is not given. */
  datatype Row = Row(operationId: string, operationName: string, included: seq<string>)

  function Digits(n: nat): string {
    if n < 10 then [(n as char) + '0'] else Digits(n / 10) + [((n % 10) as char) + '0']
  }

  /** The identifier, or the name, or the place in the list. */
  function Key(labor: seq<Row>, i: nat): string
    requires i < |labor|
  {
    var row := labor[i];
    if row.operationId != "" then row.operationId
    else if row.operationName != "" then row.operationName
    else Digits(i)
  }

  function Keys(labor: seq<Row>): set<string> {
    set i | 0 <= i < |labor| :: Key(labor, i)
  }

  function Included(labor: seq<Row>): set<string> {
    set i, n | 0 <= i < |labor| && 0 <= n < |labor[i].included| :: labor[i].included[n]
  }

  // ----- The inclusion graph

  type Graph = map<string, set<string>>

  ghost predicate Closed(g: Graph) {
    forall a, b | a in g && b in g[a] :: b in g
  }

  predicate Edge(g: Graph, a: string, b: string) {
    a in g && b in g[a]
  }

  ghost predicate Walk(g: Graph, p: seq<string>) {
    p != [] && forall i | 0 <= i < |p| - 1 :: Edge(g, p[i], p[i + 1])
  }

  ghost predicate Cycle(g: Graph, p: seq<string>) {
    Walk(g, p) && |p| >= 2 && p[0] == p[|p| - 1]
  }

  ghost predicate Acyclic(g: Graph) {
    forall p :: !Cycle(g, p)
  }

  /** The inclusions of the rows before row `i`, and of its first `n`. */
  ghost predicate Includes(labor: seq<Row>, i: nat, n: nat, a: string, b: string) {
    exists r, c | 0 <= r < |labor| && 0 <= c < |labor[r].included| ::
      (r < i || (r == i && c < n)) && Key(labor, r) == a && labor[r].included[c] == b
  }

  ghost predicate Graphs(labor: seq<Row>, i: nat, n: nat, g: Graph) {
    && g.Keys == Keys(labor)
    && forall a, b | a in g :: b in g[a] <==> b in g && Includes(labor, i, n, a, b)
  }

  /** The rows with the same key count as one operation that includes what any of them does. */
  ghost function GraphOf(labor: seq<Row>): (g: Graph)
    ensures Graphs(labor, |labor|, 0, g) && Closed(g)
  {
    map a | a in Keys(labor) :: set b | b in Keys(labor) && Includes(labor, |labor|, 0, a, b)
  }

  lemma GraphsUnique(labor: seq<Row>, i: nat, n: nat, g: Graph, g': Graph)
    requires Graphs(labor, i, n, g) && Graphs(labor, i, n, g')
    ensures g == g'
  {
    assert g.Keys == g'.Keys;
    forall a | a in g ensures g[a] == g'[a] {
      assert a in g';
      forall b ensures b in g[a] <==> b in g'[a] { assert b in g <==> b in g'; }
    }
  }

  lemma KeyOfRow(labor: seq<Row>, i: nat)
    requires i < |labor|
    ensures Key(labor, i) in Keys(labor)
  {
  }

  /** The children that rows before row `i` name, and the first `n` that it names itself. */
  function Named(labor: seq<Row>, i: nat, n: nat): set<string>
    requires i <= |labor| && (n > 0 ==> i < |labor| && n <= |labor[i].included|)
  {
    (set r, c | 0 <= r < i && 0 <= c < |labor[r].included| :: labor[r].included[c])
    + set c | 0 <= c < n :: labor[i].included[c]
  }

  lemma NamedNext(labor: seq<Row>, i: nat, n: nat)
    requires i < |labor| && n < |labor[i].included|
    ensures Named(labor, i, n + 1) == Named(labor, i, n) + {labor[i].included[n]}
  {
  }

  lemma NamedRow(labor: seq<Row>, i: nat)
    requires i < |labor|
    ensures Named(labor, i + 1, 0) == Named(labor, i, |labor[i].included|)
  {
  }

  lemma NamedAll(labor: seq<Row>)
    ensures Named(labor, 0, 0) == {} && Named(labor, |labor|, 0) == Included(labor)
  {
  }

  method StartGraph(labor: seq<Row>) returns (graph: Graph)
    ensures Graphs(labor, 0, 0, graph)
  {
    graph := map[];
    for i := 0 to |labor|
      invariant graph.Keys == set k | 0 <= k < i :: Key(labor, k)
      invariant forall a | a in graph :: graph[a] == {}
    {
      graph := graph[Key(labor, i) := {}];
    }
  }

  method BuildGraph(labor: seq<Row>) returns (graph: Graph, included: set<string>)
    ensures graph == GraphOf(labor) && included == Included(labor)
  {
    hide Graphs, Named, Included;
    graph := StartGraph(labor);
    included := {};
    NamedAll(labor);
    for i := 0 to |labor|
      invariant Graphs(labor, i, 0, graph) && included == Named(labor, i, 0)
    {
      var key := Key(labor, i);
      for n := 0 to |labor[i].included|
        invariant Graphs(labor, i, n, graph) && included == Named(labor, i, n)
      {
        var child := labor[i].included[n];
        NamedNext(labor, i, n);
        included := included + {child};
        KeyInGraph(labor, i, n, graph);
        Grown(labor, i, n, graph);
        if child in graph {
          graph := graph[key := graph[key] + {child}];
        }
      }
      Turned(labor, i, graph);
      NamedRow(labor, i);
    }
    GraphsUnique(labor, |labor|, 0, graph, GraphOf(labor));
  }

  lemma KeyInGraph(labor: seq<Row>, i: nat, n: nat, g: Graph)
    requires i < |labor| && Graphs(labor, i, n, g)
    ensures Key(labor, i) in g
  {
    KeyOfRow(labor, i);
    assert Key(labor, i) in g.Keys;
  }

  /** One more named child is one more inclusion. */
  lemma IncludesNext(labor: seq<Row>, i: nat, n: nat, a: string, b: string)
    requires i < |labor| && n < |labor[i].included|
    ensures Includes(labor, i, n + 1, a, b) <==> Includes(labor, i, n, a, b) || (a == Key(labor, i) && b == labor[i].included[n])
  {
    if Includes(labor, i, n + 1, a, b) {
      var r, c :| 0 <= r < |labor| && 0 <= c < |labor[r].included| && (r < i || (r == i && c < n + 1))
                  && Key(labor, r) == a && labor[r].included[c] == b;
      assert r < i || c < n || (r == i && c == n);
    }
  }

  lemma Grown(labor: seq<Row>, i: nat, n: nat, g: Graph)
    requires i < |labor| && n < |labor[i].included| && Graphs(labor, i, n, g) && Key(labor, i) in g
    ensures var key, child := Key(labor, i), labor[i].included[n];
            Graphs(labor, i, n + 1, if child in g then g[key := g[key] + {child}] else g)
  {
    hide Includes, Key, Keys;
    var key, child := Key(labor, i), labor[i].included[n];
    var g' := if child in g then g[key := g[key] + {child}] else g;
    assert g'.Keys == g.Keys;
    forall a, b | a in g' ensures b in g'[a] <==> b in g' && Includes(labor, i, n + 1, a, b) {
      IncludesNext(labor, i, n, a, b);
      assert a in g && (b in g[a] <==> b in g && Includes(labor, i, n, a, b));
      assert b in g' <==> b in g'.Keys;
    }
  }

  lemma Turned(labor: seq<Row>, i: nat, g: Graph)
    requires i < |labor| && Graphs(labor, i, |labor[i].included|, g)
    ensures Graphs(labor, i + 1, 0, g)
  {
    forall a, b ensures Includes(labor, i + 1, 0, a, b) <==> Includes(labor, i, |labor[i].included|, a, b) {
    }
  }

  // ----- Incoming edges

  function Parents(g: Graph, among: set<string>, k: string): set<string> {
    set p | p in among && Edge(g, p, k)
  }

  lemma NoneAmongNone(g: Graph, k: string)
    ensures Parents(g, {}, k) == {}
  {
  }

  lemma ParentCounts(g: Graph, among: set<string>, key: string, k: string)
    requires key in among && Edge(g, key, k)
    ensures |Parents(g, among, k)| >= 1
  {
    assert key in Parents(g, among, k);
  }

  lemma OneMoreParent(g: Graph, among: set<string>, key: string, k: string)
    requires key in g && key !in among
    ensures |Parents(g, among + {key}, k)| == |Parents(g, among, k)| + if k in g[key] then 1 else 0
  {
    var more := Parents(g, among + {key}, k);
    if k in g[key] {
      assert more == Parents(g, among, k) + {key};
    } else {
      assert more == Parents(g, among, k);
    }
  }

  /** One more incoming edge for each child. */
  method CountChildren(children: set<string>, incoming: map<string, nat>) returns (r: map<string, nat>)
    requires children <= incoming.Keys
    ensures r.Keys == incoming.Keys
    ensures forall k | k in r :: r[k] == incoming[k] + if k in children then 1 else 0
  {
    r := incoming;
    var left := children;
    while left != {}
      invariant left <= children && r.Keys == incoming.Keys
      invariant forall k | k in r :: r[k] == incoming[k] + if k in children - left then 1 else 0
      decreases left
    {
      var child :| child in left;
      left := left - {child};
      r := r[child := r[child] + 1];
    }
  }

  method CountIncoming(graph: Graph) returns (incoming: map<string, nat>)
    requires Closed(graph)
    ensures incoming.Keys == graph.Keys
    ensures forall k | k in graph :: incoming[k] == |Parents(graph, graph.Keys, k)|
  {
    hide Parents;
    incoming := map k | k in graph :: 0;
    forall k | k in graph ensures |Parents(graph, {}, k)| == 0 { NoneAmongNone(graph, k); }
    var left := graph.Keys;
    ghost var counted := {};
    while left != {}
      invariant left == graph.Keys - counted && counted <= graph.Keys
      invariant incoming.Keys == graph.Keys
      invariant forall k | k in graph :: incoming[k] == |Parents(graph, counted, k)|
      decreases left
    {
      var key :| key in left;
      left := left - {key};
      incoming := CountChildren(graph[key], incoming);
      forall k | k in graph ensures incoming[k] == |Parents(graph, counted + {key}, k)| {
        OneMoreParent(graph, counted, key, k);
      }
      counted := counted + {key};
    }
    assert counted == graph.Keys;
  }

  // ----- Acyclic graphs and stuck ones

  /** Every parent of an operation stands before it. */
  ghost predicate Ordered(g: Graph, order: seq<string>) {
    forall i, a | 0 <= i < |order| && Edge(g, a, order[i]) :: a in order[..i]
  }

  /** Along a walk the places in the order rise. */
  lemma {:induction false} WalkRises(g: Graph, order: seq<string>, p: seq<string>, i: nat)
    requires Ordered(g, order) && Walk(g, p) && i < |order| && p[|p| - 1] == order[i]
    ensures |p| >= 2 ==> p[0] in order[..i]
    decreases |p|
  {
    if |p| >= 2 {
      assert Edge(g, p[|p| - 2], p[|p| - 1]);
      var k :| 0 <= k < i && order[k] == p[|p| - 2];
      WalkRises(g, order, p[..|p| - 1], k);
      assert order[..k] <= order[..i];
    }
  }

  predicate Distinct(order: seq<string>) {
    forall i, k | 0 <= i < k < |order| :: order[i] != order[k]
  }

  lemma OrderedIsAcyclic(g: Graph, order: seq<string>)
    requires Closed(g) && Ordered(g, order) && Distinct(order) && forall k | k in g :: k in order
    ensures Acyclic(g)
  {
    forall p | Walk(g, p) && |p| >= 2 ensures p[0] != p[|p| - 1] {
      assert Edge(g, p[|p| - 2], p[|p| - 1]);
      assert p[|p| - 1] in order;
      var i :| 0 <= i < |order| && order[i] == p[|p| - 1];
      WalkRises(g, order, p, i);
    }
  }

  /** Every operation of the set is included in another one of it. */
  ghost predicate Stuck(g: Graph, among: set<string>) {
    among != {} && forall k | k in among :: Parents(g, among, k) != {}
  }

  lemma {:induction false} LongWalk(g: Graph, among: set<string>, n: nat) returns (p: seq<string>)
    requires Stuck(g, among) && n >= 1
    ensures Walk(g, p) && |p| == n && forall i | 0 <= i < n :: p[i] in among
    decreases n
  {
    if n == 1 {
      var k :| k in among;
      p := [k];
    } else {
      var q := LongWalk(g, among, n - 1);
      var a :| a in Parents(g, among, q[0]);
      p := [a] + q;
      forall i | 0 <= i < |p| - 1 ensures Edge(g, p[i], p[i + 1]) { if i > 0 { assert Edge(g, q[i - 1], q[i]); } }
    }
  }

  /** A sequence longer than the set its elements are from repeats one of them. */
  lemma {:induction false} Pigeonhole(p: seq<string>, among: set<string>) returns (i: nat, k: nat)
    requires |p| > |among| && forall n | 0 <= n < |p| :: p[n] in among
    ensures i < k < |p| && p[i] == p[k]
    decreases |p|
  {
    var last := p[|p| - 1];
    if last in p[..|p| - 1] {
      i, k :| 0 <= i < |p| - 1 && p[i] == last && k == |p| - 1;
    } else {
      i, k := Pigeonhole(p[..|p| - 1], among - {last});
    }
  }

  lemma RepeatIsCyclic(g: Graph, p: seq<string>, i: nat, k: nat)
    requires Walk(g, p) && i < k < |p| && p[i] == p[k]
    ensures !Acyclic(g)
  {
    var q := p[i..k + 1];
    forall n | 0 <= n < |q| - 1 ensures Edge(g, q[n], q[n + 1]) { assert Edge(g, p[i + n], p[i + n + 1]); }
    assert Cycle(g, q);
  }

  lemma StuckIsCyclic(g: Graph, among: set<string>)
    requires Stuck(g, among)
    ensures !Acyclic(g)
  {
    hide Stuck, Walk;
    var p := LongWalk(g, among, |among| + 1);
    var i, k := Pigeonhole(p, among);
    RepeatIsCyclic(g, p, i, k);
  }

  // ----- The check

  /** The operations counted ready: unvisited and not included in anything unvisited. */
  ghost predicate Readies(incoming: map<string, nat>, alive: set<string>, ready: seq<string>) {
    && alive <= incoming.Keys
    && Distinct(ready)
    && (forall k | k in ready :: k in alive && incoming[k] == 0)
    && (forall k | k in alive && incoming[k] == 0 :: k in ready)
  }

  /** The counts and the ready operations after the release of some children. */
  ghost predicate Released(children: set<string>, incoming: map<string, nat>, ready: seq<string>,
                           incoming': map<string, nat>, ready': seq<string>) {
    && incoming'.Keys == incoming.Keys && children <= incoming.Keys
    && Distinct(ready')
    && (forall k | k in incoming' :: incoming'[k] + (if k in children then 1 else 0) == incoming[k])
    && (forall k :: k in ready' <==> k in ready || (k in children && incoming'[k] == 0))
  }

  /** One incoming edge less for each child; those that have none left become ready. */
  method Release(children: set<string>, incoming: map<string, nat>, ready: seq<string>)
    returns (r: map<string, nat>, ready': seq<string>)
    requires children <= incoming.Keys && Distinct(ready)
    requires forall k | k in children :: incoming[k] >= 1 && k !in ready
    ensures Released(children, incoming, ready, r, ready')
  {
    r, ready' := incoming, ready;
    var left := children;
    while left != {}
      invariant left <= children && r.Keys == incoming.Keys
      invariant forall k | k in r :: r[k] + (if k in children - left then 1 else 0) == incoming[k]
      invariant Distinct(ready')
      invariant forall k :: k in ready' <==> k in ready || (k in children - left && r[k] == 0)
      decreases left
    {
      var child :| child in left;
      left := left - {child};
      r := r[child := r[child] - 1];
      if r[child] == 0 { ready' := ready' + [child]; }
    }
  }

  /** What holds between two visits: `order` are the operations visited, `alive` the others. */
  ghost predicate Progress(g: Graph, incoming: map<string, nat>, ready: seq<string>, visited: nat,
                           order: seq<string>, alive: set<string>) {
    && incoming.Keys == g.Keys && alive <= g.Keys
    && (forall k | k in g :: incoming[k] == |Parents(g, alive, k)|)
    && Readies(incoming, alive, ready)
    && Ordered(g, order) && Distinct(order)
    && (forall k :: k in order <==> k in g && k !in alive)
    && visited + |alive| == |g|
  }

  lemma BeforeVisit(g: Graph, incoming: map<string, nat>, ready: seq<string>, visited: nat, order: seq<string>, alive: set<string>)
    requires Closed(g) && Progress(g, incoming, ready, visited, order, alive) && ready != []
    ensures var key := ready[|ready| - 1];
            && key in alive && key in g && Parents(g, alive, key) == {}
            && g[key] <= incoming.Keys && Distinct(ready[..|ready| - 1])
            && forall k | k in g[key] :: incoming[k] >= 1 && k !in ready[..|ready| - 1]
  {
    hide Parents, Ordered;
    var key := ready[|ready| - 1];
    assert key in ready;
    forall k | k in g[key] ensures incoming[k] >= 1 { ParentCounts(g, alive, key, k); }
  }

  lemma VisitCounts(g: Graph, incoming: map<string, nat>, alive: set<string>, key: string, incoming': map<string, nat>)
    requires incoming.Keys == g.Keys && incoming'.Keys == g.Keys && key in g && key in alive
    requires forall k | k in g :: incoming[k] == |Parents(g, alive, k)|
    requires forall k | k in incoming' :: incoming'[k] + (if k in g[key] then 1 else 0) == incoming[k]
    ensures forall k | k in g :: incoming'[k] == |Parents(g, alive - {key}, k)|
  {
    hide Parents;
    assert (alive - {key}) + {key} == alive;
    forall k | k in g ensures incoming'[k] == |Parents(g, alive - {key}, k)| { OneMoreParent(g, alive - {key}, key, k); }
  }

  lemma VisitReadies(g: Graph, incoming: map<string, nat>, ready: seq<string>, order: seq<string>, alive: set<string>,
                     incoming': map<string, nat>, ready': seq<string>)
    requires Closed(g) && incoming.Keys == g.Keys && incoming'.Keys == g.Keys && alive <= g.Keys
    requires Readies(incoming, alive, ready) && ready != [] && Ordered(g, order)
    requires forall k :: k in order <==> k in g && k !in alive
    requires var key := ready[|ready| - 1];
             && key in g && key in alive && Parents(g, alive, key) == {}
             && Released(g[key], incoming, ready[..|ready| - 1], incoming', ready')
    ensures Readies(incoming', alive - {ready[|ready| - 1]}, ready')
  {
    hide Parents, Ordered;
    var key := ready[|ready| - 1];
    NoSelf(g, alive, key);
    assert ready == ready[..|ready| - 1] + [key];
    forall k | k in alive - {key} && incoming'[k] == 0 ensures k in ready' {
      if k !in g[key] { assert k in ready; }
    }
    forall k | k in ready' ensures k in alive - {key} && incoming'[k] == 0 {
      if k in ready[..|ready| - 1] {
        assert k in ready && k != key;
      } else {
        assert k in g;
        if k !in alive { OrderedParents(g, order, alive, key, k); }
      }
    }
  }

  lemma AfterVisit(g: Graph, incoming: map<string, nat>, ready: seq<string>, visited: nat, order: seq<string>, alive: set<string>,
                   incoming': map<string, nat>, ready': seq<string>)
    requires Closed(g) && Progress(g, incoming, ready, visited, order, alive) && ready != []
    requires var key := ready[|ready| - 1];
             && key in g && key in alive && Parents(g, alive, key) == {}
             && Released(g[key], incoming, ready[..|ready| - 1], incoming', ready')
    ensures var key := ready[|ready| - 1];
            Progress(g, incoming', ready', visited + 1, order + [key], alive - {key})
  {
    hide Parents, Ordered, Readies;
    var key := ready[|ready| - 1];
    VisitCounts(g, incoming, alive, key, incoming');
    VisitReadies(g, incoming, ready, order, alive, incoming', ready');
    OrderedPush(g, order, alive, key);
  }

  lemma NoSelf(g: Graph, alive: set<string>, key: string)
    requires key in g && key in alive && Parents(g, alive, key) == {}
    ensures key !in g[key]
  {
    assert (key in Parents(g, alive, key)) == (key in g[key]);
  }

  /** A visited operation is included in visited ones only. */
  lemma OrderedParents(g: Graph, order: seq<string>, alive: set<string>, key: string, k: string)
    requires Ordered(g, order) && forall q :: q in order <==> q in g && q !in alive
    requires key in g && key in alive && k in g[key]
    ensures k !in order
  {
    if k in order {
      var i :| 0 <= i < |order| && order[i] == k;
      assert Edge(g, key, order[i]);
    }
  }

  method IncludedOperationIds(labor: seq<Row>) returns (result: Option<set<string>>)
    ensures result.Some? <==> Acyclic(GraphOf(labor))
    ensures result.Some? ==> result.value == Included(labor)
  {
    hide Acyclic, GraphOf, Progress, Released, Parents;
    var graph, included := BuildGraph(labor);
    var incoming := CountIncoming(graph);
    var ready := Starting(graph, incoming);
    var visited := 0;
    ghost var order, alive := [], graph.Keys;
    ProgressStarts(graph, incoming, ready);
    while ready != []
      invariant Progress(graph, incoming, ready, visited, order, alive)
      decreases alive
    {
      BeforeVisit(graph, incoming, ready, visited, order, alive);
      var key := ready[|ready| - 1];
      var incoming', ready' := Release(graph[key], incoming, ready[..|ready| - 1]);
      AfterVisit(graph, incoming, ready, visited, order, alive, incoming', ready');
      incoming, ready, visited := incoming', ready', visited + 1;
      order, alive := order + [key], alive - {key};
    }
    ProgressEnds(graph, incoming, visited, order, alive);
    result := if visited == |graph| then Some(included) else None;
  }

  lemma ProgressStarts(g: Graph, incoming: map<string, nat>, ready: seq<string>)
    requires incoming.Keys == g.Keys && Readies(incoming, g.Keys, ready)
    requires forall k | k in g :: incoming[k] == |Parents(g, g.Keys, k)|
    ensures Progress(g, incoming, ready, 0, [], g.Keys)
  {
  }

  lemma ProgressEnds(g: Graph, incoming: map<string, nat>, visited: nat, order: seq<string>, alive: set<string>)
    requires Closed(g) && Progress(g, incoming, [], visited, order, alive)
    ensures visited == |g| <==> Acyclic(g)
  {
    hide Parents, Ordered, Acyclic;
    if visited == |g| {
      OrderedIsAcyclic(g, order);
    } else {
      StuckIsCyclic(g, alive);
    }
  }

  method Starting(graph: Graph, incoming: map<string, nat>) returns (ready: seq<string>)
    requires incoming.Keys == graph.Keys
    ensures Readies(incoming, graph.Keys, ready)
  {
    ready := [];
    var left := graph.Keys;
    while left != {}
      invariant left <= graph.Keys
      invariant Readies(incoming, graph.Keys - left, ready)
      decreases left
    {
      var key :| key in left;
      left := left - {key};
      if incoming[key] == 0 { ready := ready + [key]; }
    }
    assert graph.Keys - left == graph.Keys;
  }

  lemma OrderedPush(g: Graph, order: seq<string>, alive: set<string>, key: string)
    requires Ordered(g, order) && Parents(g, alive, key) == {}
    requires forall k :: k in order <==> k in g && k !in alive
    ensures Ordered(g, order + [key])
  {
    var o := order + [key];
    forall i, a | 0 <= i < |o| && Edge(g, a, o[i]) ensures a in o[..i] {
      if i < |order| {
        assert o[..i] == order[..i];
      } else {
        assert a !in Parents(g, alive, key);
        assert o[..i] == order;
      }
    }
  }

  // ----- What an accepted list means

  /** Follows the inclusions from an operation that is included in nothing. */
  ghost predicate Rooted(labor: seq<Row>, k: string) {
    exists p :: Walk(GraphOf(labor), p) && p[0] in Keys(labor) && p[0] !in Included(labor) && p[|p| - 1] == k
  }

  lemma RootedChild(labor: seq<Row>, a: string, b: string)
    requires Rooted(labor, a) && Edge(GraphOf(labor), a, b)
    ensures Rooted(labor, b)
  {
    var g := GraphOf(labor);
    var p :| Walk(g, p) && p[0] in Keys(labor) && p[0] !in Included(labor) && p[|p| - 1] == a;
    assert Walk(g, p + [b]);
  }

  lemma RootItself(labor: seq<Row>, k: string)
    requires k in Keys(labor) && k !in Included(labor)
    ensures Rooted(labor, k)
  {
    assert Walk(GraphOf(labor), [k]);
  }

  /** An operation that is reached from no such root is included in another one that is not. */
  lemma LostParent(labor: seq<Row>, k: string) returns (a: string)
    requires k in Keys(labor) && !Rooted(labor, k)
    ensures a in Keys(labor) && !Rooted(labor, a) && Edge(GraphOf(labor), a, k)
  {
    hide GraphOf;
    var g := GraphOf(labor);
    if k !in Included(labor) { RootItself(labor, k); }
    var i, n :| 0 <= i < |labor| && 0 <= n < |labor[i].included| && labor[i].included[n] == k;
    a := Key(labor, i);
    KeyOfRow(labor, i);
    assert Includes(labor, |labor|, 0, a, k);
    assert a in g.Keys && k in g.Keys;
    assert Edge(g, a, k);
    if Rooted(labor, a) { RootedChild(labor, a, k); }
  }

  /** Every operation of an accepted list is reached from one that is included in nothing. */
  lemma AcyclicIsRooted(labor: seq<Row>, k: string)
    requires Acyclic(GraphOf(labor)) && k in Keys(labor)
    ensures Rooted(labor, k)
  {
    hide GraphOf, Acyclic, Rooted;
    var g := GraphOf(labor);
    if !Rooted(labor, k) {
      var lost := set q | q in Keys(labor) && !Rooted(labor, q);
      assert k in lost;
      forall q | q in lost ensures Parents(g, lost, q) != {} {
        var a := LostParent(labor, q);
        assert a in Parents(g, lost, q);
      }
      StuckIsCyclic(g, lost);
    }
  }

  /** So an accepted list that is not empty keeps an operation to charge for. */
  lemma SomeRowIsKept(labor: seq<Row>)
    requires Acyclic(GraphOf(labor)) && labor != []
    ensures exists i :: 0 <= i < |labor| && Key(labor, i) !in Included(labor)
  {
    hide GraphOf, Acyclic;
    KeyOfRow(labor, 0);
    AcyclicIsRooted(labor, Key(labor, 0));
  }

  // ----- What tells operations apart

  function ValueOf(s: string): nat {
    if s == "" then 0 else ValueOf(s[..|s| - 1]) * 10 + DigitValue(s[|s| - 1])
  }

  function DigitValue(c: char): nat {
    if '0' <= c <= '9' then (c - '0') as nat else 0
  }

  predicate IsDecimal(s: string) {
    s != "" && (forall c | c in s :: '0' <= c <= '9') && (s[0] == '0' ==> |s| == 1)
  }

  /** The text of a number is its decimal numeral. */
  lemma {:induction false} DigitsAreDecimal(n: nat)
    ensures IsDecimal(Digits(n)) && ValueOf(Digits(n)) == n
    ensures n > 0 ==> Digits(n)[0] != '0'
  {
    if n >= 10 {
      DigitsAreDecimal(n / 10);
      assert Digits(n)[..|Digits(n)| - 1] == Digits(n / 10);
    } else {
      assert Digits(n)[..0] == "";
    }
  }

  /** An operation is known by its identifier, whatever its name; without one by its name, and without
      either by its place in the list. */
  lemma KeyTells(labor: seq<Row>, i: nat)
    requires i < |labor|
    ensures labor[i].operationId != "" ==> Key(labor, i) == labor[i].operationId
    ensures labor[i].operationId == "" && labor[i].operationName != "" ==> Key(labor, i) == labor[i].operationName
    ensures labor[i].operationId == "" && labor[i].operationName == "" ==> IsDecimal(Key(labor, i)) && ValueOf(Key(labor, i)) == i
  {
    DigitsAreDecimal(i);
  }

  /** So rows share an operation exactly when what they are known by is the same. */
  lemma SameOperation(labor: seq<Row>, i: nat, k: nat)
    requires i < |labor| && k < |labor| && labor[i].operationId != "" && labor[k].operationId != ""
    ensures Key(labor, i) == Key(labor, k) <==> labor[i].operationId == labor[k].operationId
  {
  }
}

/** The check that a planned change is a finite JSON tree, on any graph of Python objects. */
module JsonTree {

  /** `Other` is anything of a type JSON has no place for; a container is known by its identity. */
  datatype Value = Scalar | Number(finite: bool) | Container(id: nat) | Other

  datatype Object = List(items: seq<Value>) | Dict(stringKeys: bool, items: seq<Value>)

  type Heap = map<nat, Object>

  predicate Stored(h: Heap, v: Value) {
    v.Container? ==> v.id in h
  }

  /** Every reference leads to an object. */
  ghost predicate Closed(h: Heap) {
    forall i, k | i in h && 0 <= k < |h[i].items| :: Stored(h, h[i].items[k])
  }

  predicate Allowed(h: Heap, v: Value)
    requires Stored(h, v)
  {
    match v
    case Scalar => true
    case Number(finite) => finite
    case Container(i) => h[i].List? || h[i].stringKeys
    case Other => false
  }

  // ----- What the check is for

  predicate Child(h: Heap, v: Value, c: Value) {
    v.Container? && v.id in h && c in h[v.id].items
  }

  ghost predicate IsPath(h: Heap, v: Value, p: seq<Value>) {
    && p != [] && p[0] == v
    && forall i | 0 <= i < |p| - 1 :: Child(h, p[i], p[i + 1])
  }

  /** No container on the path is met again further down it. */
  predicate Straight(p: seq<Value>) {
    forall i, k | 0 <= i < k < |p| && p[i].Container? && p[k].Container? :: p[i] != p[k]
  }

  /** Everything reachable is allowed, and nothing reachable contains itself. */
  ghost predicate IsJsonTree(h: Heap, v: Value)
    requires Closed(h) && Stored(h, v)
  {
    forall p | IsPath(h, v, p) :: Stored(h, p[|p| - 1]) && Allowed(h, p[|p| - 1]) && Straight(p)
  }

  // ----- The same by recursion, below the containers still open

  ghost predicate Good(h: Heap, v: Value, open: set<nat>)
    requires Closed(h) && Stored(h, v)
    decreases |h.Keys - open|
  {
    && Allowed(h, v)
    && (v.Container? ==>
          && v.id !in open
          && (Opening(h, v.id, open);
              forall k | 0 <= k < |h[v.id].items| :: Good(h, h[v.id].items[k], open + {v.id})))
  }

  lemma Opening(h: Heap, i: nat, open: set<nat>)
    requires i in h && i !in open
    ensures |h.Keys - (open + {i})| < |h.Keys - open|
  {
    assert h.Keys - open == (h.Keys - (open + {i})) + {i};
  }

  ghost predicate Avoids(p: seq<Value>, open: set<nat>) {
    forall k | 0 <= k < |p| && p[k].Container? :: p[k].id !in open
  }

  lemma {:induction false} GoodPaths(h: Heap, v: Value, open: set<nat>, p: seq<Value>)
    requires Closed(h) && Stored(h, v) && Good(h, v, open) && IsPath(h, v, p)
    ensures Stored(h, p[|p| - 1]) && Allowed(h, p[|p| - 1]) && Straight(p) && Avoids(p, open)
    decreases |p|
  {
    if |p| > 1 {
      assert Child(h, p[0], p[1]);
      assert forall i | 0 <= i < |p| - 2 :: Child(h, p[1..][i], p[1..][i + 1]) == Child(h, p[i + 1], p[i + 2]);
      GoodPaths(h, p[1], open + {v.id}, p[1..]);
      forall k | 1 <= k < |p| && p[k].Container? ensures p[k].id !in open + {v.id} {
        assert p[k] == p[1..][k - 1];
      }
      forall i, k | 0 <= i < k < |p| && p[i].Container? && p[k].Container? ensures p[i] != p[k] {
        if i > 0 { assert p[1..][i - 1] != p[1..][k - 1]; }
      }
    }
  }

  lemma {:induction false} PathsGood(h: Heap, v: Value, open: set<nat>)
    requires Closed(h) && Stored(h, v) && IsJsonTree(h, v)
    requires forall p | IsPath(h, v, p) :: Avoids(p, open)
    ensures Good(h, v, open)
    decreases |h.Keys - open|
  {
    assert IsPath(h, v, [v]);
    assert Avoids([v], open);
    if v.Container? {
      Opening(h, v.id, open);
      forall k | 0 <= k < |h[v.id].items| ensures Good(h, h[v.id].items[k], open + {v.id}) {
        var c := h[v.id].items[k];
        forall p: seq<Value> | IsPath(h, c, p)
          ensures Stored(h, p[|p| - 1]) && Allowed(h, p[|p| - 1]) && Straight(p) && Avoids(p, open + {v.id})
        {
          var q := [v] + p;
          assert IsPath(h, v, q);
          assert Straight(q) && Avoids(q, open);
          forall i, k | 0 <= i < k < |p| && p[i].Container? && p[k].Container? ensures p[i] != p[k] {
            assert q[i + 1] != q[k + 1];
          }
          forall k | 0 <= k < |p| && p[k].Container? ensures p[k].id !in open + {v.id} {
            assert q[0] != q[k + 1];
          }
        }
        PathsGood(h, c, open + {v.id});
      }
    }
  }

  lemma GoodIsJsonTree(h: Heap, v: Value)
    requires Closed(h) && Stored(h, v)
    ensures Good(h, v, {}) <==> IsJsonTree(h, v)
  {
    if Good(h, v, {}) {
      forall p | IsPath(h, v, p) ensures Stored(h, p[|p| - 1]) && Allowed(h, p[|p| - 1]) && Straight(p) {
        GoodPaths(h, v, {}, p);
      }
    }
    if IsJsonTree(h, v) { PathsGood(h, v, {}); }
  }

  // ----- The stack of the loop

  /** An entry is a value to look at, or the mark that a container has been left. */
  datatype Entry = Enter(value: Value) | Leave(id: nat)

  /** Every entry is stored, and the marks on the stack are the containers still open. */
  ghost predicate Stacked(h: Heap, stack: seq<Entry>, open: set<nat>) {
    if stack == [] then open == {}
    else
      match stack[|stack| - 1]
      case Enter(v) => Stored(h, v) && Stacked(h, stack[..|stack| - 1], open)
      case Leave(i) => i in open && Stacked(h, stack[..|stack| - 1], open - {i})
  }

  ghost predicate StackGood(h: Heap, stack: seq<Entry>, open: set<nat>)
    requires Closed(h) && Stacked(h, stack, open)
  {
    stack != [] ==>
      match stack[|stack| - 1]
      case Enter(v) => Good(h, v, open) && StackGood(h, stack[..|stack| - 1], open)
      case Leave(i) => StackGood(h, stack[..|stack| - 1], open - {i})
  }

  /** How many turns of the loop one value takes, and all the entries of a stack. */
  ghost function Turns(h: Heap, v: Value, open: set<nat>): (n: nat)
    requires Closed(h) && Stored(h, v)
    ensures n >= 1
    decreases |h.Keys - open|, 1, 0
  {
    if v.Container? && v.id !in open then
      Opening(h, v.id, open);
      2 + TurnsOfAll(h, h[v.id].items, open + {v.id})
    else 1
  }

  ghost function TurnsOfAll(h: Heap, items: seq<Value>, open: set<nat>): nat
    requires Closed(h) && forall k | 0 <= k < |items| :: Stored(h, items[k])
    decreases |h.Keys - open|, 2, |items|
  {
    if items == [] then 0
    else TurnsOfAll(h, items[..|items| - 1], open) + Turns(h, items[|items| - 1], open)
  }

  ghost function TurnsLeft(h: Heap, stack: seq<Entry>, open: set<nat>): nat
    requires Closed(h) && Stacked(h, stack, open)
  {
    if stack == [] then 0
    else
      match stack[|stack| - 1]
      case Enter(v) => Turns(h, v, open) + TurnsLeft(h, stack[..|stack| - 1], open)
      case Leave(i) => 1 + TurnsLeft(h, stack[..|stack| - 1], open - {i})
  }

  function Entering(items: seq<Value>): (r: seq<Entry>)
    ensures |r| == |items| && forall k | 0 <= k < |items| :: r[k] == Enter(items[k])
  {
    seq(|items|, k requires 0 <= k < |items| => Enter(items[k]))
  }

  /** Pushing values on the stack asks for each of them, on top of what it asked for before. */
  lemma {:induction false} Pushing(h: Heap, stack: seq<Entry>, items: seq<Value>, open: set<nat>)
    requires Closed(h) && Stacked(h, stack, open) && forall k | 0 <= k < |items| :: Stored(h, items[k])
    ensures var t := stack + Entering(items);
            && Stacked(h, t, open)
            && (StackGood(h, t, open) <==> StackGood(h, stack, open) && forall k | 0 <= k < |items| :: Good(h, items[k], open))
            && TurnsLeft(h, t, open) == TurnsLeft(h, stack, open) + TurnsOfAll(h, items, open)
    decreases |items|
  {
    var t := stack + Entering(items);
    if items == [] {
      assert t == stack;
    } else {
      var front := items[..|items| - 1];
      Pushing(h, stack, front, open);
      assert t[..|t| - 1] == stack + Entering(front);
    }
  }

  method ValidJsonTree(h: Heap, value: Value) returns (valid: bool)
    requires Closed(h) && Stored(h, value)
    ensures valid <==> IsJsonTree(h, value)
  {
    hide IsJsonTree;
    var pending, ancestors := [Enter(value)], {};
    Pushing(h, [], [value], {});
    assert [] + Entering([value]) == pending;
    GoodIsJsonTree(h, value);
    while pending != []
      invariant Stacked(h, pending, ancestors)
      invariant StackGood(h, pending, ancestors) <==> IsJsonTree(h, value)
      decreases TurnsLeft(h, pending, ancestors)
    {
      var current := pending[|pending| - 1];
      pending := pending[..|pending| - 1];
      match current {
        case Leave(id) => ancestors := ancestors - {id};
        case Enter(Scalar) =>
        case Enter(Number(finite)) => if !finite { return false; }
        case Enter(Other) => return false;
        case Enter(Container(id)) =>
          if id in ancestors { return false; }
          if h[id].Dict? && !h[id].stringKeys { return false; }
          ghost var open := ancestors + {id};
          assert open - {id} == ancestors;
          assert (pending + [Leave(id)])[..|pending|] == pending;
          Pushing(h, pending + [Leave(id)], h[id].items, open);
          ancestors := ancestors + {id};
          pending := pending + [Leave(id)] + Entering(h[id].items);
      }
    }
    return true;
  }

  // ----- Sharing is not a cycle

  lemma {:induction false} GoodBeside(h: Heap, h': Heap, v: Value, open: set<nat>, i: nat)
    requires Closed(h) && Closed(h') && Stored(h, v) && Good(h, v, open) && i !in h
    requires forall k | k in h :: k in h' && h'[k] == h[k]
    ensures Good(h', v, {i} + open)
    decreases |h.Keys - open|
  {
    if v.Container? {
      Opening(h, v.id, open);
      Opening(h', v.id, {i} + open);
      assert ({i} + open) + {v.id} == {i} + (open + {v.id});
      forall k | 0 <= k < |h[v.id].items| ensures Good(h', h'[v.id].items[k], ({i} + open) + {v.id}) {
        GoodBeside(h, h', h[v.id].items[k], open + {v.id}, i);
      }
    }
  }

  lemma ClosedBeside(h: Heap, i: nat, o: Object)
    requires Closed(h) && i !in h && forall k | 0 <= k < |o.items| :: Stored(h, o.items[k])
    ensures Closed(h[i := o])
  {
    var h' := h[i := o];
    forall j, k | j in h' && 0 <= k < |h'[j].items| ensures Stored(h', h'[j].items[k]) {
      if j != i { assert Stored(h, h[j].items[k]); }
    }
  }

  lemma ListIsGood(h: Heap, i: nat, v: Value)
    requires Closed(h) && Stored(h, v) && Good(h, v, {} + {i}) && i in h && h[i].List?
    requires forall k | 0 <= k < |h[i].items| :: h[i].items[k] == v
    ensures Good(h, Container(i), {})
  {
    hide Closed;
    Opening(h, i, {});
  }

  /** A new list may hold the same tree any number of times. */
  lemma SharingAllowed(h: Heap, v: Value, i: nat, n: nat)
    requires Closed(h) && Stored(h, v) && i !in h && IsJsonTree(h, v)
    ensures var h' := h[i := List(seq(n, _ => v))];
            Closed(h') && Stored(h', Container(i)) && IsJsonTree(h', Container(i))
  {
    hide IsJsonTree, Closed, Good;
    var h' := h[i := List(seq(n, _ => v))];
    ClosedBeside(h, i, h'[i]);
    GoodIsJsonTree(h, v);
    GoodBeside(h, h', v, {}, i);
    assert {i} + {} == {} + {i};
    ListIsGood(h', i, v);
    GoodIsJsonTree(h', Container(i));
  }

  // ----- What JSON has a place for

  predicate HasPlace(h: Heap, v: Value) {
    || v == Scalar
    || v == Number(true)
    || (v.Container? && v.id in h && (h[v.id].List? || h[v.id] == Dict(true, h[v.id].items)))
  }

  /** A tree is accepted exactly when all that is reachable from it is a scalar, a finite number, a list, or
      a dictionary with text keys, and no reachable container contains itself. */
  lemma JsonMeans(h: Heap, v: Value)
    requires Closed(h) && Stored(h, v)
    ensures IsJsonTree(h, v) <==> forall p | IsPath(h, v, p) :: HasPlace(h, p[|p| - 1]) && Straight(p)
  {
    forall p | IsPath(h, v, p) ensures Stored(h, p[|p| - 1]) && (HasPlace(h, p[|p| - 1]) <==> Allowed(h, p[|p| - 1])) {
      ReachesStored(h, v, p);
    }
  }

  lemma ReachesStored(h: Heap, v: Value, p: seq<Value>)
    requires Closed(h) && Stored(h, v) && IsPath(h, v, p)
    ensures p != [] && Stored(h, p[|p| - 1])
  {
    if |p| > 1 {
      assert Child(h, p[|p| - 2], p[|p| - 1]);
      var k :| 0 <= k < |h[p[|p| - 2].id].items| && h[p[|p| - 2].id].items[k] == p[|p| - 1];
      assert Stored(h, h[p[|p| - 2].id].items[k]);
    }
  }

  /** A single infinite number anywhere, or a value of a foreign type, spoils the whole tree. */
  lemma ForeignSpoils(h: Heap, v: Value, p: seq<Value>)
    requires Closed(h) && Stored(h, v) && IsPath(h, v, p) && p[|p| - 1] in {Number(false), Other}
    ensures !IsJsonTree(h, v)
  {
    hide IsPath;
    JsonMeans(h, v);
  }
}

/**
  * References between the objects of one host: the search that refuses an edge closing a cycle, and the
  * disposal of a set of objects in waves, holders first.
  */
module HostGraph {

  import opened Streams
  import opened Sets

  type Node(==, !new)

  /** For each object, the objects its declarations reference, in declaration order. */
  type Graph = map<Node, seq<Node>>

  function Refs(g: Graph, n: Node): seq<Node> { if n in g then g[n] else [] }

  /** `p` follows references. */
  predicate Path(g: Graph, p: seq<Node>) {
    p != [] && forall i :: 0 <= i < |p| - 1 ==> p[i + 1] in Refs(g, p[i])
  }

  predicate Connects(g: Graph, p: seq<Node>, from: Node, to: Node) {
    Path(g, p) && p[0] == from && p[|p| - 1] == to
  }

  /** There is a path of references from `from` to `to`, of any length including zero. */
  ghost predicate Reach(g: Graph, from: Node, to: Node) { exists p :: Connects(g, p, from, to) }

  /** Nothing an object references leads back to it. */
  ghost predicate Acyclic(g: Graph) {
    forall a: Node, b: Node :: b in Refs(g, a) ==> !Reach(g, b, a)
  }

  lemma ReachSelf(g: Graph, n: Node)
    ensures Reach(g, n, n)
  {
    assert Connects(g, [n], n, n);
  }

  lemma ReachStep(g: Graph, a: Node, b: Node, c: Node)
    requires Reach(g, a, b) && c in Refs(g, b)
    ensures Reach(g, a, c)
  {
    var p :| Connects(g, p, a, b);
    assert Connects(g, p + [c], a, c);
  }

  lemma ReachThrough(g: Graph, a: Node, b: Node, c: Node)
    requires Reach(g, a, b) && Reach(g, b, c)
    ensures Reach(g, a, c)
  {
    var p :| Connects(g, p, a, b);
    var q :| Connects(g, q, b, c);
    var r := p + q[1..];
    forall i | 0 <= i < |r| - 1 ensures r[i + 1] in Refs(g, r[i]) {
      if i >= |p| - 1 { assert r[i] == q[i - |p| + 1] && r[i + 1] == q[i - |p| + 2]; }
    }
    assert Connects(g, r, a, c);
  }

  // ---------------------------------------------------------------------------------------------
  // The search

  /** A set that references lead out of nowhere keeps every path that starts in it. */
  lemma {:induction false} ClosedKeepsPaths(g: Graph, seen: set<Node>, p: seq<Node>)
    requires Path(g, p) && p[0] in seen
    requires forall n, m :: n in seen && m in Refs(g, n) ==> m in seen
    ensures p[|p| - 1] in seen
  {
    if |p| > 1 {
      assert p[1] in Refs(g, p[0]);
      assert forall i :: 0 <= i < |p| - 1 ==> p[1..][i] == p[i + 1];
      ClosedKeepsPaths(g, seen, p[1..]);
    }
  }

  /** All objects the graph mentions. */
  function Nodes(g: Graph): set<Node> { g.Keys + set n, m | n in g && m in g[n] :: m }

  /** What was seen and what is stacked: reachable, and everything seen leads to one or the other. */
  ghost predicate Searching(g: Graph, from: Node, all: set<Node>, seen: set<Node>, stack: seq<Node>) {
    && seen <= all
    && (forall n :: n in stack ==> n in all && Reach(g, from, n))
    && (from in seen || from in stack)
    && forall n, m :: n in seen && m in Refs(g, n) ==> m in seen || m in stack
  }

  lemma Visit(g: Graph, from: Node, all: set<Node>, seen: set<Node>, stack: seq<Node>, node: Node)
    requires Searching(g, from, all, seen, stack + [node]) && Nodes(g) <= all
    ensures node in seen ==> Searching(g, from, all, seen, stack)
    ensures Searching(g, from, all, seen + {node}, stack + Refs(g, node))
    ensures node in all
  {
    assert node in stack + [node];
    forall m | m in Refs(g, node) ensures Reach(g, from, m) && m in all {
      ReachStep(g, from, node, m);
    }
  }

  lemma SearchedAll(g: Graph, from: Node, to: Node, all: set<Node>, seen: set<Node>)
    requires Searching(g, from, all, seen, []) && to !in seen
    ensures !Reach(g, from, to)
  {
    if Reach(g, from, to) {
      var p :| Connects(g, p, from, to);
      ClosedKeepsPaths(g, seen, p);
    }
  }

  /** Terminates on every graph, and tells exactly whether `from` references `to`. */
  method Reaches(g: Graph, from: Node, to: Node) returns (found: bool)
    ensures found <==> Reach(g, from, to)
  {
    var seen: set<Node> := {};
    var stack := [from];
    ghost var all := Nodes(g) + {from};
    ReachSelf(g, from);
    while stack != []
      invariant Searching(g, from, all, seen, stack) && to !in seen
      decreases |all - seen|, |stack|
    {
      var node := stack[|stack| - 1];
      ghost var rest := stack[..|stack| - 1];
      assert stack == rest + [node];
      Visit(g, from, all, seen, rest, node);
      assert node in stack;
      stack := stack[..|stack| - 1];
      if node == to {
        return true;
      }
      if node in seen {
        continue;
      }
      ProperSubsetSize(all - (seen + {node}), all - seen);
      seen := seen + {node};
      stack := stack + Refs(g, node);
    }
    SearchedAll(g, from, to, all, seen);
    return false;
  }

  // ---------------------------------------------------------------------------------------------
  // Acquiring and releasing

  /** `from` declares a reference to `to`. */
  function WithEdge(g: Graph, from: Node, to: Node): Graph { g[from := Refs(g, from) + [to]] }

  lemma EdgeRefs(g: Graph, from: Node, to: Node, a: Node, b: Node)
    ensures b in Refs(WithEdge(g, from, to), a) <==> b in Refs(g, a) || (a == from && b == to)
  {
  }

  /**
   * A path in the larger graph is one of the smaller, or uses the new edge: then its ends already connect to the
   * edge's.
   */
  lemma {:induction false} PathWithEdge(g: Graph, from: Node, to: Node, p: seq<Node>)
    requires Path(WithEdge(g, from, to), p)
    ensures Reach(g, p[0], p[|p| - 1]) || (Reach(g, p[0], from) && Reach(g, to, p[|p| - 1]))
  {
    var last := p[|p| - 1];
    if |p| == 1 {
      ReachSelf(g, p[0]);
    } else {
      var q := p[..|p| - 1];
      var before := q[|q| - 1];
      PathWithEdge(g, from, to, q);
      assert last == p[|p| - 2 + 1] && before == p[|p| - 2];
      EdgeRefs(g, from, to, before, last);
      if last in Refs(g, before) {
        if Reach(g, p[0], before) { ReachStep(g, p[0], before, last); } else { ReachStep(g, to, before, last); }
      } else {
        ReachSelf(g, to);
      }
    }
  }

  lemma ReachGrows(g: Graph, from: Node, to: Node, a: Node, b: Node)
    requires Reach(g, a, b)
    ensures Reach(WithEdge(g, from, to), a, b)
  {
    var p :| Connects(g, p, a, b);
    forall i | 0 <= i < |p| - 1 ensures p[i + 1] in Refs(WithEdge(g, from, to), p[i]) {
      EdgeRefs(g, from, to, p[i], p[i + 1]);
    }
    assert Connects(WithEdge(g, from, to), p, a, b);
  }

  /**
   * Refusing exactly the edges whose target reaches their source keeps the graph acyclic, and refuses no other edge.
   */
  lemma EdgeKeepsAcyclic(g: Graph, from: Node, to: Node)
    requires Acyclic(g)
    ensures Acyclic(WithEdge(g, from, to)) <==> !Reach(g, to, from)
  {
    var next := WithEdge(g, from, to);
    EdgeRefs(g, from, to, from, to);
    if Reach(g, to, from) {
      ReachGrows(g, from, to, to, from);
    } else {
      forall a: Node, b: Node | b in Refs(next, a) ensures !Reach(next, b, a) {
        EdgeRefs(g, from, to, a, b);
        if Reach(next, b, a) {
          var p :| Connects(next, p, b, a);
          PathWithEdge(g, from, to, p);
          if b in Refs(g, a) && !Reach(g, b, a) {
            ReachStep(g, to, a, b);
            ReachThrough(g, to, b, from);
          }
          assert false;
        }
      }
    }
  }

  /** References go away: by a release, a rollback, a retirement, a disposal. */
  lemma FewerKeepAcyclic(g: Graph, next: Graph)
    requires Acyclic(g)
    requires forall a: Node, b: Node :: b in Refs(next, a) ==> b in Refs(g, a)
    ensures Acyclic(next)
  {
    forall a: Node, b: Node | b in Refs(next, a) ensures !Reach(next, b, a) {
      if Reach(next, b, a) {
        var p :| Connects(next, p, b, a);
        assert Connects(g, p, b, a);
      }
    }
  }

  /** An object the graph does not mention references nothing. */
  lemma NewIsIsolated(g: Graph, created: Node, n: Node)
    requires created !in Nodes(g) && n != created
    ensures !Reach(g, created, n)
  {
    if Reach(g, created, n) {
      var p :| Connects(g, p, created, n);
      ClosedKeepsPaths(g, {created}, p);
    }
  }

  datatype Outcome = Acquired | Cycle

  /** The objects of a host and what their declarations hold. */
  class Host {
    var graph: Graph

    constructor ()
      ensures graph == map[] && Acyclic(graph)
    {
      graph := map[];
    }

    /**
      * An object acquires a reference to an object that exists, or to a new one (nobody's yet, and with no
      * references of its own).
      */
    method Acquire(from: Node, to: Node, existing: bool) returns (outcome: Outcome)
      requires Acyclic(graph)
      requires !existing ==> to !in Nodes(graph) && to != from
      modifies this
      ensures Acyclic(graph)
      ensures outcome == Acquired <==> Acyclic(WithEdge(old(graph), from, to))
      ensures graph == if outcome == Acquired then WithEdge(old(graph), from, to) else old(graph)
    {
      EdgeKeepsAcyclic(graph, from, to);
      if existing {
        var closes := from == to;
        if from == to {
          ReachSelf(graph, from);
        } else {
          closes := Reaches(graph, to, from);
        }
        if closes {
          return Cycle;
        }
      } else {
        NewIsIsolated(graph, to, from);
      }
      graph := WithEdge(graph, from, to);
      return Acquired;
    }

    /** `from` drops the references `dropped` says. */
    method Release(from: Node, kept: seq<Node>)
      requires Acyclic(graph) && forall n :: n in kept ==> n in Refs(graph, from)
      modifies this
      ensures Acyclic(graph) && graph == old(graph)[from := kept]
    {
      FewerKeepAcyclic(graph, graph[from := kept]);
      graph := graph[from := kept];
    }
  }

  // ---------------------------------------------------------------------------------------------
  // Disposal

  predicate Distinct(s: seq<Node>) { forall i, j :: 0 <= i < j < |s| ==> s[i] != s[j] }

  /** `n` is held by an object of `s`. */
  predicate HeldIn(g: Graph, s: seq<Node>, n: Node) { exists i :: 0 <= i < |s| && n in Refs(g, s[i]) }

  function Flatten(waves: seq<seq<Node>>): seq<Node> {
    if waves == [] then [] else Flatten(waves[..|waves| - 1]) + waves[|waves| - 1]
  }

  /** Every object of `objects` goes in exactly one wave, after the waves of everything in the set that holds it. */
  ghost predicate HoldersFirst(g: Graph, objects: seq<Node>, waves: seq<seq<Node>>) {
    && multiset(Flatten(waves)) == multiset(objects)
    && forall i, j, a, b ::
         0 <= i < |waves| && 0 <= j < |waves| && a in waves[i] && b in waves[j] && b in Refs(g, a) ==> i < j
  }

  /** The objects of `t` that nothing in `s` holds. */
  function Unheld(g: Graph, s: seq<Node>, t: seq<Node>): (r: seq<Node>)
    ensures forall n :: n in r <==> n in t && !HeldIn(g, s, n)
    ensures Distinct(t) ==> Distinct(r)
  {
    if t == [] then []
    else
      var init, last := t[..|t| - 1], t[|t| - 1];
      assert t == init + [last];
      Unheld(g, s, init) + if HeldIn(g, s, last) then [] else [last]
  }

  function Without(s: seq<Node>, gone: seq<Node>): (r: seq<Node>)
    ensures forall n :: n in r <==> n in s && n !in gone
    ensures Distinct(s) ==> Distinct(r)
  {
    if s == [] then []
    else
      var init, last := s[..|s| - 1], s[|s| - 1];
      assert s == init + [last];
      Without(init, gone) + if last in gone then [] else [last]
  }

  lemma {:induction false} DistinctCounts(s: seq<Node>, n: Node)
    requires Distinct(s)
    ensures multiset(s)[n] == if n in s then 1 else 0
  {
    if s != [] {
      var init := s[..|s| - 1];
      DistinctCounts(init, n);
      assert s == init + [s[|s| - 1]];
    }
  }

  /** Walking from holder to holder cannot go on in a finite set without a cycle. */
  lemma {:induction false} WalkEnds(g: Graph, s: seq<Node>, p: seq<Node>) returns (free: Node)
    requires Acyclic(g) && Path(g, p) && forall n :: n in p ==> n in s
    requires Distinct(p)
    ensures free in s && !HeldIn(g, s, free)
    decreases |s| - |p|
  {
    free := p[0];
    if HeldIn(g, s, free) {
      var i :| 0 <= i < |s| && free in Refs(g, s[i]);
      var holder := s[i];
      if holder in p {
        var k :| 0 <= k < |p| && p[k] == holder;
        assert Connects(g, p[..k + 1], free, holder);
        assert false;
      }
      var longer := [holder] + p;
      assert forall j :: 0 < j < |longer| ==> longer[j] == p[j - 1];
      assert Path(g, longer);
      DistinctFit(longer, s);
      free := WalkEnds(g, s, longer);
    }
  }

  lemma {:induction false} DistinctFit(p: seq<Node>, s: seq<Node>)
    requires Distinct(p) && forall n :: n in p ==> n in s
    ensures |p| <= |s|
  {
    if p != [] {
      var last := p[|p| - 1];
      assert last in s;
      var i :| 0 <= i < |s| && s[i] == last;
      var rest := s[..i] + s[i + 1..];
      forall n | n in p[..|p| - 1] ensures n in rest {
        assert n in s;
        var j :| 0 <= j < |s| && s[j] == n;
        if j < i { assert rest[j] == n; } else { assert rest[j - 1] == n; }
      }
      DistinctFit(p[..|p| - 1], rest);
    }
  }

  lemma FreeExists(g: Graph, s: seq<Node>)
    requires Acyclic(g) && s != []
    ensures Unheld(g, s, s) != []
  {
    var free := WalkEnds(g, s, [s[0]]);
  }

  /** What is left, and when it goes, once a wave went. */
  ghost predicate Later(g: Graph, waves: seq<seq<Node>>, remaining: seq<Node>) {
    && (forall i, a, b :: 0 <= i < |waves| && b in waves[i] && a in remaining ==> b !in Refs(g, a))
    && forall i, j, a, b ::
         0 <= i < |waves| && 0 <= j < |waves| && a in waves[i] && b in waves[j] && b in Refs(g, a) ==> i < j
  }

  lemma WavePartitions(s: seq<Node>, wave: seq<Node>)
    requires Distinct(s) && Distinct(wave) && forall n :: n in wave ==> n in s
    ensures multiset(wave) + multiset(Without(s, wave)) == multiset(s)
    ensures wave != [] ==> |Without(s, wave)| < |s|
  {
    var rest := Without(s, wave);
    forall n: Node ensures multiset(wave)[n] + multiset(rest)[n] == multiset(s)[n] {
      CountsAdd(s, wave, rest, n);
    }
    MultisetsAdd(multiset(wave), multiset(rest), multiset(s));
    hide Without, Distinct;
    assert |multiset(s)| == |s| && |multiset(rest)| == |rest| && |multiset(wave)| == |wave|;
  }

  lemma CountsAdd(s: seq<Node>, wave: seq<Node>, rest: seq<Node>, n: Node)
    requires Distinct(s) && Distinct(wave) && Distinct(rest)
    requires n in s <==> n in wave || n in rest
    requires !(n in wave && n in rest)
    ensures multiset(wave)[n] + multiset(rest)[n] == multiset(s)[n]
  {
    DistinctCounts(s, n);
    DistinctCounts(wave, n);
    DistinctCounts(rest, n);
  }

  lemma MultisetsAdd(a: multiset<Node>, b: multiset<Node>, c: multiset<Node>)
    requires forall n :: a[n] + b[n] == c[n]
    ensures a + b == c && |a| + |b| == |c|
  {
    assert a + b == c;
  }

  lemma FlattenSnoc(waves: seq<seq<Node>>, wave: seq<Node>)
    ensures Flatten(waves + [wave]) == Flatten(waves) + wave
  {
    assert (waves + [wave])[..|waves|] == waves;
  }

  /** The objects gone and left are the given ones, each once, and the errors are those of the gone. */
  ghost predicate Parted(objects: seq<Node>, waves: seq<seq<Node>>, remaining: seq<Node>, fails: set<Node>,
      errors: seq<Node>) {
    && Distinct(remaining)
    && multiset(Flatten(waves)) + multiset(remaining) == multiset(objects)
    && forall n :: n in errors <==> n in Flatten(waves) && n in fails
  }

  lemma WaveKeepsParted(objects: seq<Node>, waves: seq<seq<Node>>, remaining: seq<Node>, fails: set<Node>,
      errors: seq<Node>, wave: seq<Node>)
    requires Parted(objects, waves, remaining, fails, errors) && wave != []
    requires Distinct(wave) && forall n :: n in wave ==> n in remaining
    ensures Parted(objects, waves + [wave], Without(remaining, wave), fails, errors + Failing(wave, fails))
    ensures |Without(remaining, wave)| < |remaining|
  {
    WavePartitions(remaining, wave);
    FlattenSnoc(waves, wave);
    var gone := Flatten(waves);
    assert multiset(gone + wave) == multiset(gone) + multiset(wave);
    hide Without, Flatten, Failing;
  }

  /** An acyclic set goes holders first; any set goes exactly once, and every failure is collected. */
  method DisposeHoldersFirst(g: Graph, objects: seq<Node>, fails: set<Node>)
      returns (waves: seq<seq<Node>>, errors: seq<Node>)
    requires Distinct(objects)
    ensures multiset(Flatten(waves)) == multiset(objects)
    ensures Acyclic(g) ==> HoldersFirst(g, objects, waves)
    ensures forall n :: n in errors <==> n in Flatten(waves) && n in fails
  {
    hide Without, Flatten, Failing, HeldIn, Distinct, Acyclic;
    var remaining := objects;
    waves, errors := [], [];
    assert Flatten(waves) == [] by { NothingFlat(); }
    while |remaining| > 0
      invariant Parted(objects, waves, remaining, fails, errors)
      invariant Acyclic(g) ==> Later(g, waves, remaining)
      decreases |remaining|
    {
      var wave := Unheld(g, remaining, remaining);
      if Acyclic(g) {
        FreeExists(g, remaining);
        WaveKeepsLater(g, waves, remaining, wave);
      }
      if |wave| == 0 {
        wave := remaining;
      }
      WaveKeepsParted(objects, waves, remaining, fails, errors, wave);
      errors := errors + Failing(wave, fails);
      remaining := Without(remaining, wave);
      waves := waves + [wave];
    }
    assert remaining == [];
    assert multiset(Flatten(waves)) + multiset(remaining) == multiset(Flatten(waves));
  }

  lemma NothingFlat()
    ensures Flatten([]) == []
  {
  }

  function Failing(s: seq<Node>, fails: set<Node>): (r: seq<Node>)
    ensures forall n :: n in r <==> n in s && n in fails
  {
    if s == [] then []
    else
      assert s == s[..|s| - 1] + [s[|s| - 1]];
      Failing(s[..|s| - 1], fails) + if s[|s| - 1] in fails then [s[|s| - 1]] else []
  }

  lemma WaveKeepsLater(g: Graph, waves: seq<seq<Node>>, remaining: seq<Node>, wave: seq<Node>)
    requires Later(g, waves, remaining) && wave == Unheld(g, remaining, remaining)
    ensures Later(g, waves + [wave], Without(remaining, wave))
  {
    var next := waves + [wave];
    forall a, b | a in remaining && b in wave ensures b !in Refs(g, a) {
      assert !HeldIn(g, remaining, b);
      var i :| 0 <= i < |remaining| && remaining[i] == a;
    }
    forall i, j, a, b | 0 <= i < |next| && 0 <= j < |next| && a in next[i] && b in next[j] && b in Refs(g, a)
      ensures i < j
    {
      assert i == |waves| ==> a in remaining;
      assert b in if j == |waves| then wave else waves[j];
    }
  }
}
